/** The sequencer as the program keeps it: one object whose fields change in place.  Every
    method is proved to do exactly what `ChatSequencer` says, so `ChatSafety` is about it. */
module ChatChannels {
  import opened Basics
  import opened ChatProtocol
  import opened ChatText
  import opened ChatSequencer
  import opened ChatRoster
  import opened ChatAccounting
  import opened ChatLegal
  import opened ChatStreams
  import opened ChatPace
  import opened ChatSafety

  function NextCounter(value: nat): Option<nat> {
    if value >= COUNTER_MAX then None else Some(value + 1)
  }

  class ChatChannels {
    const config: Config
    var channels: map<nat, ChannelState>
    var links: map<nat, LinkState>
    var replies: seq<QueuedReply>
    var pushes: seq<PendingPush>
    var closedPeers: seq<nat>
    var pending: nat
    var pushBytes: nat
    var linkGeneration: nat
    var nextPeer: nat
    ghost var delivered: seq<PendingPush>
    ghost var log: map<nat, seq<Post>>

    ghost function View(): State
      reads this
    {
      State(channels, links, replies, pushes, closedPeers, pending, pushBytes, linkGeneration, nextPeer, delivered, log)
    }

    ghost predicate Valid()
      reads this
    {
      Inv(config, View())
    }

    constructor (config: Config)
      requires ValidConfig(config)
      ensures this.config == config && View() == Initial(config) && Valid()
    {
      this.config := config;
      channels := map shard | shard in config.shards :: ChannelState(EpochOf(config, shard), 0, map[]);
      links, replies, pushes, closedPeers := map[], [], [], [];
      pending, pushBytes, linkGeneration, nextPeer := 0, 0, 0, 0;
      delivered := [];
      log := map shard | shard in config.shards :: [];
      new;
      InvInitial(config);
    }

    method Open(peer: nat) returns (ok: bool)
      requires Valid()
      modifies this
      ensures (View(), ok) == Opened(old(View()), peer) && Valid()
    {
      hide Inv;
      InvOpened(config, View(), peer);
      if peer == 0 || peer in links || |links| + |closedPeers| >= TRANSPORT_CONNECTIONS_MAX {
        return false;
      }
      links := links[peer := LinkState(None, 0, [])];
      return true;
    }

    /** Erase the replies of one connection from the deque, one by one. */
    method EraseReplies(peer: nat)
      requires pending >= |replies|
      modifies this`replies, this`pending
      ensures replies == WithoutReplies(old(replies), peer)
      ensures pending == old(pending) - (|old(replies)| - |replies|)
    {
      ghost var before := replies;
      ghost var seen := 0;
      var i := 0;
      while i < |replies|
        invariant 0 <= i <= |replies| && i <= seen <= |before|
        invariant replies[..i] == WithoutReplies(before[..seen], peer) && replies[i..] == before[seen..]
        invariant pending == old(pending) - (seen - i) && |before| - seen == |replies| - i
        decreases |replies| - i
      {
        assert before[..seen + 1][..seen] == before[..seen];
        assert before[seen] == replies[i];
        if replies[i].peer == peer {
          replies := replies[..i] + replies[i + 1..];
          pending := pending - 1;
        } else {
          i := i + 1;
        }
        seen := seen + 1;
      }
      assert before[..seen] == before;
    }

    /** Erase the pushes of one connection from the deque, one by one. */
    method ErasePushes(peer: nat)
      requires pushBytes == Bytes(config, pushes)
      modifies this`pushes, this`pushBytes
      ensures pushes == WithoutPushes(old(pushes), peer) && pushBytes == Bytes(config, pushes)
    {
      ghost var before := pushes;
      ghost var seen := 0;
      var i := 0;
      while i < |pushes|
        invariant 0 <= i <= |pushes| && i <= seen <= |before|
        invariant pushes[..i] == WithoutPushes(before[..seen], peer) && pushes[i..] == before[seen..]
        invariant pushBytes == Bytes(config, pushes)
        decreases |pushes| - i
      {
        assert before[..seen + 1][..seen] == before[..seen];
        assert before[seen] == pushes[i];
        if pushes[i].peer == peer {
          RemoveBytes(config, pushes, i);
          pushBytes := pushBytes - config.payloadSize(pushes[i].push);
          pushes := pushes[..i] + pushes[i + 1..];
        } else {
          i := i + 1;
        }
        seen := seen + 1;
      }
      assert before[..seen] == before;
    }

    method EraseMembers(peer: nat)
      modifies this`channels
      ensures channels == WithoutMembers(old(channels), peer)
    {
      ghost var goal := WithoutMembers(channels, peer);
      var shards := Ascending(channels.Keys);
      AscendingSorted(channels.Keys);
      KeptKeys(channels, peer);
      hide Ascending, WithoutMembers;
      var i := 0;
      while i < |shards|
        invariant 0 <= i <= |shards| && channels.Keys == goal.Keys
        invariant forall j :: 0 <= j < i ==> channels[shards[j]] == goal[shards[j]]
        invariant forall j :: i <= j < |shards| ==> channels[shards[j]] == old(channels)[shards[j]]
      {
        assert shards[i] in shards;
        var channel := channels[shards[i]];
        var kept := map id | id in channel.members && channel.members[id].peer != peer :: channel.members[id];
        KeptMembers(old(channels), peer, shards[i], kept);
        channels := channels[shards[i] := channel.(members := kept)];
        i := i + 1;
      }
      forall a | a in channels
        ensures channels[a] == goal[a]
      {
        assert a in shards;
      }
    }

    method CloseCounted(peer: nat)
      requires pending >= |replies| + if peer in links then |links[peer].requests| else 0
      requires pushBytes == Bytes(config, pushes)
      modifies this
      ensures View() == Closed(config, old(View()), peer)
    {
      hide WithoutReplies, WithoutPushes, WithoutMembers, Bytes, Closed;
      ghost var before := View();
      if peer in links {
        pending := pending - |links[peer].requests|;
        links := links - {peer};
      }
      assert links == before.links - {peer};
      EraseReplies(peer);
      ErasePushes(peer);
      EraseMembers(peer);
      ClosedFields(config, before, View(), peer);
    }

    method Close(peer: nat)
      requires Valid()
      modifies this
      ensures View() == Closed(config, old(View()), peer) && Valid()
    {
      hide Inv, Closed;
      InvClosed(config, View(), peer);
      Books(config, View(), peer);
      CloseCounted(peer);
    }

    method IsSendInFlight(peer: nat, request: Request) returns (found: bool)
      requires peer in links
      ensures found == SendInFlight(View(), peer, request)
    {
      var queue := links[peer].requests;
      for i := 0 to |queue|
        invariant forall j :: 0 <= j < i ==> !SameSend(queue[j].request, request)
      {
        if SameSend(queue[i].request, request) {
          return true;
        }
      }
      for i := 0 to |replies|
        invariant forall j :: 0 <= j < i ==> !ReplyOfSameSend(replies[j], peer, request)
      {
        if ReplyOfSameSend(replies[i], peer, request) {
          return true;
        }
      }
      return false;
    }

    method Enqueue(peer: nat, request: Request, id: nat, now: int) returns (outcome: SubmitOutcome)
      requires Valid()
      modifies this
      ensures (View(), outcome) == Submit(config, old(View()), peer, request, id, now) && Valid()
    {
      hide Inv, ValidRequest, SendInFlight;
      InvSubmit(config, View(), peer, request, id, now);
      if peer !in links {
        return SubmitRefused;
      }
      var inFlight := IsSendInFlight(peer, request);
      var link := links[peer];
      if inFlight || pending >= config.pendingRequests || |link.requests| >= config.queuedPerLink {
        return SubmitRefused;
      }
      if !ValidRequest(request, id) {
        return SubmitInvalid;
      }
      links := links[peer := link.(requests := link.requests + [Pending(request, id, now + config.operationTimeout)])];
      pending := pending + 1;
      return SubmitQueued;
    }

    method TakeReply() returns (reply: Option<QueuedReply>)
      requires Valid()
      modifies this
      ensures (View(), reply) == ChatSequencer.TakeReply(old(View())) && Valid()
    {
      hide Inv;
      InvOutput(config, View(), ChatSequencer.TakeReply(View()).0);
      Books(config, View(), 0);
      if replies == [] {
        return None;
      }
      reply := Some(replies[0]);
      replies := replies[1..];
      pending := pending - 1;
    }

    method TakeClosedPeers() returns (peers: seq<nat>)
      requires Valid()
      modifies this
      ensures (View(), peers) == ChatSequencer.TakeClosedPeers(old(View())) && Valid()
    {
      hide Inv;
      InvOutput(config, View(), ChatSequencer.TakeClosedPeers(View()).0);
      peers := closedPeers;
      closedPeers := [];
    }

    /** Hand out at most a round of pushes, dropping those whose membership is gone. */
    method DrainPushes() returns (ready: seq<PendingPush>)
      requires Valid()
      modifies this
      ensures View() == Drain(config, old(View()), 0) && Valid()
      ensures |old(delivered)| <= |delivered| && ready == delivered[|old(delivered)|..]
      ensures forall i :: 0 <= i < |ready| ==> IsMember(channels, ready[i].peer, ready[i].membership)
    {
      hide Inv, DrainOne, IsMember;
      ghost var start := View();
      ready := [];
      var consumed := 0;
      while consumed < PUSHES_PER_ROUND_MAX && pushes != []
        invariant consumed <= PUSHES_PER_ROUND_MAX && Valid()
        invariant Drain(config, View(), consumed) == Drain(config, start, 0)
        invariant delivered == start.delivered + ready && channels == start.channels
        invariant forall i :: 0 <= i < |ready| ==> IsMember(channels, ready[i].peer, ready[i].membership)
        decreases PUSHES_PER_ROUND_MAX - consumed
      {
        var push := DrainFront();
        if push.Some? {
          ready := ready + [push.value];
        }
        consumed := consumed + 1;
      }
    }

    /** Take one push off the queue; it is handed out only if its membership is live. */
    method DrainFront() returns (push: Option<PendingPush>)
      requires Valid() && pushes != []
      modifies this`pushes, this`pushBytes, this`delivered
      ensures View() == DrainOne(config, old(View())) && Valid()
      ensures delivered == old(delivered) + (if push.Some? then [push.value] else [])
      ensures push.Some? ==> IsMember(channels, push.value.peer, push.value.membership)
    {
      hide Inv;
      InvDrainOne(config, View());
      Books(config, View(), 0);
      FrontBytes(config, pushes);
      hide Bytes;
      var front := pushes[0];
      pushes := pushes[1..];
      pushBytes := pushBytes - config.payloadSize(front.push);
      push := None;
      var shard := front.membership.channel.shardId;
      if shard in channels {
        var members := channels[shard].members;
        var id := front.membership.characterId;
        if id in members && members[id].peer == front.peer && members[id].membership == front.membership {
          push := Some(front);
          delivered := delivered + [front];
        }
      }
    }

    // -------------------------------------------------------------------------------------
    // Handling requests

    /** Close the listed connections and remember them for the transport. */
    method ReplaceAll(peers: seq<nat>)
      requires Accounting(config, View(), 1)
      requires forall i :: 0 <= i < |peers| ==> peers[i] in links
      requires forall i, j :: 0 <= i < j < |peers| ==> peers[i] < peers[j]
      modifies this
      ensures View() == Replace(config, old(View()), peers)
    {
      hide Accounting, Closed;
      ghost var start := View();
      var i := 0;
      while i < |peers|
        invariant 0 <= i <= |peers|
        invariant View() == Replace(config, start, peers[..i])
      {
        assert peers[..i + 1][..i] == peers[..i];
        AccountingReplace(config, start, peers[..i], 1);
        TakenBooks(config, View(), peers[i]);
        CloseCounted(peers[i]);
        closedPeers := closedPeers + [peers[i]];
        i := i + 1;
      }
      assert peers[..i] == peers;
    }

    method Hello(peer: nat, r: Request) returns (reply: Reply)
      requires peer in links && Accounting(config, View(), 1)
      modifies this
      ensures (View(), reply) == ChatSequencer.Hello(config, old(View()), peer, r)
    {
      hide Accounting, Replace;
      var next := NextCounter(linkGeneration);
      if links[peer].link.Some? || next.None? {
        return Refuse(r, StatusInvalid);
      }
      var mine := links[peer];
      var replaced := Ascending(Established(links) - {peer});
      AscendingSorted(Established(links) - {peer});
      hide Ascending;
      assert forall j :: 0 <= j < |replaced| ==> replaced[j] in replaced;
      ReplaceAll(replaced);
      var installed := r.link.(linkGeneration := next.value, chatIncarnation := config.incarnation);
      linkGeneration := next.value;
      links := links[peer := mine.(link := Some(installed))];
      reply := Refuse(r, StatusOk).(link := installed);
    }

    method Leave(peer: nat, r: Request) returns (reply: Reply)
      requires peer in links && MembershipOf(r).channel.shardId in channels
      modifies this`links, this`channels
      ensures (View(), reply) == ChatSequencer.Leave(old(View()), peer, r)
    {
      var m := MembershipOf(r);
      var shard := m.channel.shardId;
      if links[peer].highestGeneration < m.generation {
        links := links[peer := links[peer].(highestGeneration := m.generation)];
      }
      assert links == old(links)[peer := links[peer]];
      if IsMember(channels, peer, m) {
        channels := channels[shard := channels[shard].(members := channels[shard].members - {m.characterId})];
      }
      reply := Refuse(r, StatusOk).(membership := Some(m));
    }

    /** The characters with any membership, and how many memberships `id` holds. */
    method Count(id: nat) returns (characters: set<nat>, qualifications: nat)
      ensures characters == Characters(channels) && qualifications == |Qualifications(channels, id)|
    {
      hide CharactersIn, HoldersIn, Ascending, Characters, Qualifications, Rising;
      var shards := Ascending(channels.Keys);
      AscendingRises(channels.Keys);
      characters, qualifications := {}, 0;
      var i := 0;
      assert shards[..0] == [];
      NoneCounted(channels, id);
      while i < |shards|
        invariant 0 <= i <= |shards|
        invariant characters == CharactersIn(channels, shards[..i])
        invariant qualifications == |HoldersIn(channels, shards[..i], id)|
      {
        CountStep(channels, shards, i, id);
        characters := characters + channels[shards[i]].members.Keys;
        if id in channels[shards[i]].members {
          qualifications := qualifications + 1;
        }
        i := i + 1;
      }
      assert shards[..i] == shards;
      EverySeen(channels, shards, id);
    }

    /** The capacity rules of a join, counted over every channel. */
    method Busy(shard: nat, id: nat) returns (busy: bool)
      requires shard in channels
      ensures busy == JoinBusy(channels, shard, id)
    {
      var characters, qualifications := Count(id);
      var members := channels[shard].members;
      return (id !in members && |members| >= Capacity(channels[shard].epoch.channel.kind))
             || (id !in characters && |characters| >= CHARACTERS_MAX)
             || (id !in members && qualifications >= MEMBERSHIPS_PER_CHARACTER_MAX);
    }

    method Join(peer: nat, r: Request, now: int) returns (reply: Reply)
      requires peer in links && MembershipOf(r).channel.shardId in channels
      modifies this`links, this`channels
      ensures (View(), reply) == ChatSequencer.Join(old(View()), peer, r, now)
    {
      hide JoinBusy;
      var m := MembershipOf(r);
      var shard := m.channel.shardId;
      reply := Refuse(r, StatusOk).(membership := Some(m));
      if IsMember(channels, peer, m) {
        reply := reply.(state := Some(channels[shard].members[m.characterId].state));
        return;
      }
      if m.generation <= links[peer].highestGeneration {
        return Refuse(r, StatusStaleMembership);
      }
      var busy := Busy(shard, m.characterId);
      if busy {
        return Refuse(r, StatusBusy);
      }
      var joined := FreshMember(channels[shard], peer, m, now);
      links := links[peer := links[peer].(highestGeneration := m.generation)];
      channels := channels[shard := channels[shard].(members := channels[shard].members[m.characterId := joined])];
      reply := reply.(state := Some(joined.state));
    }

    /** Build every push of a message before anything is accepted. */
    method Reserve(shard: nat, channelSeq: nat, sender: nat, text: Text) returns (reserved: seq<PendingPush>, bytes: nat)
      requires shard in channels
      requires forall id :: id in channels[shard].members ==> HasLink(links, channels[shard].members[id].peer)
      ensures reserved == Reserved(links, channels[shard], channelSeq, sender, text) && bytes == Bytes(config, reserved)
    {
      var channel := channels[shard];
      var ids := Ascending(channel.members.Keys);
      AscendingSorted(channel.members.Keys);
      reserved, bytes := [], 0;
      var i := 0;
      while i < |ids|
        invariant 0 <= i <= |ids|
        invariant reserved == Fanout(links, channel, ids[..i], channelSeq, sender, text)
        invariant bytes == Bytes(config, reserved)
      {
        assert ids[i] in ids && ids[..i + 1][..i] == ids[..i];
        var recipient := channel.members[ids[i]];
        var push := Push(links[recipient.peer].link.value, recipient.membership,
                         ChatMessage(recipient.membership.generation, channel.epoch, channelSeq, sender, text));
        assert PendingPush(recipient.peer, recipient.membership, push)
            == PushTo(links, recipient, channel.epoch, channelSeq, sender, text);
        BytesMore(config, reserved, PendingPush(recipient.peer, recipient.membership, push));
        reserved := reserved + [PendingPush(recipient.peer, recipient.membership, push)];
        bytes := bytes + config.payloadSize(push);
        i := i + 1;
      }
      assert ids[..i] == ids;
    }

    method Accept(shard: nat, id: nat, request: SendChat, blank: SendResult) returns (result: SendResult)
      requires Live(channels, shard, id) && channels[shard].sequence < COUNTER_MAX
      requires forall i :: i in channels[shard].members ==> HasLink(links, channels[shard].members[i].peer)
      modifies this`channels, this`pushes, this`pushBytes, this`log
      ensures (View(), result) == Post1(config, old(View()), shard, id, request, blank)
    {
      hide LinkOf, Rejected;
      var channel := channels[shard];
      var member := channel.members[id];
      var next := channel.sequence + 1;
      var reserved, bytes := Reserve(shard, next, member.membership.characterId, request.text);
      hide Reserved, Bytes;
      if !BudgetAllows(|pushes|, pushBytes, |reserved|, bytes, config.pendingPushes, config.pendingPushBytes) {
        return Rejected(blank, ReasonResourceLimit);
      }
      var receipt := Receipt(channel.epoch, next, request.clientSendSeq);
      result := blank.(outcome := OutcomeAccepted, receipt := Some(receipt));
      ghost var post := Post(KeyOf(links, member), request.clientSendSeq, request.text, member.refill);
      member := member.(state := member.state.(lastReceipt := Some(receipt), lastClientSendSeq := request.clientSendSeq),
                        lastText := request.text, tokens := member.tokens - 1.0);
      channels := channels[shard := channel.(sequence := next, members := channel.members[id := member])];
      pushes := pushes + reserved;
      pushBytes := pushBytes + bytes;
      log := if shard in log then log[shard := log[shard] + [post]] else log;
    }

    method SendMessage(shard: nat, id: nat, request: SendChat, blank: SendResult, now: int) returns (result: SendResult)
      requires Live(channels, shard, id)
      requires forall i :: i in channels[shard].members ==> HasLink(links, channels[shard].members[i].peer)
      modifies this`channels, this`pushes, this`pushBytes, this`log
      ensures (View(), result) == Send(config, old(View()), shard, id, request, blank, now)
    {
      hide Post1;
      var channel := channels[shard];
      var member := channel.members[id];
      if request.expectedEpoch.chatIncarnation != config.incarnation {
        return Rejected(blank, ReasonWrongEpoch);
      }
      var last := member.state.lastClientSendSeq;
      if request.clientSendSeq == last && last != 0 {
        if member.lastText != request.text {
          return Rejected(blank, ReasonSequenceConflict);
        }
        return blank.(outcome := OutcomeAccepted, receipt := member.state.lastReceipt);
      }
      var nextSend, nextChannel := NextCounter(last), NextCounter(channel.sequence);
      if nextSend.None? || nextChannel.None? {
        return Rejected(blank, ReasonCounterExhausted);
      }
      if request.clientSendSeq != nextSend.value {
        return Rejected(blank, ReasonInvalidSequence);
      }
      member := Refilled(member, now);
      channels := WithMember(channels, shard, id, member);
      if member.tokens < 1.0 {
        return Rejected(blank, ReasonRateLimited);
      }
      result := Accept(shard, id, request, blank);
    }

    method Handle(peer: nat, r: Request, now: int) returns (reply: Reply)
      requires peer in links && Accounting(config, View(), 1)
      requires forall a, i :: Live(channels, a, i) ==> HasLink(links, channels[a].members[i].peer)
      modifies this
      ensures (View(), reply) == ChatSequencer.Handle(config, old(View()), peer, r, now)
    {
      hide Accounting, ChatSequencer.Hello, ChatSequencer.Leave, ChatSequencer.Join, Send;
      if r.link.realmId != config.realmId || r.link.realmInstanceId != config.realmInstanceId
         || r.link.chatInstanceId != config.instanceId {
        return Refuse(r, StatusForbidden);
      }
      if r.operation == OpHello {
        reply := Hello(peer, r);
        return;
      }
      if links[peer].link != Some(r.link) {
        return Refuse(r, StatusStaleLink);
      }
      var m := MembershipOf(r);
      var shard := m.channel.shardId;
      if shard !in channels || channels[shard].epoch.channel != m.channel {
        return Refuse(r, StatusForbidden);
      }
      if r.operation == OpLeave {
        reply := Leave(peer, r);
      } else if r.operation == OpJoin {
        reply := Join(peer, r, now);
      } else if !IsMember(channels, peer, m) {
        reply := Refuse(r, StatusStaleMembership);
      } else {
        reply := Refuse(r, StatusOk).(membership := Some(m));
        if r.operation == OpSend {
          assert forall i :: i in channels[shard].members ==> Live(channels, shard, i);
          var result := SendMessage(shard, m.characterId, SendOf(r), BlankResult(SendOf(r)), now);
          reply := reply.(result := Some(result));
        } else {
          reply := reply.(state := Some(channels[shard].members[m.characterId].state));
        }
      }
    }

    /** Take request `i` of one connection off its queue and queue its answer. */
    method ServeOne(peer: nat, i: nat, now: int)
      requires Valid() && peer in links && i < |links[peer].requests|
      modifies this
      ensures View() == Serve(config, old(View()), peer, i, now) && Valid()
    {
      hide Inv, ChatSequencer.Handle;
      InvServe(config, View(), peer, i, now);
      TakenOff(config, View(), peer, i);
      var queue := links[peer].requests;
      var item := queue[i];
      links := links[peer := links[peer].(requests := queue[..i] + queue[i + 1..])];
      var reply;
      if item.deadline <= now {
        reply := Refuse(item.request, StatusUnavailable);
      } else {
        reply := Handle(peer, item.request, now);
      }
      replies := replies + [QueuedReply(peer, item.id, reply)];
    }

    method FindServable(queue: seq<Pending>, peer: nat, served: set<(nat, nat)>, now: int) returns (i: nat)
      ensures i == FirstServable(queue, 0, peer, served, now)
    {
      i := 0;
      while i < |queue| && !Servable(queue[i], peer, served, now)
        invariant 0 <= i <= |queue|
        invariant FirstServable(queue, 0, peer, served, now) == FirstServable(queue, i, peer, served, now)
      {
        i := i + 1;
      }
    }

    /** One bounded, round-robin round over the connections. */
    method RunRound(now: int)
      requires Valid()
      modifies this
      ensures View() == ChatSequencer.RunRound(config, old(View()), now) && Valid()
    {
      hide Inv, Serve, NextPeer, FirstServable;
      var served: set<(nat, nat)> := {};
      var processed, attempt := 0, 0;
      ghost var start := View();
      while attempt < REQUESTS_PER_ROUND_MAX * TRANSPORT_CONNECTIONS_MAX && processed < REQUESTS_PER_ROUND_MAX && links.Keys != {}
        invariant 0 <= attempt <= REQUESTS_PER_ROUND_MAX * TRANSPORT_CONNECTIONS_MAX && 0 <= processed
        invariant Valid()
        invariant Rounds(config, View(), served, attempt, processed, now) == Rounds(config, start, {}, 0, 0, now)
        decreases REQUESTS_PER_ROUND_MAX * TRANSPORT_CONNECTIONS_MAX - attempt
      {
        var peer := NextPeer(links.Keys, nextPeer);
        InvSameButCursor(config, View(), Advance(View(), peer));
        nextPeer := if peer >= PEER_MAX then 0 else peer + 1;
        var queue := links[peer].requests;
        var i := FindServable(queue, peer, served, now);
        if i != |queue| {
          ServeOne(peer, i, now);
          served := Served(served, peer, queue[i], now);
          processed := processed + 1;
        }
        attempt := attempt + 1;
      }
    }
  }

  ghost function CharactersIn(channels: map<nat, ChannelState>, shards: seq<nat>): set<nat>
    requires forall j :: 0 <= j < |shards| ==> shards[j] in channels
  {
    if shards == [] then {}
    else CharactersIn(channels, shards[..|shards| - 1]) + channels[shards[|shards| - 1]].members.Keys
  }

  ghost function HoldersIn(channels: map<nat, ChannelState>, shards: seq<nat>, id: nat): set<nat>
    requires forall j :: 0 <= j < |shards| ==> shards[j] in channels
  {
    if shards == [] then {}
    else HoldersIn(channels, shards[..|shards| - 1], id)
         + (if id in channels[shards[|shards| - 1]].members then {shards[|shards| - 1]} else {})
  }

  lemma {:induction false} HoldersInMeaning(channels: map<nat, ChannelState>, shards: seq<nat>, id: nat)
    requires forall j :: 0 <= j < |shards| ==> shards[j] in channels
    ensures forall a :: a in HoldersIn(channels, shards, id) <==> a in shards && id in channels[a].members
  {
    if shards != [] {
      HoldersInMeaning(channels, shards[..|shards| - 1], id);
      assert shards == shards[..|shards| - 1] + [shards[|shards| - 1]];
    }
  }

  lemma {:induction false} CharactersInMeaning(channels: map<nat, ChannelState>, shards: seq<nat>)
    requires forall j :: 0 <= j < |shards| ==> shards[j] in channels
    ensures forall x :: x in CharactersIn(channels, shards) <==> exists a :: a in shards && x in channels[a].members
  {
    if shards != [] {
      CharactersInMeaning(channels, shards[..|shards| - 1]);
      assert shards == shards[..|shards| - 1] + [shards[|shards| - 1]];
      assert forall a :: a in shards <==> a in shards[..|shards| - 1] || a == shards[|shards| - 1];
    }
  }

  ghost predicate Rising(s: seq<nat>) { forall j, k :: 0 <= j < k < |s| ==> s[j] < s[k] }

  lemma AscendingRises(s: set<nat>)
    ensures Rising(Ascending(s)) && forall x :: x in Ascending(s) <==> x in s
    ensures forall j :: 0 <= j < |Ascending(s)| ==> Ascending(s)[j] in s
  {
    hide Ascending;
    AscendingSorted(s);
    assert forall j :: 0 <= j < |Ascending(s)| ==> Ascending(s)[j] in Ascending(s);
  }

  lemma NoneCounted(channels: map<nat, ChannelState>, id: nat)
    ensures CharactersIn(channels, []) == {} && HoldersIn(channels, [], id) == {}
  {
  }

  lemma CountStep(channels: map<nat, ChannelState>, shards: seq<nat>, i: nat, id: nat)
    requires forall j :: 0 <= j < |shards| ==> shards[j] in channels
    requires Rising(shards)
    requires i < |shards|
    ensures CharactersIn(channels, shards[..i + 1]) == CharactersIn(channels, shards[..i]) + channels[shards[i]].members.Keys
    ensures |HoldersIn(channels, shards[..i + 1], id)|
            == |HoldersIn(channels, shards[..i], id)| + (if id in channels[shards[i]].members then 1 else 0)
  {
    assert shards[..i + 1][..i] == shards[..i];
    HoldersInMeaning(channels, shards[..i], id);
    assert shards[i] !in shards[..i];
  }

  lemma EverySeen(channels: map<nat, ChannelState>, shards: seq<nat>, id: nat)
    requires forall a :: a in shards <==> a in channels
    ensures CharactersIn(channels, shards) == Characters(channels)
    ensures HoldersIn(channels, shards, id) == Qualifications(channels, id)
  {
    hide CharactersIn, HoldersIn;
    CharactersInMeaning(channels, shards);
    HoldersInMeaning(channels, shards, id);
    forall x | x in Characters(channels)
      ensures x in CharactersIn(channels, shards)
    {
      var a :| a in channels && x in channels[a].members;
      assert a in shards;
    }
  }

  lemma TakenBooks(c: Config, s: State, peer: nat)
    requires Accounting(c, s, 1)
    ensures s.pending >= |s.replies| + (if peer in s.links then |s.links[peer].requests| else 0)
    ensures s.pushBytes == Bytes(c, s.pushes)
  {
    if peer in s.links {
      SumRemove(s.links, peer);
    }
  }

  /** With one request off its queue the books are one answer short, and every member is linked. */
  lemma TakenOff(c: Config, s: State, peer: nat, i: nat)
    requires Inv(c, s) && peer in s.links && i < |s.links[peer].requests|
    ensures var queue := s.links[peer].requests;
            var s1 := s.(links := s.links[peer := s.links[peer].(requests := queue[..i] + queue[i + 1..])]);
            && Accounting(c, s1, 1)
            && forall a, x :: Live(s1.channels, a, x) ==> HasLink(s1.links, s1.channels[a].members[x].peer)
  {
    hide Roster, Quotas, Wire, Streams, Pace;
    var queue := s.links[peer].requests;
    var s1 := s.(links := s.links[peer := s.links[peer].(requests := queue[..i] + queue[i + 1..])]);
    SumRemove(s.links, peer);
    SumUpdate(s.links, peer, s1.links[peer]);
    assert s1.links.Keys == s.links.Keys;
    MembersLinked(c, s);
  }

  lemma ClosedFields(c: Config, s: State, s': State, peer: nat)
    requires s'.links == s.links - {peer} && s'.replies == WithoutReplies(s.replies, peer)
    requires s'.pending == s.pending - (if peer in s.links then |s.links[peer].requests| else 0) - (|s.replies| - |s'.replies|)
    requires s.pushBytes == Bytes(c, s.pushes) && s'.pushes == WithoutPushes(s.pushes, peer) && s'.pushBytes == Bytes(c, s'.pushes)
    requires s'.channels == WithoutMembers(s.channels, peer) && s'.closedPeers == s.closedPeers
    requires s'.linkGeneration == s.linkGeneration && s'.nextPeer == s.nextPeer && s'.delivered == s.delivered && s'.log == s.log
    ensures s' == Closed(c, s, peer)
  {
  }

  /** The totals cover what they count, so nothing subtracted from them can wrap around. */
  lemma Books(c: Config, s: State, peer: nat)
    requires Inv(c, s)
    ensures s.pending >= |s.replies| + (if peer in s.links then |s.links[peer].requests| else 0)
    ensures s.pushBytes == Bytes(c, s.pushes)
  {
    hide Roster, Quotas, Wire, Streams, Pace;
    if peer in s.links {
      SumRemove(s.links, peer);
    }
  }

  lemma RemoveBytes(c: Config, ps: seq<PendingPush>, i: nat)
    requires i < |ps|
    ensures Bytes(c, ps[..i] + ps[i + 1..]) == Bytes(c, ps) - c.payloadSize(ps[i].push)
  {
    hide Bytes;
    BytesConcat(c, ps[..i], ps[i..]);
    BytesConcat(c, [ps[i]], ps[i + 1..]);
    BytesConcat(c, ps[..i], ps[i + 1..]);
    assert ps == ps[..i] + ps[i..] && ps[i..] == [ps[i]] + ps[i + 1..];
    OneBytes(c, ps[i]);
  }

  lemma OneBytes(c: Config, e: PendingPush)
    ensures Bytes(c, [e]) == c.payloadSize(e.push)
  {
    assert [e][..0] == [];
  }

  lemma BytesMore(c: Config, ps: seq<PendingPush>, e: PendingPush)
    ensures Bytes(c, ps + [e]) == Bytes(c, ps) + c.payloadSize(e.push)
  {
    assert (ps + [e])[..|ps|] == ps;
  }

  lemma KeptKeys(channels: map<nat, ChannelState>, peer: nat)
    ensures WithoutMembers(channels, peer).Keys == channels.Keys
  {
  }

  lemma KeptMembers(channels: map<nat, ChannelState>, peer: nat, a: nat, kept: map<nat, Member>)
    requires a in channels
    requires kept == map id | id in channels[a].members && channels[a].members[id].peer != peer :: channels[a].members[id]
    ensures a in WithoutMembers(channels, peer) && channels[a].(members := kept) == WithoutMembers(channels, peer)[a]
  {
  }

  lemma FrontBytes(c: Config, ps: seq<PendingPush>)
    requires ps != []
    ensures Bytes(c, ps[1..]) == Bytes(c, ps) - c.payloadSize(ps[0].push)
  {
    RemoveBytes(c, ps, 0);
    assert ps[..0] + ps[1..] == ps[1..];
  }
}
