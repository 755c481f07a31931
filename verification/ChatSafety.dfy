/** What holds of the chat sequencer in every run: the invariant, and what it gives a client. */
module ChatSafety {
  import opened Basics
  import opened ChatProtocol
  import opened ChatSequencer
  import opened ChatRoster
  import opened ChatAccounting
  import opened ChatLegal
  import opened ChatStreams
  import opened ChatPace

  ghost predicate Inv(c: Config, s: State) {
    && ValidConfig(c) && Roster(c, s) && Accounting(c, s, 0) && Quotas(s.channels) && Wire(s) && Streams(s) && Pace(s)
  }

  lemma InvInitial(c: Config)
    requires ValidConfig(c)
    ensures Inv(c, Initial(c))
  {
    var s := Initial(c);
    RosterInitial(c);
    assert Characters(s.channels) == {};
    assert forall id :: Qualifications(s.channels, id) == {};
  }

  lemma InvServe(c: Config, s: State, peer: nat, i: nat, now: int)
    requires Inv(c, s) && peer in s.links && i < |s.links[peer].requests|
    ensures Inv(c, Serve(c, s, peer, i, now))
  {
    hide Roster, Accounting, Quotas, Streams, Pace;
    var queue := s.links[peer].requests;
    var p := queue[i];
    var s1 := s.(links := s.links[peer := s.links[peer].(requests := queue[..i] + queue[i + 1..])]);
    AccountingServe(c, s, peer, i, now);
    WireServe(c, s, peer, i, now);
    assert QueueLegal(queue);
    RosterFrame(c, s, s1);
    StreamsFrame(c, s, s1);
    PaceSameLinks(c, s, s1);
    ServedInv(c, s1, Serve(c, s, peer, i, now), peer, p, now);
  }

  lemma ServedInv(c: Config, s1: State, s': State, peer: nat, p: Pending, now: int)
    requires ValidConfig(c) && Roster(c, s1) && Streams(s1) && Pace(s1) && Quotas(s1.channels)
    requires peer in s1.links && ValidRequest(p.request, p.id)
    requires var s2 := if p.deadline <= now then s1 else Handle(c, s1, peer, p.request, now).0;
             s' == s2.(replies := s'.replies)
    ensures Roster(c, s') && Streams(s') && Pace(s') && Quotas(s'.channels)
  {
    var s2 := if p.deadline <= now then s1 else Handle(c, s1, peer, p.request, now).0;
    if p.deadline > now {
      RosterHandle(c, s1, peer, p.request, p.id, now);
      StreamsHandle(c, s1, peer, p.request, p.id, now);
      PaceHandle(c, s1, peer, p.request, p.id, now);
      QuotasHandle(c, s1, peer, p.request, now);
    }
    RosterFrame(c, s2, s');
    StreamsFrame(c, s2, s');
    PaceSameLinks(c, s2, s');
  }

  lemma InvSameButCursor(c: Config, s: State, s': State)
    requires Inv(c, s) && s' == s.(nextPeer := s'.nextPeer)
    ensures Inv(c, s')
  {
    hide Roster, Quotas, Streams, Pace;
    RosterFrame(c, s, s');
    StreamsFrame(c, s, s');
    PaceSameLinks(c, s, s');
  }

  lemma {:induction false} InvRounds(c: Config, s: State, served: set<(nat, nat)>, attempt: nat, processed: nat, now: int)
    requires Inv(c, s)
    ensures Inv(c, Rounds(c, s, served, attempt, processed, now))
    decreases REQUESTS_PER_ROUND_MAX * TRANSPORT_CONNECTIONS_MAX - attempt
  {
    hide Inv, Serve, FirstServable, NextPeer;
    if attempt < REQUESTS_PER_ROUND_MAX * TRANSPORT_CONNECTIONS_MAX && processed < REQUESTS_PER_ROUND_MAX && s.links.Keys != {} {
      var peer := NextPeer(s.links.Keys, s.nextPeer);
      var s1 := Advance(s, peer);
      var queue := s.links[peer].requests;
      var i := FirstServable(queue, 0, peer, served, now);
      InvSameButCursor(c, s, s1);
      if i == |queue| {
        InvRounds(c, s1, served, attempt + 1, processed, now);
      } else {
        InvServe(c, s1, peer, i, now);
        InvRounds(c, Serve(c, s1, peer, i, now), Served(served, peer, queue[i], now), attempt + 1, processed + 1, now);
      }
    }
  }

  lemma InvOpened(c: Config, s: State, peer: nat)
    requires Inv(c, s)
    ensures Inv(c, Opened(s, peer).0)
  {
    hide Roster, Accounting, Quotas, Streams, Pace;
    var s' := Opened(s, peer).0;
    AccountingOpened(c, s, peer);
    RosterFrame(c, s, s');
    StreamsFrame(c, s, s');
    PaceSameLinks(c, s, s');
  }

  lemma InvClosed(c: Config, s: State, peer: nat)
    requires Inv(c, s)
    ensures Inv(c, Closed(c, s, peer))
  {
    hide Roster, Accounting, Quotas, Streams, Pace;
    RosterClosed(c, s, peer);
    StreamsClosed(c, s, peer);
    PaceClosed(c, s, peer);
    AccountingClosed(c, s, peer, 0);
    QuotasShrink(s.channels, WithoutMembers(s.channels, peer));
    WithoutRepliesWire(s.replies, peer);
  }

  lemma InvSubmit(c: Config, s: State, peer: nat, request: Request, id: nat, now: int)
    requires Inv(c, s)
    ensures Inv(c, Submit(c, s, peer, request, id, now).0)
  {
    hide Roster, Accounting, Quotas, Streams, Pace, ValidRequest, SendInFlight;
    var s' := Submit(c, s, peer, request, id, now).0;
    AccountingSubmit(c, s, peer, request, id, now);
    RosterFrame(c, s, s');
    StreamsFrame(c, s, s');
    PaceSameLinks(c, s, s');
    assert forall p :: p in s.links ==> QueueLegal(s.links[p].requests);
  }

  lemma InvDrainOne(c: Config, s: State)
    requires Inv(c, s) && s.pushes != []
    ensures Inv(c, DrainOne(c, s))
  {
    hide Roster, Accounting, Quotas, Streams, Pace;
    var s' := DrainOne(c, s);
    AccountingDrainOne(c, s);
    RosterFrame(c, s, s');
    StreamsDrainOne(c, s);
    PaceSameLinks(c, s, s');
  }

  lemma {:induction false} InvDrain(c: Config, s: State, consumed: nat)
    requires Inv(c, s)
    ensures Inv(c, Drain(c, s, consumed))
    decreases PUSHES_PER_ROUND_MAX - consumed
  {
    hide Inv, DrainOne;
    if consumed < PUSHES_PER_ROUND_MAX && s.pushes != [] {
      InvDrainOne(c, s);
      InvDrain(c, DrainOne(c, s), consumed + 1);
    }
  }

  lemma InvOutput(c: Config, s: State, s': State)
    requires Inv(c, s) && (s' == TakeReply(s).0 || s' == TakeClosedPeers(s).0)
    ensures Inv(c, s')
  {
    hide Roster, Quotas, Streams, Pace;
    RosterFrame(c, s, s');
    StreamsFrame(c, s, s');
    PaceSameLinks(c, s, s');
  }

  lemma InvStep(c: Config, s: State, e: Event)
    requires Inv(c, s)
    ensures Inv(c, Step(c, s, e))
  {
    hide Inv, Opened, Closed, Submit, Rounds, TakeReply, Drain, TakeClosedPeers;
    match e
    case EvOpened(peer) => InvOpened(c, s, peer);
    case EvClosed(peer) => InvClosed(c, s, peer);
    case EvSubmit(peer, request, id, now) => InvSubmit(c, s, peer, request, id, now);
    case EvRound(now) => InvRounds(c, s, {}, 0, 0, now);
    case EvTakeReply => InvOutput(c, s, TakeReply(s).0);
    case EvDrain => InvDrain(c, s, 0);
    case EvTakeClosed => InvOutput(c, s, TakeClosedPeers(s).0);
  }

  /** Every reachable state keeps the books, the quotas, the single link, the legality of all
      queued traffic, and the order of every stream. */
  lemma {:induction false} Reachable(c: Config, events: seq<Event>)
    requires ValidConfig(c)
    ensures Inv(c, Run(c, events))
  {
    hide Inv, Step;
    if events == [] {
      InvInitial(c);
    } else {
      Reachable(c, events[..|events| - 1]);
      InvStep(c, Run(c, events[..|events| - 1]), events[|events| - 1]);
    }
  }

  // ---------------------------------------------------------------------------------------
  // What clients and the transport see

  ghost predicate DeliveredInOrder(s: State, shard: nat, id: nat)
    requires Live(s.channels, shard, id)
  {
    var m := s.channels[shard].members[id];
    var k := KeyOf(s.links, m);
    var w := m.state.joinWatermark;
    var d := |Stream(s.delivered, k)|;
    && w + d <= s.channels[shard].sequence
    && Stream(s.delivered, k) == Counters(w, w + d)
    && Stream(s.pushes, k) == Counters(w + d, s.channels[shard].sequence)
  }

  lemma MemberDelivered(s: State, shard: nat, id: nat)
    requires MemberStreams(s) && Live(s.channels, shard, id)
    ensures DeliveredInOrder(s, shard, id)
  {
    var m := s.channels[shard].members[id];
    var k := KeyOf(s.links, m);
    assert MemberStream(s.links, s.delivered + s.pushes, s.log[shard], s.channels[shard].sequence, m);
    hide MemberStreams, Own;
    StreamConcat(s.delivered, s.pushes, k);
    CountersPrefix(m.state.joinWatermark, s.channels[shard].sequence, Stream(s.delivered, k), Stream(s.pushes, k));
  }

  /** In every run, a live member with join watermark `w` has been delivered exactly the
      counters w+1 .. w+d, in order, and what waits for it is exactly w+d+1 .. sequence. */
  lemma GapFreeDelivery(c: Config, events: seq<Event>, shard: nat, id: nat)
    requires ValidConfig(c) && Live(Run(c, events).channels, shard, id)
    ensures DeliveredInOrder(Run(c, events), shard, id)
  {
    hide Run, Roster, Accounting, Quotas, Wire, Records, MemberStreams, Pace, DeliveredInOrder;
    Reachable(c, events);
    MemberDelivered(Run(c, events), shard, id);
  }

  /** One drain hands out at most a round's worth, only to memberships live at that moment. */
  lemma {:induction false} DrainOnlyToMembers(c: Config, s: State, consumed: nat)
    requires consumed <= PUSHES_PER_ROUND_MAX
    ensures var s' := Drain(c, s, consumed);
            && |s.delivered| <= |s'.delivered| <= |s.delivered| + PUSHES_PER_ROUND_MAX - consumed
            && s'.delivered[..|s.delivered|] == s.delivered && s'.channels == s.channels
            && forall n :: |s.delivered| <= n < |s'.delivered| ==>
                 s'.delivered[n] in s.pushes && IsMember(s.channels, s'.delivered[n].peer, s'.delivered[n].membership)
    decreases PUSHES_PER_ROUND_MAX - consumed
  {
    if consumed < PUSHES_PER_ROUND_MAX && s.pushes != [] {
      var s1 := DrainOne(c, s);
      DrainOnlyToMembers(c, s1, consumed + 1);
      var s' := Drain(c, s, consumed);
      assert s' == Drain(c, s1, consumed + 1);
      assert s.delivered == s1.delivered[..|s.delivered|];
      forall n | |s.delivered| <= n < |s'.delivered|
        ensures s'.delivered[n] in s.pushes && IsMember(s.channels, s'.delivered[n].peer, s'.delivered[n].membership)
      {
        if n < |s1.delivered| {
          assert s'.delivered[n] == s'.delivered[..|s1.delivered|][n] == s.pushes[0];
        } else {
          assert s'.delivered[n] in s1.pushes;
        }
      }
    }
  }

  ghost predicate Agree(a: ChatMessage, b: ChatMessage) {
    a.epoch.channel.shardId == b.epoch.channel.shardId && a.channelSeq == b.channelSeq ==>
      a.senderCharacterId == b.senderCharacterId && a.text == b.text
  }

  lemma RecordedAgree(s: State, i: nat, j: nat)
    requires Records(s) && i < |s.delivered| && j < |s.delivered|
    ensures Agree(s.delivered[i].push.message, s.delivered[j].push.message)
  {
    assert Echoes(s.log, s.delivered[i]) && Echoes(s.log, s.delivered[j]);
  }

  /** All recipients agree: in one run, two pushes delivered for the same place in the same
      channel carry the same author and text. */
  lemma SamePlaceSameMessage(c: Config, events: seq<Event>, i: nat, j: nat)
    requires ValidConfig(c) && i < |Run(c, events).delivered| && j < |Run(c, events).delivered|
    ensures Agree(Run(c, events).delivered[i].push.message, Run(c, events).delivered[j].push.message)
  {
    hide Run, Roster, Accounting, Quotas, Wire, Records, MemberStreams, Pace, Agree;
    Reachable(c, events);
    RecordedAgree(Run(c, events), i, j);
  }

  /** In every run, the messages one stay ever had accepted in a channel carry client counters
      1, 2, 3, ..., and between any two of them the bucket bounds how many there are: at most
      burst + rate * elapsed. */
  lemma AcceptancesNumberedAndPaced(c: Config, events: seq<Event>, shard: nat, k: Key)
    requires ValidConfig(c) && shard in Run(c, events).log
    ensures var posts := Run(c, events).log[shard];
            Paced(Times(posts, k)) && Own(posts, k) == Counters(0, |Own(posts, k)|)
  {
    hide Run, Roster, Accounting, Quotas, Wire, Streams, Paced;
    Reachable(c, events);
    assert StayPaced(Run(c, events).log[shard], k);
  }

  /** An accepted answer is the truth: at the receipt's place the channel log holds this stay's
      message with this client counter and this very text.  A repeat of the last accepted
      message changes nothing at all, a new one takes the next counter on both sides, and a
      rejected one leaves log and pushes as they were. */
  ghost predicate AnswerTrue(s: State, s': State, shard: nat, id: nat, request: SendChat, result: SendResult)
    requires Live(s.channels, shard, id)
  {
    var m := s.channels[shard].members[id];
    if result.outcome == OutcomeAccepted then
      && result.receipt.Some? && shard in s'.log && 1 <= result.receipt.value.channelSeq <= |s'.log[shard]|
      && (var post := s'.log[shard][result.receipt.value.channelSeq - 1];
          post.author == KeyOf(s.links, m) && post.clientSendSeq == request.clientSendSeq && post.text == request.text)
      && if request.clientSendSeq == m.state.lastClientSendSeq then s' == s
         else
           && request.clientSendSeq == m.state.lastClientSendSeq + 1
           && result.receipt.value.channelSeq == s.channels[shard].sequence + 1 == |s'.log[shard]|
    else s'.log == s.log && s'.pushes == s.pushes && s'.pushBytes == s.pushBytes
  }

  lemma PostAnswer(c: Config, s: State, shard: nat, id: nat, request: SendChat)
    requires Records(s) && Live(s.channels, shard, id)
    requires request.clientSendSeq == s.channels[shard].members[id].state.lastClientSendSeq + 1
    ensures var (s', result) := Post1(c, s, shard, id, request, BlankResult(request));
            AnswerTrue(s, s', shard, id, request, result)
  {
  }

  lemma ReplayAnswer(s: State, shard: nat, id: nat, request: SendChat)
    requires Live(s.channels, shard, id) && shard in s.log
    requires s.channels[shard].members[id].state.joinWatermark <= s.channels[shard].sequence
    requires StateOk(s.channels[shard].members[id], s.channels[shard])
    requires MemberStream(s.links, s.delivered + s.pushes, s.log[shard], s.channels[shard].sequence, s.channels[shard].members[id])
    requires request.clientSendSeq == s.channels[shard].members[id].state.lastClientSendSeq != 0
    requires request.text == s.channels[shard].members[id].lastText
    ensures AnswerTrue(s, s, shard, id, request, BlankResult(request).(outcome := OutcomeAccepted,
                       receipt := s.channels[shard].members[id].state.lastReceipt))
  {
    hide Stream, Own, Counters;
  }

  lemma SendAnswer(c: Config, s: State, shard: nat, id: nat, request: SendChat, now: int)
    requires Roster(c, s) && Streams(s) && Live(s.channels, shard, id)
    ensures var (s', result) := Send(c, s, shard, id, request, BlankResult(request), now);
            AnswerTrue(s, s', shard, id, request, result)
  {
    hide Roster, Records, StateOk, MemberStream, Post1;
    var m := s.channels[shard].members[id];
    MemberSound(c, s, shard, id);
    var s1 := s.(channels := WithMember(s.channels, shard, id, Refilled(m, now)));
    if request.clientSendSeq == m.state.lastClientSendSeq {
      if request.clientSendSeq != 0 && request.text == m.lastText {
        ReplayAnswer(s, shard, id, request);
      }
    } else if request.clientSendSeq == m.state.lastClientSendSeq + 1 {
      StreamsRefill(c, s, shard, id, now);
      PostAnswer(c, s1, shard, id, request);
      assert KeyOf(s1.links, s1.channels[shard].members[id]) == KeyOf(s.links, m);
    }
  }

  /** In every reachable state, every send is answered truthfully. */
  lemma AcceptedMeansLogged(c: Config, events: seq<Event>, shard: nat, id: nat, request: SendChat, now: int)
    requires ValidConfig(c) && Live(Run(c, events).channels, shard, id)
    ensures var s := Run(c, events);
            var (s', result) := Send(c, s, shard, id, request, BlankResult(request), now);
            AnswerTrue(s, s', shard, id, request, result)
  {
    hide Run, Roster, Accounting, Quotas, Wire, Streams, Pace, Send, AnswerTrue;
    Reachable(c, events);
    SendAnswer(c, Run(c, events), shard, id, request, now);
  }
}
