/** A stay over the whole life of the sequencer, also after it has ended: what was handed out to
    it, and what the replies to it said. */
module ChatStays {
  import opened Basics
  import opened ChatProtocol
  import opened ChatSequencer
  import opened ChatRoster
  import opened ChatAccounting
  import opened ChatLegal
  import opened ChatStreams
  import opened ChatPace
  import opened ChatSafety

  // ---------------------------------------------------------------------------------------
  // How members come and go

  ghost predicate SameMember(s: State, s': State, a: nat, i: nat)
    requires Live(s'.channels, a, i)
  {
    && Live(s.channels, a, i)
    && KeyOf(s'.links, s'.channels[a].members[i]) == KeyOf(s.links, s.channels[a].members[i])
    && s'.channels[a].members[i].state.joinWatermark == s.channels[a].members[i].state.joinWatermark
  }

  /** A stay that is over, or has begun, does not begin again; every member is one from before or
      a stay that could still begin. */
  ghost predicate Evolves(s: State, s': State) {
    && (forall k :: Settled(s.links, s.linkGeneration, k) ==> Settled(s'.links, s'.linkGeneration, k))
    && forall a, i :: Live(s'.channels, a, i) ==>
         SameMember(s, s', a, i) || !Settled(s.links, s.linkGeneration, KeyOf(s'.links, s'.channels[a].members[i]))
  }

  lemma SameLinksKey(s: State, s': State, m: Member)
    requires SameLinks(s.links, s'.links)
    ensures KeyOf(s'.links, m) == KeyOf(s.links, m)
  {
    assert HasLink(s.links, m.peer) <==> HasLink(s'.links, m.peer);
  }

  /** Links stay; members may go or change, but not their key or watermark. */
  lemma EvolvesSameLinks(s: State, s': State)
    requires SameLinks(s.links, s'.links) && s'.linkGeneration == s.linkGeneration
    requires forall a, i :: Live(s'.channels, a, i) ==>
               && Live(s.channels, a, i)
               && s'.channels[a].members[i].peer == s.channels[a].members[i].peer
               && s'.channels[a].members[i].membership == s.channels[a].members[i].membership
               && s'.channels[a].members[i].state.joinWatermark == s.channels[a].members[i].state.joinWatermark
    ensures Evolves(s, s')
  {
    forall a, i | Live(s'.channels, a, i)
      ensures SameMember(s, s', a, i)
    {
      SameLinksKey(s, s', s'.channels[a].members[i]);
      SameLinksKey(s, s', s.channels[a].members[i]);
    }
  }

  lemma EvolvesNothing(s: State, s': State)
    requires s'.channels == s.channels && s'.links == s.links && s'.linkGeneration == s.linkGeneration
    ensures Evolves(s, s')
  {
    EvolvesSameLinks(s, s');
  }

  lemma EvolvesClosed(c: Config, s: State, peer: nat)
    ensures Evolves(s, Closed(c, s, peer))
  {
    WithoutMembersLive(s.channels, peer);
  }

  lemma EvolvesHello(c: Config, s: State, peer: nat, r: Request)
    requires Roster(c, s) && peer in s.links && IsIdentity(c.incarnation) && ValidLink(r.link, true)
    requires r.link.realmId == c.realmId && r.link.realmInstanceId == c.realmInstanceId && r.link.chatInstanceId == c.instanceId
    ensures Evolves(s, Hello(c, s, peer, r).0)
  {
    hide Roster, Replace;
    RosterHello(c, s, peer, r);
  }

  lemma EvolvesJoin(c: Config, s: State, peer: nat, r: Request, now: int)
    requires Roster(c, s) && HasLink(s.links, peer) && MembershipOf(r).channel.shardId in s.channels
    ensures Evolves(s, Join(s, peer, r, now).0)
  {
    hide Roster, JoinBusy;
    var m := MembershipOf(r);
    var s' := Join(s, peer, r, now).0;
    LinkSound(c, s, peer);
    EvolvesSameLinks(s, s);
    if s' != s {
      EvolvesJoined(c, s, s', peer, m.channel.shardId, FreshMember(s.channels[m.channel.shardId], peer, m, now));
    }
  }

  /** A generation above the connection's highest names a stay that could still begin. */
  lemma EvolvesJoined(c: Config, s: State, s': State, peer: nat, shard: nat, joined: Member)
    requires HasLink(s.links, peer) && s.links[peer].link.value.linkGeneration == s.linkGeneration && shard in s.channels
    requires joined.peer == peer && joined.membership.generation > s.links[peer].highestGeneration
    requires SameLinks(s.links, s'.links) && s'.linkGeneration == s.linkGeneration
    requires s'.channels == WithMember(s.channels, shard, joined.membership.characterId, joined)
    ensures Evolves(s, s')
  {
    forall a, i | Live(s'.channels, a, i)
      ensures SameMember(s, s', a, i) || !Settled(s.links, s.linkGeneration, KeyOf(s'.links, s'.channels[a].members[i]))
    {
      SameLinksKey(s, s', s'.channels[a].members[i]);
      if a == shard && i == joined.membership.characterId {
        assert KeyOf(s.links, joined) == Key(peer, s.links[peer].link.value, joined.membership);
      }
    }
  }

  lemma EvolvesMember(s: State, s': State, shard: nat, id: nat, sequence: nat, m: Member)
    requires Live(s.channels, shard, id) && s'.links == s.links && s'.linkGeneration == s.linkGeneration
    requires s'.channels == s.channels[shard := s.channels[shard].(sequence := sequence, members := s.channels[shard].members[id := m])]
    requires var was := s.channels[shard].members[id];
             m.peer == was.peer && m.membership == was.membership && m.state.joinWatermark == was.state.joinWatermark
    ensures Evolves(s, s')
  {
    EvolvesSameLinks(s, s');
  }

  lemma EvolvesSend(c: Config, s: State, shard: nat, id: nat, request: SendChat, result: SendResult, now: int)
    requires Live(s.channels, shard, id)
    ensures Evolves(s, Send(c, s, shard, id, request, result, now).0)
  {
    hide Post1, Rejected, Evolves;
    var s1 := s.(channels := WithMember(s.channels, shard, id, Refilled(s.channels[shard].members[id], now)));
    EvolvesSameLinks(s, s);
    EvolvesMember(s, s1, shard, id, s.channels[shard].sequence, Refilled(s.channels[shard].members[id], now));
    EvolvesPost(c, s1, shard, id, request, result);
    EvolvesTwice(s, s1, Post1(c, s1, shard, id, request, result).0);
  }

  lemma EvolvesPost(c: Config, s: State, shard: nat, id: nat, request: SendChat, result: SendResult)
    requires Live(s.channels, shard, id)
    ensures Evolves(s, Post1(c, s, shard, id, request, result).0)
  {
    hide Reserved, BudgetAllows, Bytes, Rejected, Evolves;
    var s' := Post1(c, s, shard, id, request, result).0;
    EvolvesSameLinks(s, s);
    if s' != s {
      EvolvesMember(s, s', shard, id, s'.channels[shard].sequence, s'.channels[shard].members[id]);
    }
  }

  lemma EvolvesTwice(s: State, s': State, s'': State)
    requires Evolves(s, s') && Evolves(s', s'')
    ensures Evolves(s, s'')
  {
    forall a, i | Live(s''.channels, a, i)
      ensures SameMember(s, s'', a, i) || !Settled(s.links, s.linkGeneration, KeyOf(s''.links, s''.channels[a].members[i]))
    {
      if SameMember(s', s'', a, i) {
        assert SameMember(s, s', a, i) || !Settled(s.links, s.linkGeneration, KeyOf(s'.links, s'.channels[a].members[i]));
      }
    }
  }

  lemma LeaveGeneration(s: State, peer: nat, r: Request)
    requires peer in s.links && MembershipOf(r).channel.shardId in s.channels
    ensures Leave(s, peer, r).0.linkGeneration == s.linkGeneration
  {
  }

  lemma EvolvesHandle(c: Config, s: State, peer: nat, r: Request, id: nat, now: int)
    requires Roster(c, s) && peer in s.links && ValidRequest(r, id) && IsIdentity(c.incarnation)
    ensures Evolves(s, Handle(c, s, peer, r, now).0)
  {
    hide Roster, Hello, Join, Leave, Send, Evolves;
    EvolvesSameLinks(s, s);
    if r.operation == OpHello {
      if r.link.realmId == c.realmId && r.link.realmInstanceId == c.realmInstanceId && r.link.chatInstanceId == c.instanceId {
        EvolvesHello(c, s, peer, r);
      }
    } else if s.links[peer].link == Some(r.link) && MembershipOf(r).channel.shardId in s.channels {
      if r.operation == OpLeave {
        LeaveLive(s, peer, r);
        LeaveGeneration(s, peer, r);
        EvolvesSameLinks(s, Leave(s, peer, r).0);
      } else if r.operation == OpJoin {
        EvolvesJoin(c, s, peer, r, now);
      } else if IsMember(s.channels, peer, MembershipOf(r)) {
        EvolvesSend(c, s, MembershipOf(r).channel.shardId, MembershipOf(r).characterId, SendOf(r), BlankResult(SendOf(r)), now);
      }
    }
  }

  // ---------------------------------------------------------------------------------------
  // The watermark of a stay

  function ReplyKey(q: QueuedReply): Key
    requires q.message.membership.Some?
  {
    Key(q.peer, q.message.link, q.message.membership.value)
  }

  predicate TellsState(q: QueuedReply) { q.message.state.Some? && q.message.membership.Some? }

  ghost predicate MemberPinned(s: State, k: Key, w: nat, a: nat, i: nat) {
    Live(s.channels, a, i) && KeyOf(s.links, s.channels[a].members[i]) == k ==> s.channels[a].members[i].state.joinWatermark == w
  }

  ghost predicate ReplyPinned(q: QueuedReply, k: Key, w: nat) {
    TellsState(q) && ReplyKey(q) == k ==> q.message.state.value.joinWatermark == w
  }

  /** The stay cannot begin again, and wherever it is still a member or told its state, its
      watermark is `w`. */
  ghost predicate Pinned(s: State, k: Key, w: nat) {
    && Settled(s.links, s.linkGeneration, k) && (forall a, i :: MemberPinned(s, k, w, a, i))
    && forall q :: q in s.replies ==> ReplyPinned(q, k, w)
  }

  /** Every state reply that waits names its stay's watermark. */
  ghost predicate RepliesPinned(s: State) {
    forall q :: q in s.replies && TellsState(q) ==> Pinned(s, ReplyKey(q), q.message.state.value.joinWatermark)
  }

  /** What is pinned stays so. */
  ghost predicate KeepsPins(s: State, s': State) { forall k, w :: Pinned(s, k, w) ==> Pinned(s', k, w) }

  /** The reply tells the state of a member as it is. */
  ghost predicate ToldTruly(s: State, q: QueuedReply) {
    TellsState(q) ==>
      var m := q.message.membership.value;
      && IsMember(s.channels, q.peer, m) && LinkOf(s.links, q.peer) == q.message.link
      && s.channels[m.channel.shardId].members[m.characterId].state == q.message.state.value
  }

  lemma PinsKept(s: State, s': State)
    requires Evolves(s, s') && forall q :: q in s'.replies ==> q in s.replies || ToldTruly(s', q)
    ensures KeepsPins(s, s')
  {
    forall k, w | Pinned(s, k, w)
      ensures Pinned(s', k, w)
    {
      forall a, i
        ensures MemberPinned(s', k, w, a, i)
      {
        assert MemberPinned(s, k, w, a, i);
      }
      forall q | q in s'.replies
        ensures ReplyPinned(q, k, w)
      {
        if q !in s.replies && TellsState(q) && ReplyKey(q) == k {
          assert MemberPinned(s', k, w, k.membership.channel.shardId, k.membership.characterId);
        }
      }
    }
  }

  /** A live stay is pinned to its own watermark. */
  lemma LivePinned(c: Config, s: State, shard: nat, id: nat)
    requires Roster(c, s) && Live(s.channels, shard, id)
    requires var k := KeyOf(s.links, s.channels[shard].members[id]);
             forall q :: q in s.replies && TellsState(q) && ReplyKey(q) == k ==>
               ToldTruly(s, q) || Pinned(s, k, q.message.state.value.joinWatermark)
    ensures Pinned(s, KeyOf(s.links, s.channels[shard].members[id]), s.channels[shard].members[id].state.joinWatermark)
  {
    var m := s.channels[shard].members[id];
    var k, w := KeyOf(s.links, m), m.state.joinWatermark;
    AuthorSettled(c, s, shard, id);
    MemberSound(c, s, shard, id);
    hide Roster, Settled;
    forall a, i
      ensures MemberPinned(s, k, w, a, i)
    {
      if Live(s.channels, a, i) {
        MemberSound(c, s, a, i);
      }
    }
    forall q | q in s.replies
      ensures ReplyPinned(q, k, w)
    {
      if TellsState(q) && ReplyKey(q) == k && !ToldTruly(s, q) {
        assert MemberPinned(s, k, q.message.state.value.joinWatermark, shard, id);
      }
    }
  }

  lemma RepliesKept(c: Config, s: State, s': State)
    requires Roster(c, s') && RepliesPinned(s) && KeepsPins(s, s')
    requires forall q :: q in s'.replies ==> q in s.replies || ToldTruly(s', q)
    ensures RepliesPinned(s')
  {
    hide Roster, Pinned;
    forall q | q in s'.replies && TellsState(q)
      ensures Pinned(s', ReplyKey(q), q.message.state.value.joinWatermark)
    {
      if q !in s.replies {
        var m := q.message.membership.value;
        LivePinned(c, s', m.channel.shardId, m.characterId);
      }
    }
  }

  // ---------------------------------------------------------------------------------------
  // Every operation

  /** What an operation keeps of every stay. */
  ghost predicate Holds(c: Config, s: State, s': State) {
    Inv(c, s') && RepliesPinned(s') && KeepsPins(s, s') && s'.delivered == s.delivered
  }

  lemma HoldsFrom(c: Config, s: State, s': State)
    requires Inv(c, s') && RepliesPinned(s) && Evolves(s, s') && s'.delivered == s.delivered
    requires forall q :: q in s'.replies ==> q in s.replies || ToldTruly(s', q)
    ensures Holds(c, s, s')
  {
    hide Roster, Accounting, Quotas, Wire, Streams, Pace, Evolves, KeepsPins, RepliesPinned, ToldTruly;
    PinsKept(s, s');
    RepliesKept(c, s, s');
  }

  lemma {:induction false} FewerReplies(rs: seq<QueuedReply>, peer: nat)
    ensures forall q :: q in WithoutReplies(rs, peer) ==> q in rs
  {
    if rs != [] {
      FewerReplies(rs[..|rs| - 1], peer);
    }
  }

  lemma {:induction false} ReplaceKeeps(c: Config, s: State, peers: seq<nat>)
    ensures Replace(c, s, peers).delivered == s.delivered && forall q :: q in Replace(c, s, peers).replies ==> q in s.replies
  {
    if peers != [] {
      ReplaceKeeps(c, s, peers[..|peers| - 1]);
      FewerReplies(Replace(c, s, peers[..|peers| - 1]).replies, peers[|peers| - 1]);
    }
  }

  lemma HandleKeeps(c: Config, s: State, peer: nat, r: Request, now: int)
    requires peer in s.links
    ensures var s' := Handle(c, s, peer, r, now).0;
            s'.delivered == s.delivered && forall q :: q in s'.replies ==> q in s.replies
  {
    hide Replace, IsMember, JoinBusy, Reserved, BudgetAllows, Rejected;
    ReplaceKeeps(c, s, Ascending(Established(s.links) - {peer}));
  }

  /** Join and state replies tell the state of the membership they name, over its own link. */
  lemma HandleTells(c: Config, s: State, peer: nat, r: Request, now: int, id: nat)
    requires peer in s.links
    ensures var (s', reply) := Handle(c, s, peer, r, now); ToldTruly(s', QueuedReply(peer, id, reply))
  {
    hide Replace, JoinBusy, Send;
  }

  /** Taking a request off its queue, and that request is a valid one. */
  lemma Dequeued(c: Config, s: State, s1: State, peer: nat, i: nat)
    requires Inv(c, s) && peer in s.links && i < |s.links[peer].requests|
    requires s1.linkGeneration == s.linkGeneration && s1.channels == s.channels && s1.links.Keys == s.links.Keys
    requires s1.links == s.links[peer := s.links[peer].(requests := s1.links[peer].requests)]
    ensures var p := s.links[peer].requests[i]; Roster(c, s1) && ValidRequest(p.request, p.id) && IsIdentity(c.incarnation)
    ensures Evolves(s, s1)
  {
    hide Roster, Accounting, Quotas, Streams, Pace, ValidRequest, Evolves;
    RosterFrame(c, s, s1);
    EvolvesSameLinks(s, s1);
    assert QueueLegal(s.links[peer].requests);
  }

  lemma Answered(c: Config, s: State, peer: nat, p: Pending, now: int)
    requires Roster(c, s) && peer in s.links && ValidRequest(p.request, p.id) && IsIdentity(c.incarnation)
    ensures var (s', reply) := if p.deadline <= now then (s, Refuse(p.request, StatusUnavailable)) else Handle(c, s, peer, p.request, now);
            && Evolves(s, s') && s'.delivered == s.delivered && (forall q :: q in s'.replies ==> q in s.replies)
            && ToldTruly(s', QueuedReply(peer, p.id, reply))
  {
    hide Roster, ValidRequest, Handle, Evolves;
    EvolvesSameLinks(s, s);
    if p.deadline > now {
      EvolvesHandle(c, s, peer, p.request, p.id, now);
      HandleKeeps(c, s, peer, p.request, now);
      HandleTells(c, s, peer, p.request, now, p.id);
    }
  }

  lemma HoldsServe(c: Config, s: State, peer: nat, i: nat, now: int)
    requires Inv(c, s) && RepliesPinned(s) && peer in s.links && i < |s.links[peer].requests|
    ensures Holds(c, s, Serve(c, s, peer, i, now))
  {
    hide Inv, Roster, Handle, ValidRequest, Holds, RepliesPinned, ToldTruly, Evolves;
    var queue := s.links[peer].requests;
    var p := queue[i];
    var s1 := s.(links := s.links[peer := s.links[peer].(requests := queue[..i] + queue[i + 1..])]);
    var (s2, reply) := if p.deadline <= now then (s1, Refuse(p.request, StatusUnavailable)) else Handle(c, s1, peer, p.request, now);
    InvServe(c, s, peer, i, now);
    Dequeued(c, s, s1, peer, i);
    Answered(c, s1, peer, p, now);
    ServedHolds(c, s, s1, s2, Serve(c, s, peer, i, now), QueuedReply(peer, p.id, reply));
  }

  lemma ServedHolds(c: Config, s: State, s1: State, s2: State, s': State, q: QueuedReply)
    requires Inv(c, s') && RepliesPinned(s) && Evolves(s, s1) && Evolves(s1, s2) && s2.delivered == s.delivered
    requires s' == s2.(replies := s2.replies + [q]) && (forall r :: r in s2.replies ==> r in s.replies) && ToldTruly(s2, q)
    ensures Holds(c, s, s')
  {
    ToldSame(s2, s', q);
    hide Inv, Evolves, Holds, RepliesPinned, ToldTruly;
    EvolvesNothing(s2, s');
    EvolvesTwice(s, s1, s2);
    EvolvesTwice(s, s2, s');
    HoldsFrom(c, s, s');
  }

  lemma ToldSame(s: State, s': State, q: QueuedReply)
    requires ToldTruly(s, q) && s'.channels == s.channels && s'.links == s.links
    ensures ToldTruly(s', q)
  {
  }

  lemma {:induction false} HoldsRounds(c: Config, s: State, served: set<(nat, nat)>, attempt: nat, processed: nat, now: int)
    requires Inv(c, s) && RepliesPinned(s)
    ensures Holds(c, s, Rounds(c, s, served, attempt, processed, now))
    decreases REQUESTS_PER_ROUND_MAX * TRANSPORT_CONNECTIONS_MAX - attempt
  {
    hide Inv, RepliesPinned, KeepsPins, Serve, FirstServable, NextPeer;
    if attempt < REQUESTS_PER_ROUND_MAX * TRANSPORT_CONNECTIONS_MAX && processed < REQUESTS_PER_ROUND_MAX && s.links.Keys != {} {
      var peer := NextPeer(s.links.Keys, s.nextPeer);
      var s1 := Advance(s, peer);
      var queue := s.links[peer].requests;
      var i := FirstServable(queue, 0, peer, served, now);
      InvSameButCursor(c, s, s1);
      HoldsQuietly(c, s, s1);
      if i == |queue| {
        HoldsRounds(c, s1, served, attempt + 1, processed, now);
        HoldsTwice(c, s, s1, Rounds(c, s1, served, attempt + 1, processed, now));
      } else {
        var s2 := Serve(c, s1, peer, i, now);
        HoldsServe(c, s1, peer, i, now);
        HoldsRounds(c, s2, Served(served, peer, queue[i], now), attempt + 1, processed + 1, now);
        HoldsTwice(c, s, s1, s2);
        HoldsTwice(c, s, s2, Rounds(c, s2, Served(served, peer, queue[i], now), attempt + 1, processed + 1, now));
      }
    } else {
      HoldsQuietly(c, s, s);
    }
  }

  lemma HoldsTwice(c: Config, s: State, s': State, s'': State)
    requires Holds(c, s, s') && Holds(c, s', s'')
    ensures Holds(c, s, s'')
  {
    hide Inv, RepliesPinned, Pinned;
  }

  /** What leaves members, links and deliveries alone and answers nothing. */
  lemma HoldsQuietly(c: Config, s: State, s': State)
    requires Inv(c, s') && RepliesPinned(s) && s'.delivered == s.delivered
    requires s'.channels == s.channels && SameLinks(s.links, s'.links) && s'.linkGeneration == s.linkGeneration
    requires forall q :: q in s'.replies ==> q in s.replies
    ensures Holds(c, s, s')
  {
    hide Inv, RepliesPinned, Holds, Evolves;
    EvolvesSameLinks(s, s');
    HoldsFrom(c, s, s');
  }

  lemma QuietStep(c: Config, s: State, e: Event)
    requires !e.EvRound? && !e.EvClosed? && !e.EvDrain?
    ensures var s' := Step(c, s, e);
            && s'.delivered == s.delivered && s'.channels == s.channels && SameLinks(s.links, s'.links)
            && s'.linkGeneration == s.linkGeneration && forall q :: q in s'.replies ==> q in s.replies
  {
    match e
    case EvSubmit(peer, request, id, now) => QuietSubmit(c, s, peer, request, id, now);
    case _ =>
  }

  lemma QuietSubmit(c: Config, s: State, peer: nat, request: Request, id: nat, now: int)
    ensures var s' := Submit(c, s, peer, request, id, now).0;
            SameLinks(s.links, s'.links) && s' == s.(links := s'.links, pending := s'.pending)
  {
    hide ValidRequest, SendInFlight;
  }

  lemma HoldsClosed(c: Config, s: State, peer: nat)
    requires Inv(c, Closed(c, s, peer)) && RepliesPinned(s)
    ensures Holds(c, s, Closed(c, s, peer))
  {
    EvolvesClosed(c, s, peer);
    FewerReplies(s.replies, peer);
    hide Inv, RepliesPinned, Holds, Evolves, ToldTruly;
    HoldsFrom(c, s, Closed(c, s, peer));
  }

  /** Every event but a drain. */
  lemma HoldsStep(c: Config, s: State, e: Event)
    requires Inv(c, s) && RepliesPinned(s) && !e.EvDrain?
    ensures Holds(c, s, Step(c, s, e))
  {
    hide Inv, RepliesPinned, Holds, Rounds, SameLinks;
    InvStep(c, s, e);
    match e
    case EvRound(now) => HoldsRounds(c, s, {}, 0, 0, now);
    case EvClosed(peer) => HoldsClosed(c, s, peer);
    case _ =>
      hide Step;
      QuietStep(c, s, e);
      HoldsQuietly(c, s, Step(c, s, e));
  }

  // ---------------------------------------------------------------------------------------
  // What was handed out

  /** The stay has been handed w+1, w+2, ... as far as it got. */
  ghost predicate Handed(s: State, k: Key, w: nat) {
    Pinned(s, k, w) && Stream(s.delivered, k) == Counters(w, w + |Stream(s.delivered, k)|)
  }

  lemma {:induction false} DrainKeeps(c: Config, s: State, consumed: nat)
    ensures var s' := Drain(c, s, consumed);
            s'.channels == s.channels && s'.links == s.links && s'.replies == s.replies && s'.linkGeneration == s.linkGeneration
    decreases PUSHES_PER_ROUND_MAX - consumed
  {
    if consumed < PUSHES_PER_ROUND_MAX && s.pushes != [] {
      DrainKeeps(c, DrainOne(c, s), consumed + 1);
    }
  }

  /** A push goes to the stay that is a member now: its link is the established one. */
  lemma DrainedIsLive(c: Config, s: State, n: nat)
    requires Inv(c, s) && |s.delivered| <= n < |Drain(c, s, 0).delivered|
    ensures var e := Drain(c, s, 0).delivered[n];
            var m := e.membership;
            && Live(s.channels, m.channel.shardId, m.characterId)
            && KeyOf(s.links, s.channels[m.channel.shardId].members[m.characterId]) == PushKey(e)
  {
    hide Roster, Accounting, Quotas, Wire, MemberStreams, Pace, Drain;
    DrainOnlyToMembers(c, s, 0);
    var e := Drain(c, s, 0).delivered[n];
    var i :| 0 <= i < |s.pushes| && s.pushes[i] == e;
    assert PushOk(s.links, s.log, s.pushes[i]);
  }

  /** A stay that is not a member is handed nothing more. */
  lemma GoneGetsNothing(c: Config, s: State, k: Key)
    requires Inv(c, s) && forall a, i :: Live(s.channels, a, i) ==> KeyOf(s.links, s.channels[a].members[i]) != k
    ensures Stream(Drain(c, s, 0).delivered, k) == Stream(s.delivered, k)
  {
    hide Inv, Drain;
    DrainOnlyToMembers(c, s, 0);
    var all, before := Drain(c, s, 0).delivered, s.delivered;
    var added := all[|before|..];
    assert all == before + added;
    StreamConcat(before, added, k);
    forall n | 0 <= n < |added|
      ensures PushKey(added[n]) != k
    {
      DrainedIsLive(c, s, |before| + n);
    }
    StreamNone(added, k);
  }

  lemma HandedDrain(c: Config, s: State, k: Key, w: nat)
    requires Inv(c, s) && RepliesPinned(s) && Handed(s, k, w)
    ensures Handed(Drain(c, s, 0), k, w) && RepliesPinned(Drain(c, s, 0))
  {
    hide Inv, Drain, Pinned, RepliesPinned, Stream;
    var s' := Drain(c, s, 0);
    InvDrain(c, s, 0);
    DrainKeeps(c, s, 0);
    PinnedSame(s, s');
    if a, i :| Live(s.channels, a, i) && KeyOf(s.links, s.channels[a].members[i]) == k {
      LiveHanded(c, s', k, w, a, i);
    } else {
      GoneGetsNothing(c, s, k);
    }
  }

  lemma LiveHanded(c: Config, s: State, k: Key, w: nat, a: nat, i: nat)
    requires Inv(c, s) && Pinned(s, k, w) && Live(s.channels, a, i) && KeyOf(s.links, s.channels[a].members[i]) == k
    ensures Handed(s, k, w)
  {
    hide Inv, MemberStreams, Settled, Stream, Counters;
    InvParts(c, s);
    MemberDelivered(s, a, i);
    assert MemberPinned(s, k, w, a, i);
  }

  lemma InvParts(c: Config, s: State)
    requires Inv(c, s)
    ensures Roster(c, s) && Records(s) && MemberStreams(s) && Wire(s)
  {
  }

  lemma PinnedSame(s: State, s': State)
    requires s'.channels == s.channels && s'.links == s.links && s'.replies == s.replies && s'.linkGeneration == s.linkGeneration
    ensures KeepsPins(s, s') && (RepliesPinned(s) ==> RepliesPinned(s'))
  {
    forall k, w | Pinned(s, k, w)
      ensures Pinned(s', k, w)
    {
      forall a, i ensures MemberPinned(s', k, w, a, i) { assert MemberPinned(s, k, w, a, i); }
    }
  }

  // ---------------------------------------------------------------------------------------
  // Over whole runs

  lemma {:induction false} RepliesReachable(c: Config, events: seq<Event>)
    requires ValidConfig(c)
    ensures Inv(c, Run(c, events)) && RepliesPinned(Run(c, events))
  {
    hide Inv, RepliesPinned, Step;
    if events == [] {
      Reachable(c, events);
      NoReplies(c);
    } else {
      var s, e := Run(c, events[..|events| - 1]), events[|events| - 1];
      RepliesReachable(c, events[..|events| - 1]);
      if e.EvDrain? {
        InvStep(c, s, e);
        DrainStep(c, s, e);
      } else {
        HoldsStep(c, s, e);
      }
    }
  }

  lemma NoReplies(c: Config)
    ensures RepliesPinned(Initial(c))
  {
  }

  lemma DrainStep(c: Config, s: State, e: Event)
    requires e.EvDrain?
    ensures Step(c, s, e) == Drain(c, s, 0) && KeepsPins(s, Step(c, s, e)) && (RepliesPinned(s) ==> RepliesPinned(Step(c, s, e)))
  {
    hide Drain, KeepsPins, RepliesPinned;
    DrainKeeps(c, s, 0);
    PinnedSame(s, Drain(c, s, 0));
  }

  /** Nothing later in the run changes what a stay was told or handed first. */
  lemma {:induction false} PinnedLater(c: Config, events: seq<Event>, n: nat, k: Key, w: nat)
    requires ValidConfig(c) && n <= |events| && Pinned(Run(c, events[..n]), k, w)
    ensures Pinned(Run(c, events), k, w)
    ensures Handed(Run(c, events[..n]), k, w) ==> Handed(Run(c, events), k, w)
  {
    hide Inv, RepliesPinned, Pinned, Stream, Step;
    if n == |events| {
      assert events[..n] == events;
    } else {
      var rest := events[..|events| - 1];
      var s, e := Run(c, rest), events[|events| - 1];
      assert rest[..n] == events[..n];
      PinnedLater(c, rest, n, k, w);
      RepliesReachable(c, rest);
      if e.EvDrain? {
        DrainStep(c, s, e);
        if Handed(s, k, w) {
          HandedDrain(c, s, k, w);
        }
      } else {
        HoldsStep(c, s, e);
      }
    }
  }

  /** At any point of a run, the stay of a live member is handed its due, and pinned. */
  lemma LiveAt(c: Config, events: seq<Event>, shard: nat, id: nat)
    requires ValidConfig(c) && Live(Run(c, events).channels, shard, id)
    ensures var s := Run(c, events);
            var m := s.channels[shard].members[id];
            Handed(s, KeyOf(s.links, m), m.state.joinWatermark)
  {
    hide Run, Inv, RepliesPinned, Pinned, ToldTruly, Settled, Stream;
    RepliesReachable(c, events);
    var s := Run(c, events);
    var k := KeyOf(s.links, s.channels[shard].members[id]);
    InvParts(c, s);
    assert forall q :: q in s.replies && TellsState(q) && ReplyKey(q) == k ==> Pinned(s, k, q.message.state.value.joinWatermark) by {
      ReplyPinnedHere(s);
    }
    LivePinned(c, s, shard, id);
    LiveHanded(c, s, k, s.channels[shard].members[id].state.joinWatermark, shard, id);
  }

  lemma ReplyPinnedHere(s: State)
    requires RepliesPinned(s)
    ensures forall q :: q in s.replies && TellsState(q) ==> Pinned(s, ReplyKey(q), q.message.state.value.joinWatermark)
  {
  }

  /** Whatever a stay was handed in a run, live or long over, is w+1, w+2, ... without a gap,
      where w is the watermark it joined at. */
  lemma StayHandedInOrder(c: Config, events: seq<Event>, n: nat, shard: nat, id: nat)
    requires ValidConfig(c) && n <= |events| && Live(Run(c, events[..n]).channels, shard, id)
    ensures var was := Run(c, events[..n]);
            var m := was.channels[shard].members[id];
            var got := Stream(Run(c, events).delivered, KeyOf(was.links, m));
            got == Counters(m.state.joinWatermark, m.state.joinWatermark + |got|)
  {
    hide Run, Pinned, Stream;
    LiveAt(c, events[..n], shard, id);
    var was := Run(c, events[..n]);
    var m := was.channels[shard].members[id];
    PinnedLater(c, events, n, KeyOf(was.links, m), m.state.joinWatermark);
  }

  ghost predicate LiveOnce(c: Config, events: seq<Event>, n: nat, shard: nat, id: nat, k: Key)
    requires n <= |events|
  {
    var s := Run(c, events[..n]); Live(s.channels, shard, id) && KeyOf(s.links, s.channels[shard].members[id]) == k
  }

  ghost predicate WasLive(c: Config, events: seq<Event>, k: Key) {
    exists n, shard, id :: 0 <= n <= |events| && LiveOnce(c, events, n, shard, id, k)
  }

  lemma WasLiveLater(c: Config, events: seq<Event>, k: Key)
    requires events != [] && WasLive(c, events[..|events| - 1], k)
    ensures WasLive(c, events, k)
  {
    hide Run;
    var rest := events[..|events| - 1];
    var n, shard, id :| 0 <= n <= |rest| && LiveOnce(c, rest, n, shard, id, k);
    assert rest[..n] == events[..n];
    assert LiveOnce(c, events, n, shard, id, k);
  }

  lemma RunLast(c: Config, events: seq<Event>)
    requires events != []
    ensures Run(c, events) == Step(c, Run(c, events[..|events| - 1]), events[|events| - 1])
  {
    hide Step;
  }

  lemma DrainedWasLive(c: Config, events: seq<Event>, j: nat)
    requires ValidConfig(c) && events != [] && events[|events| - 1].EvDrain?
    requires |Run(c, events[..|events| - 1]).delivered| <= j < |Run(c, events).delivered|
    ensures WasLive(c, events, PushKey(Run(c, events).delivered[j]))
  {
    hide Inv, RepliesPinned, KeepsPins, Drain, Step, Run, Live, KeyOf, PushKey, LiveOnce, WasLive;
    var rest := events[..|events| - 1];
    var s, e := Run(c, rest), events[|events| - 1];
    RunLast(c, events);
    RepliesReachable(c, rest);
    DrainStep(c, s, e);
    DrainedIsLive(c, s, j);
    var m := Drain(c, s, 0).delivered[j].membership;
    IsLive(c, events, |rest|, m.channel.shardId, m.characterId);
  }

  lemma IsLive(c: Config, events: seq<Event>, n: nat, shard: nat, id: nat)
    requires n <= |events| && Live(Run(c, events[..n]).channels, shard, id)
    ensures var s := Run(c, events[..n]); WasLive(c, events, KeyOf(s.links, s.channels[shard].members[id]))
  {
    hide Run;
    var s := Run(c, events[..n]);
    assert LiveOnce(c, events, n, shard, id, KeyOf(s.links, s.channels[shard].members[id]));
  }

  /** And nothing is ever handed to anything but such a stay. */
  lemma {:induction false} HandedOnlyToStays(c: Config, events: seq<Event>, j: nat)
    requires ValidConfig(c) && j < |Run(c, events).delivered|
    ensures WasLive(c, events, PushKey(Run(c, events).delivered[j]))
  {
    hide Inv, RepliesPinned, Step, WasLive;
    if events != [] {
      var rest := events[..|events| - 1];
      var s, e := Run(c, rest), events[|events| - 1];
      if e.EvDrain? && |s.delivered| <= j {
        DrainedWasLive(c, events, j);
      } else {
        RepliesReachable(c, rest);
        EarlierDelivery(c, s, e, j);
        HandedOnlyToStays(c, rest, j);
        WasLiveLater(c, events, PushKey(s.delivered[j]));
      }
    }
  }

  lemma EarlierDelivery(c: Config, s: State, e: Event, j: nat)
    requires Inv(c, s) && RepliesPinned(s) && j < |Step(c, s, e).delivered| && (e.EvDrain? ==> j < |s.delivered|)
    ensures j < |s.delivered| && Step(c, s, e).delivered[j] == s.delivered[j]
  {
    hide Inv, RepliesPinned, KeepsPins, Drain, Step;
    if e.EvDrain? {
      DrainStep(c, s, e);
      DrainOnlyToMembers(c, s, 0);
      assert Drain(c, s, 0).delivered[..|s.delivered|][j] == Drain(c, s, 0).delivered[j];
    } else {
      HoldsStep(c, s, e);
    }
  }

  /** Every reply that tells a stay its state, at any time, before or after, names the stay's own
      generation, epoch and join watermark. */
  lemma RepliesNameTheStay(c: Config, events: seq<Event>, n: nat, shard: nat, id: nat, m: nat, q: QueuedReply)
    requires ValidConfig(c) && n <= |events| && m <= |events| && Live(Run(c, events[..n]).channels, shard, id)
    requires var s := Run(c, events[..n]);
             && q in Run(c, events[..m]).replies && TellsState(q)
             && ReplyKey(q) == KeyOf(s.links, s.channels[shard].members[id])
    ensures var s := Run(c, events[..n]);
            var own, told := s.channels[shard].members[id].state, q.message.state.value;
            && told.phase.PhaseActive? && told.kind == own.kind && told.generation == own.generation
            && told.epoch == own.epoch == Some(EpochOf(c, shard)) && told.joinWatermark == own.joinWatermark
  {
    hide Run, Inv, Pinned, RepliesPinned, Stream;
    var s, t := Run(c, events[..n]), Run(c, events[..m]);
    var k, w := KeyOf(s.links, s.channels[shard].members[id]), s.channels[shard].members[id].state.joinWatermark;
    if m <= n {
      RepliesReachable(c, events[..m]);
      ReplyPinnedHere(t);
      assert events[..n][..m] == events[..m];
      PinnedLater(c, events[..n], m, k, q.message.state.value.joinWatermark);
      PinnedMember(s, k, q.message.state.value.joinWatermark, shard, id);
    } else {
      LiveAt(c, events[..n], shard, id);
      assert events[..m][..n] == events[..n];
      PinnedLater(c, events[..m], n, k, w);
      PinnedReply(t, k, w, q);
    }
    RepliesReachable(c, events[..m]);
    RepliesReachable(c, events[..n]);
    ReplyTells(c, s, t, shard, id, q);
  }

  lemma PinnedMember(s: State, k: Key, w: nat, a: nat, i: nat)
    requires Pinned(s, k, w)
    ensures MemberPinned(s, k, w, a, i)
  {
  }

  lemma PinnedReply(s: State, k: Key, w: nat, q: QueuedReply)
    requires Pinned(s, k, w) && q in s.replies
    ensures ReplyPinned(q, k, w)
  {
  }

  lemma ReplyTells(c: Config, s: State, t: State, shard: nat, id: nat, q: QueuedReply)
    requires Inv(c, s) && Inv(c, t) && Live(s.channels, shard, id) && q in t.replies && TellsState(q)
    requires ReplyKey(q) == KeyOf(s.links, s.channels[shard].members[id])
    ensures var own, told := s.channels[shard].members[id].state, q.message.state.value;
            && told.phase.PhaseActive? && told.kind == own.kind && told.generation == own.generation
            && told.epoch == own.epoch == Some(EpochOf(c, shard))
  {
    hide Inv, Roster, Wire;
    InvParts(c, s);
    InvParts(c, t);
    KeyTells(c, s, shard, id);
    ReplyValid(t, q);
  }

  lemma KeyTells(c: Config, s: State, shard: nat, id: nat)
    requires Roster(c, s) && Live(s.channels, shard, id)
    ensures var m := s.channels[shard].members[id];
            && EpochOf(c, shard) == Epoch(m.membership.channel, LinkOf(s.links, m.peer).chatIncarnation)
            && m.state.epoch == Some(EpochOf(c, shard)) && m.state.kind == m.membership.channel.kind
            && m.state.generation == m.membership.generation
  {
    hide Roster;
    MemberSound(c, s, shard, id);
    LinkSound(c, s, s.channels[shard].members[id].peer);
  }

  lemma LinkSound(c: Config, s: State, peer: nat)
    requires Roster(c, s) && HasLink(s.links, peer)
    ensures LinkOk(c, s.linkGeneration, s.links[peer].link.value)
  {
  }

  lemma ReplyValid(s: State, q: QueuedReply)
    requires Wire(s) && q in s.replies && TellsState(q)
    ensures var told, m := q.message.state.value, q.message.membership.value;
            && told.phase.PhaseActive? && told.kind == m.channel.kind && told.generation == m.generation
            && told.epoch == Some(Epoch(m.channel, q.message.link.chatIncarnation))
  {
    assert ValidReply(q.message, q.requestId);
  }
}
