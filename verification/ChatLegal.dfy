/** Every reply the sequencer builds from a validated request passes the protocol validator. */
module ChatLegal {
  import opened Basics
  import opened ChatProtocol
  import opened ChatSequencer
  import opened ChatRoster

  ghost predicate QueueLegal(queue: seq<Pending>) {
    forall i :: 0 <= i < |queue| ==> ValidRequest(queue[i].request, queue[i].id)
  }

  /** Only validated requests are queued, and only legal replies wait to be taken. */
  ghost predicate Wire(s: State) {
    && (forall p :: p in s.links ==> QueueLegal(s.links[p].requests))
    && (forall i :: 0 <= i < |s.replies| ==> ValidReply(s.replies[i].message, s.replies[i].requestId))
  }

  lemma RefuseLegal(r: Request, id: nat, status: Status)
    requires ValidRequest(r, id) && status != StatusOk && status != StatusUnspecified
    ensures ValidReply(Refuse(r, status), id)
  {
  }

  lemma StateLegal(c: Config, s: State, shard: nat, id: nat, requestId: nat)
    requires Roster(c, s) && Live(s.channels, shard, id) && requestId != 0 && ValidConfig(c)
    ensures var m := s.channels[shard].members[id];
            ValidState(m.state, requestId) && m.state.phase.PhaseActive?
            && m.state.epoch == Some(EpochOf(c, shard)) && m.state.generation == m.membership.generation
  {
    MemberSound(c, s, shard, id);
    assert ChannelOk(c, s.links, shard, s.channels[shard]);
  }

  lemma RejectedLegal(request: SendChat, id: nat, reason: Reason)
    requires ValidSend(request, id)
    requires reason == ReasonWrongEpoch || reason == ReasonSequenceConflict || reason == ReasonCounterExhausted
             || reason == ReasonInvalidSequence || reason == ReasonRateLimited || reason == ReasonResourceLimit
    ensures ValidResult(Rejected(BlankResult(request), reason), id)
  {
  }

  lemma PostLegal(c: Config, s: State, shard: nat, id: nat, request: SendChat, requestId: nat)
    requires Roster(c, s) && ValidConfig(c) && Live(s.channels, shard, id) && ValidSend(request, requestId)
    requires request.expectedEpoch == EpochOf(c, shard) && s.channels[shard].sequence < COUNTER_MAX
    requires request.clientSendSeq == s.channels[shard].members[id].state.lastClientSendSeq + 1
    ensures var result := Post1(c, s, shard, id, request, BlankResult(request)).1;
            ValidResult(result, requestId) && result.generation == request.generation && result.epoch == request.expectedEpoch
  {
    MemberSound(c, s, shard, id);
    RejectedLegal(request, requestId, ReasonResourceLimit);
  }

  lemma ReplayLegal(m: Member, channel: ChannelState, request: SendChat, id: nat)
    requires StateOk(m, channel) && ValidSend(request, id) && request.expectedEpoch == channel.epoch
    requires request.clientSendSeq == m.state.lastClientSendSeq && channel.sequence <= COUNTER_MAX
    ensures ValidResult(BlankResult(request).(outcome := OutcomeAccepted, receipt := m.state.lastReceipt), id)
  {
  }

  lemma SendLegal(c: Config, s: State, shard: nat, id: nat, request: SendChat, requestId: nat, now: int)
    requires Roster(c, s) && ValidConfig(c) && Live(s.channels, shard, id)
    requires ValidSend(request, requestId)
    requires request.expectedEpoch == EpochOf(c, shard)
    ensures var result := Send(c, s, shard, id, request, BlankResult(request), now).1;
            ValidResult(result, requestId) && result.generation == request.generation && result.epoch == request.expectedEpoch
  {
    var m := s.channels[shard].members[id];
    var last := m.state.lastClientSendSeq;
    MemberSound(c, s, shard, id);
    assert ChannelOk(c, s.links, shard, s.channels[shard]);
    if request.clientSendSeq == last {
      RejectedLegal(request, requestId, ReasonSequenceConflict);
      ReplayLegal(m, s.channels[shard], request, requestId);
    } else if last >= COUNTER_MAX || s.channels[shard].sequence >= COUNTER_MAX {
      RejectedLegal(request, requestId, ReasonCounterExhausted);
    } else if request.clientSendSeq != last + 1 {
      RejectedLegal(request, requestId, ReasonInvalidSequence);
    } else if Refilled(m, now).tokens < 1.0 {
      RejectedLegal(request, requestId, ReasonRateLimited);
    } else {
      RefilledBounds(m, now);
      var s1 := s.(channels := WithMember(s.channels, shard, id, Refilled(m, now)));
      RosterUpdate(c, s, s1, shard, id);
      PostLegal(c, s1, shard, id, request, requestId);
    }
  }

  lemma SendOrStateLegal(c: Config, s: State, peer: nat, r: Request, id: nat, now: int)
    requires Roster(c, s) && ValidConfig(c) && HasLink(s.links, peer) && ValidRequest(r, id)
    requires r.operation == OpSend || r.operation == OpState
    requires s.links[peer].link == Some(r.link)
    ensures ValidReply(SendOrState(c, s, peer, r, now).1, id)
  {
    var m := MembershipOf(r);
    var shard := m.channel.shardId;
    if IsMember(s.channels, peer, m) {
      MemberSound(c, s, shard, m.characterId);
      assert LinkOk(c, s.linkGeneration, r.link);
      if r.operation == OpSend {
        SendLegal(c, s, shard, m.characterId, SendOf(r), id, now);
      } else {
        StateLegal(c, s, shard, m.characterId, id);
      }
    } else {
      RefuseLegal(r, id, StatusStaleMembership);
    }
  }

  lemma JoinLegal(c: Config, s: State, peer: nat, r: Request, id: nat, now: int)
    requires Roster(c, s) && ValidConfig(c) && HasLink(s.links, peer) && ValidRequest(r, id)
    requires r.operation == OpJoin
    requires s.links[peer].link == Some(r.link) && MembershipOf(r).channel.shardId in s.channels
    requires s.channels[MembershipOf(r).channel.shardId].epoch.channel == MembershipOf(r).channel
    ensures ValidReply(Join(s, peer, r, now).1, id)
  {
    var m := MembershipOf(r);
    var shard := m.channel.shardId;
    assert LinkOk(c, s.linkGeneration, r.link);
    assert ChannelOk(c, s.links, shard, s.channels[shard]);
    if IsMember(s.channels, peer, m) {
      StateLegal(c, s, shard, m.characterId, id);
    }
  }

  lemma HandleLegal(c: Config, s: State, peer: nat, r: Request, id: nat, now: int)
    requires Roster(c, s) && ValidConfig(c) && peer in s.links && ValidRequest(r, id)
    ensures ValidReply(Handle(c, s, peer, r, now).1, id)
  {
    var shard := MembershipOf(r).channel.shardId;
    if r.link.realmId != c.realmId || r.link.realmInstanceId != c.realmInstanceId || r.link.chatInstanceId != c.instanceId {
      RefuseLegal(r, id, StatusForbidden);
    } else if r.operation == OpHello {
    } else if s.links[peer].link != Some(r.link) {
      RefuseLegal(r, id, StatusStaleLink);
    } else if shard !in s.channels || s.channels[shard].epoch.channel != MembershipOf(r).channel {
      RefuseLegal(r, id, StatusForbidden);
    } else if r.operation == OpLeave {
    } else if r.operation == OpJoin {
      JoinLegal(c, s, peer, r, id, now);
    } else {
      SendOrStateLegal(c, s, peer, r, id, now);
    }
  }

  /** Handling keeps the queues that remain and the replies that were waiting. */
  lemma WireHandle(c: Config, s: State, peer: nat, r: Request, now: int)
    requires Wire(s) && peer in s.links
    ensures Wire(Handle(c, s, peer, r, now).0)
  {
    hide Replace, IsMember, JoinBusy, Reserved, BudgetAllows, Rejected, ValidReply;
    var s' := Handle(c, s, peer, r, now).0;
    if s' != s && r.operation == OpHello {
      WireReplace(c, s, Ascending(Established(s.links) - {peer}));
    }
  }

  lemma {:induction false} WithoutRepliesWire(rs: seq<QueuedReply>, peer: nat)
    requires forall i :: 0 <= i < |rs| ==> ValidReply(rs[i].message, rs[i].requestId)
    ensures forall i :: 0 <= i < |WithoutReplies(rs, peer)| ==>
              ValidReply(WithoutReplies(rs, peer)[i].message, WithoutReplies(rs, peer)[i].requestId)
  {
    if rs != [] {
      WithoutRepliesWire(rs[..|rs| - 1], peer);
    }
  }

  lemma WireReplace(c: Config, s: State, peers: seq<nat>)
    requires Wire(s)
    ensures Wire(Replace(c, s, peers))
  {
    if peers != [] {
      var rest := Replace(c, s, peers[..|peers| - 1]);
      WireReplace(c, s, peers[..|peers| - 1]);
      WithoutRepliesWire(rest.replies, peers[|peers| - 1]);
    }
  }

  lemma WireServe(c: Config, s: State, peer: nat, i: nat, now: int)
    requires Wire(s) && Roster(c, s) && ValidConfig(c) && peer in s.links && i < |s.links[peer].requests|
    ensures Wire(Serve(c, s, peer, i, now))
  {
    hide Roster, Handle;
    var queue := s.links[peer].requests;
    var p := queue[i];
    var s1 := s.(links := s.links[peer := s.links[peer].(requests := queue[..i] + queue[i + 1..])]);
    RosterFrame(c, s, s1);
    if p.deadline <= now {
      RefuseLegal(p.request, p.id, StatusUnavailable);
    } else {
      WireHandle(c, s1, peer, p.request, now);
      HandleLegal(c, s1, peer, p.request, p.id, now);
    }
  }
}
