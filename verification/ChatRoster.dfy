/** Who may be a member: at most one established link, which owns every member; live
    generations are distinct; each member's stored state is a legal answer. */
module ChatRoster {
  import opened Basics
  import opened ChatProtocol
  import opened ChatSequencer

  ghost predicate LinkOk(c: Config, generation: nat, l: Link) {
    && ValidLink(l, false) && l.realmId == c.realmId && l.realmInstanceId == c.realmInstanceId
    && l.chatInstanceId == c.instanceId && l.chatIncarnation == c.incarnation && l.linkGeneration == generation
  }

  ghost predicate HasLink(links: map<nat, LinkState>, peer: nat) { peer in links && links[peer].link.Some? }

  /** At most one link is established, and it carries the current link generation. */
  ghost predicate LinksOk(c: Config, links: map<nat, LinkState>, generation: nat) {
    && generation <= COUNTER_MAX
    && (forall p :: HasLink(links, p) ==> LinkOk(c, generation, links[p].link.value))
    && (forall p, q :: HasLink(links, p) && HasLink(links, q) ==> p == q)
  }

  ghost predicate StateOk(m: Member, channel: ChannelState) {
    var st := m.state;
    && st.kind == channel.epoch.channel.kind && st.phase == PhaseActive && st.generation == m.membership.generation
    && st.epoch == Some(channel.epoch) && st.reason == ReasonNone
    && st.joinWatermark <= channel.sequence && 0.0 <= m.tokens <= SEND_BURST
    && if st.lastClientSendSeq == 0 then st.lastReceipt == None
       else
         && st.lastReceipt.Some? && st.lastReceipt.value.epoch == channel.epoch
         && st.lastReceipt.value.clientSendSeq == st.lastClientSendSeq
         && st.joinWatermark < st.lastReceipt.value.channelSeq <= channel.sequence
         && st.lastClientSendSeq <= st.lastReceipt.value.channelSeq - st.joinWatermark
  }

  ghost predicate MemberOk(links: map<nat, LinkState>, channel: ChannelState, id: nat, m: Member) {
    && m.membership.characterId == id && m.membership.channel == channel.epoch.channel
    && ValidMembership(m.membership) && HasLink(links, m.peer)
    && m.membership.realmIncarnation == links[m.peer].link.value.realmIncarnation
    && m.membership.generation <= links[m.peer].highestGeneration
    && StateOk(m, channel)
  }

  ghost predicate ChannelOk(c: Config, links: map<nat, LinkState>, shard: nat, channel: ChannelState) {
    && channel.epoch == EpochOf(c, shard) && channel.sequence <= COUNTER_MAX
    && forall id :: id in channel.members ==> MemberOk(links, channel, id, channel.members[id])
  }

  ghost predicate SameGeneration(channels: map<nat, ChannelState>, a: nat, i: nat, b: nat, j: nat) {
    && Live(channels, a, i) && Live(channels, b, j)
    && channels[a].members[i].membership.generation == channels[b].members[j].membership.generation
  }

  ghost predicate DistinctGenerations(channels: map<nat, ChannelState>) {
    forall a, i, b, j :: SameGeneration(channels, a, i, b, j) ==> a == b && i == j
  }

  ghost predicate Roster(c: Config, s: State) {
    && s.channels.Keys == c.shards
    && LinksOk(c, s.links, s.linkGeneration)
    && (forall shard :: shard in s.channels ==> ChannelOk(c, s.links, shard, s.channels[shard]))
    && DistinctGenerations(s.channels)
  }

  /** The established links are the same; their watermark of generations may only rise. */
  ghost predicate SameLinks(a: map<nat, LinkState>, b: map<nat, LinkState>) {
    forall p :: HasLink(a, p) || HasLink(b, p) ==>
      HasLink(a, p) && HasLink(b, p) && a[p].link == b[p].link && a[p].highestGeneration <= b[p].highestGeneration
  }

  lemma RosterFrame(c: Config, s: State, s': State)
    requires Roster(c, s) && s'.channels == s.channels && s'.linkGeneration == s.linkGeneration
    requires SameLinks(s.links, s'.links)
    ensures Roster(c, s')
  {
    forall shard | shard in s.channels
      ensures ChannelOk(c, s'.links, shard, s'.channels[shard])
    {
      assert ChannelOk(c, s.links, shard, s.channels[shard]);
      forall id | id in s.channels[shard].members
        ensures MemberOk(s'.links, s.channels[shard], id, s.channels[shard].members[id])
      {
        assert MemberOk(s.links, s.channels[shard], id, s.channels[shard].members[id]);
      }
    }
  }

  lemma RosterInitial(c: Config)
    requires ValidConfig(c)
    ensures Roster(c, Initial(c))
  {
  }

  lemma WithoutMembersLive(channels: map<nat, ChannelState>, peer: nat)
    ensures forall a, i :: Live(WithoutMembers(channels, peer), a, i) <==>
                             Live(channels, a, i) && channels[a].members[i].peer != peer
    ensures forall a, i :: Live(WithoutMembers(channels, peer), a, i) ==>
                             WithoutMembers(channels, peer)[a].members[i] == channels[a].members[i]
  {
  }

  lemma RosterClosed(c: Config, s: State, peer: nat)
    requires Roster(c, s)
    ensures Roster(c, Closed(c, s, peer))
  {
    var s' := Closed(c, s, peer);
    WithoutMembersLive(s.channels, peer);
    DistinctFrame(s.channels, s'.channels);
    forall p | HasLink(s'.links, p)
      ensures HasLink(s.links, p) && s'.links[p] == s.links[p]
    {
    }
    forall shard | shard in s'.channels
      ensures ChannelOk(c, s'.links, shard, s'.channels[shard])
    {
      assert ChannelOk(c, s.links, shard, s.channels[shard]);
      forall id | id in s'.channels[shard].members
        ensures MemberOk(s'.links, s'.channels[shard], id, s'.channels[shard].members[id])
      {
        assert MemberOk(s.links, s.channels[shard], id, s.channels[shard].members[id]);
      }
    }
  }

  /** Closing every established connection but one leaves only that one's link, and its members. */
  lemma ReplaceLinks(c: Config, s: State, peers: seq<nat>)
    requires Roster(c, s)
    ensures var s' := Replace(c, s, peers);
            && Roster(c, s') && s'.linkGeneration == s.linkGeneration
            && (forall p :: p in s'.links <==> p in s.links && p !in peers)
            && (forall p :: p in s'.links ==> s'.links[p] == s.links[p])
  {
    if peers != [] {
      var rest := peers[..|peers| - 1];
      ReplaceLinks(c, s, rest);
      RosterClosed(c, Replace(c, s, rest), peers[|peers| - 1]);
      RosterFrame(c, Closed(c, Replace(c, s, rest), peers[|peers| - 1]), Replace(c, s, peers));
      assert forall p :: p in peers <==> p in rest || p == peers[|peers| - 1];
    }
  }

  lemma MemberSound(c: Config, s: State, shard: nat, id: nat)
    requires Roster(c, s) && Live(s.channels, shard, id)
    ensures MemberOk(s.links, s.channels[shard], id, s.channels[shard].members[id])
    ensures s.channels[shard].epoch == EpochOf(c, shard)
  {
    assert ChannelOk(c, s.links, shard, s.channels[shard]);
  }

  /** The connection a send writes to is always established. */
  lemma MembersLinked(c: Config, s: State)
    requires Roster(c, s)
    ensures forall a, i :: Live(s.channels, a, i) ==> HasLink(s.links, s.channels[a].members[i].peer)
  {
    forall a, i | Live(s.channels, a, i)
      ensures HasLink(s.links, s.channels[a].members[i].peer)
    {
      MemberSound(c, s, a, i);
    }
  }

  lemma NoLinkNoMembers(c: Config, s: State)
    requires Roster(c, s) && forall p :: !HasLink(s.links, p)
    ensures forall a, i :: !Live(s.channels, a, i)
  {
    MembersLinked(c, s);
  }

  lemma RosterHello(c: Config, s: State, peer: nat, r: Request)
    requires Roster(c, s) && peer in s.links && IsIdentity(c.incarnation)
    requires ValidLink(r.link, true) && r.link.realmId == c.realmId
    requires r.link.realmInstanceId == c.realmInstanceId && r.link.chatInstanceId == c.instanceId
    ensures Roster(c, Hello(c, s, peer, r).0)
    ensures Hello(c, s, peer, r).1.status == StatusOk ==>
              forall a, i :: !Live(Hello(c, s, peer, r).0.channels, a, i)
  {
    hide DistinctGenerations, ChannelOk, Replace;
    if s.links[peer].link.None? && s.linkGeneration < COUNTER_MAX {
      var others := Ascending(Established(s.links) - {peer});
      AscendingSorted(Established(s.links) - {peer});
      ReplaceLinks(c, s, others);
      var replaced := Replace(c, s, others);
      assert forall p :: HasLink(replaced.links, p) ==> HasLink(s.links, p) && p !in others;
      NoLinkNoMembers(c, replaced);
      RosterEmpty(c, replaced, Hello(c, s, peer, r).0, peer);
    }
  }

  /** A memberless roster with one new link. */
  lemma RosterEmpty(c: Config, s: State, s': State, peer: nat)
    requires Roster(c, s) && (forall a, i :: !Live(s.channels, a, i)) && (forall p :: !HasLink(s.links, p))
    requires s'.channels == s.channels && s'.links.Keys == s.links.Keys + {peer}
    requires forall p :: HasLink(s'.links, p) ==> p == peer
    requires s'.linkGeneration <= COUNTER_MAX
    requires HasLink(s'.links, peer) && LinkOk(c, s'.linkGeneration, s'.links[peer].link.value)
    ensures Roster(c, s')
  {
    forall a | a in s'.channels
      ensures ChannelOk(c, s'.links, a, s'.channels[a])
    {
      assert ChannelOk(c, s.links, a, s.channels[a]);
      assert forall i :: i in s.channels[a].members ==> Live(s.channels, a, i);
    }
  }

  /** Members may go, and those that stay keep their generation. */
  lemma DistinctFrame(a: map<nat, ChannelState>, b: map<nat, ChannelState>)
    requires DistinctGenerations(a)
    requires forall shard, i :: Live(b, shard, i) ==>
      (Live(a, shard, i) && b[shard].members[i].membership == a[shard].members[i].membership)
    ensures DistinctGenerations(b)
  {
    forall x, i, y, j | SameGeneration(b, x, i, y, j)
      ensures x == y && i == j
    {
      assert SameGeneration(a, x, i, y, j);
    }
  }

  /** One member replaced by one whose generation is above every live one. */
  lemma DistinctJoin(a: map<nat, ChannelState>, shard: nat, id: nat, m: Member)
    requires DistinctGenerations(a) && shard in a
    requires forall x, i :: Live(a, x, i) ==> a[x].members[i].membership.generation < m.membership.generation
    ensures DistinctGenerations(WithMember(a, shard, id, m))
  {
    var b := WithMember(a, shard, id, m);
    forall x, i, y, j | SameGeneration(b, x, i, y, j)
      ensures x == y && i == j
    {
      assert (x == shard && i == id) || Live(a, x, i);
      assert (y == shard && j == id) || Live(a, y, j);
      assert Live(a, x, i) && Live(a, y, j) ==> SameGeneration(a, x, i, y, j) || x == shard || y == shard;
      if !(x == shard && i == id) && !(y == shard && j == id) {
        assert SameGeneration(a, x, i, y, j);
      }
    }
  }

  /** A channel stays sound when one member is installed or replaced. */
  lemma ChannelWithMember(c: Config, links: map<nat, LinkState>, shard: nat, channel: ChannelState, channel': ChannelState, id: nat, m: Member)
    requires ChannelOk(c, links, shard, channel)
    requires channel'.epoch == channel.epoch && channel.sequence <= channel'.sequence <= COUNTER_MAX
    requires channel'.members == channel.members[id := m] && MemberOk(links, channel', id, m)
    ensures ChannelOk(c, links, shard, channel')
  {
    forall i | i in channel'.members
      ensures MemberOk(links, channel', i, channel'.members[i])
    {
      if i != id {
        assert MemberOk(links, channel, i, channel.members[i]);
      }
    }
  }

  lemma ChannelSameLinks(c: Config, a: map<nat, LinkState>, b: map<nat, LinkState>, shard: nat, channel: ChannelState)
    requires ChannelOk(c, a, shard, channel) && SameLinks(a, b)
    ensures ChannelOk(c, b, shard, channel)
  {
    forall i | i in channel.members
      ensures MemberOk(b, channel, i, channel.members[i])
    {
      assert MemberOk(a, channel, i, channel.members[i]);
    }
  }

  lemma RosterJoin(c: Config, s: State, peer: nat, r: Request, now: int)
    requires Roster(c, s) && HasLink(s.links, peer) && MembershipOf(r).channel.shardId in s.channels
    requires MatchesLink(MembershipOf(r), s.links[peer].link.value)
    requires s.channels[MembershipOf(r).channel.shardId].epoch.channel == MembershipOf(r).channel
    ensures Roster(c, Join(s, peer, r, now).0)
  {
    var m := MembershipOf(r);
    var shard := m.channel.shardId;
    var s' := Join(s, peer, r, now).0;
    if s' != s {
      var joined := FreshMember(s.channels[shard], peer, m, now);
      forall a, i | Live(s.channels, a, i)
        ensures s.channels[a].members[i].membership.generation < m.generation
      {
        assert ChannelOk(c, s.links, a, s.channels[a]);
        assert MemberOk(s.links, s.channels[a], i, s.channels[a].members[i]);
      }
      DistinctJoin(s.channels, shard, m.characterId, joined);
      RosterInstall(c, s, s', shard, m.characterId);
    }
  }

  /** Installing or replacing one member leaves every channel sound. */
  lemma RosterInstall(c: Config, s: State, s': State, shard: nat, id: nat)
    requires Roster(c, s) && shard in s.channels && Live(s'.channels, shard, id)
    requires SameLinks(s.links, s'.links) && s'.linkGeneration == s.linkGeneration
    requires s'.channels == s.channels[shard := s'.channels[shard]]
    requires s'.channels[shard] == s.channels[shard].(sequence := s'.channels[shard].sequence,
                                     members := s.channels[shard].members[id := s'.channels[shard].members[id]])
    requires s.channels[shard].sequence <= s'.channels[shard].sequence <= COUNTER_MAX
    requires MemberOk(s'.links, s'.channels[shard], id, s'.channels[shard].members[id])
    requires DistinctGenerations(s'.channels)
    ensures Roster(c, s')
  {
    forall a | a in s'.channels
      ensures ChannelOk(c, s'.links, a, s'.channels[a])
    {
      ChannelSameLinks(c, s.links, s'.links, a, s.channels[a]);
      if a == shard {
        ChannelWithMember(c, s'.links, shard, s.channels[shard], s'.channels[shard], id, s'.channels[shard].members[id]);
      }
    }
  }

  lemma LeaveLive(s: State, peer: nat, r: Request)
    requires peer in s.links && MembershipOf(r).channel.shardId in s.channels
    ensures var s' := Leave(s, peer, r).0;
            && SameLinks(s.links, s'.links) && s'.channels.Keys == s.channels.Keys
            && (forall a :: a in s.channels ==>
                  (s'.channels[a].epoch == s.channels[a].epoch && s'.channels[a].sequence == s.channels[a].sequence))
            && (forall a, i :: Live(s'.channels, a, i) ==>
                  (Live(s.channels, a, i) && s'.channels[a].members[i] == s.channels[a].members[i]))
  {
  }

  lemma RosterLeave(c: Config, s: State, peer: nat, r: Request)
    requires Roster(c, s) && HasLink(s.links, peer) && MembershipOf(r).channel.shardId in s.channels
    ensures Roster(c, Leave(s, peer, r).0)
  {
    var s' := Leave(s, peer, r).0;
    LeaveLive(s, peer, r);
    DistinctFrame(s.channels, s'.channels);
    forall a | a in s'.channels
      ensures ChannelOk(c, s'.links, a, s'.channels[a])
    {
      ChannelSameLinks(c, s.links, s'.links, a, s.channels[a]);
      forall i | i in s'.channels[a].members
        ensures MemberOk(s'.links, s'.channels[a], i, s'.channels[a].members[i])
      {
        assert Live(s'.channels, a, i);
        assert MemberOk(s'.links, s.channels[a], i, s.channels[a].members[i]);
      }
    }
  }

  /** Replacing one member's mutable part, with a sequence that may only rise. */
  lemma RosterUpdate(c: Config, s: State, s': State, shard: nat, id: nat)
    requires Roster(c, s) && Live(s.channels, shard, id) && Live(s'.channels, shard, id)
    requires s'.links == s.links && s'.linkGeneration == s.linkGeneration
    requires s'.channels == s.channels[shard := s'.channels[shard]]
    requires s'.channels[shard] == s.channels[shard].(sequence := s'.channels[shard].sequence,
                                     members := s.channels[shard].members[id := s'.channels[shard].members[id]])
    requires s.channels[shard].sequence <= s'.channels[shard].sequence <= COUNTER_MAX
    requires s'.channels[shard].members[id].membership == s.channels[shard].members[id].membership
    requires s'.channels[shard].members[id].peer == s.channels[shard].members[id].peer
    requires StateOk(s'.channels[shard].members[id], s'.channels[shard])
    ensures Roster(c, s')
  {
    assert ChannelOk(c, s.links, shard, s.channels[shard]);
    assert MemberOk(s.links, s.channels[shard], id, s.channels[shard].members[id]);
    DistinctFrame(s.channels, s'.channels);
    RosterInstall(c, s, s', shard, id);
  }

  lemma RefilledBounds(m: Member, now: int)
    requires 0.0 <= m.tokens <= SEND_BURST
    ensures 0.0 <= Refilled(m, now).tokens <= SEND_BURST
    ensures Refilled(m, now).(tokens := m.tokens, refill := m.refill) == m
    ensures Refilled(m, now).refill >= m.refill
    ensures Refilled(m, now).tokens <= m.tokens + Earned(Refilled(m, now).refill - m.refill)
  {
  }

  lemma RosterPost(c: Config, s: State, shard: nat, id: nat, request: SendChat, result: SendResult)
    requires Roster(c, s) && Live(s.channels, shard, id)
    requires s.channels[shard].members[id].tokens >= 1.0 && s.channels[shard].sequence < COUNTER_MAX
    requires request.clientSendSeq == s.channels[shard].members[id].state.lastClientSendSeq + 1
    ensures Roster(c, Post1(c, s, shard, id, request, result).0)
  {
    var s' := Post1(c, s, shard, id, request, result).0;
    assert MemberOk(s.links, s.channels[shard], id, s.channels[shard].members[id]);
    if s' != s {
      RosterUpdate(c, s, s', shard, id);
    }
  }

  lemma RosterSend(c: Config, s: State, shard: nat, id: nat, request: SendChat, result: SendResult, now: int)
    requires Roster(c, s) && Live(s.channels, shard, id)
    ensures Roster(c, Send(c, s, shard, id, request, result, now).0)
  {
    hide Post1, LinksOk, DistinctGenerations;
    var m := s.channels[shard].members[id];
    var s' := Send(c, s, shard, id, request, result, now).0;
    if s' != s {
      assert MemberOk(s.links, s.channels[shard], id, m);
      RefilledBounds(m, now);
      var s1 := s.(channels := WithMember(s.channels, shard, id, Refilled(m, now)));
      RosterUpdate(c, s, s1, shard, id);
      if s' != s1 {
        RosterPost(c, s1, shard, id, request, result);
      }
    }
  }

  lemma RosterHandle(c: Config, s: State, peer: nat, r: Request, id: nat, now: int)
    requires Roster(c, s) && peer in s.links && ValidRequest(r, id) && IsIdentity(c.incarnation)
    ensures Roster(c, Handle(c, s, peer, r, now).0)
  {
    var s' := Handle(c, s, peer, r, now).0;
    if s' != s {
      if r.operation == OpHello {
        RosterHello(c, s, peer, r);
      } else if r.operation == OpLeave {
        RosterLeave(c, s, peer, r);
      } else if r.operation == OpJoin {
        RosterJoin(c, s, peer, r, now);
      } else {
        var m := MembershipOf(r);
        RosterSend(c, s, m.channel.shardId, m.characterId, SendOf(r), BlankResult(SendOf(r)), now);
      }
    }
  }
}
