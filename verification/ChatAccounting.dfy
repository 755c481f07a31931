/** Every counter and byte total equals what it stands for, and no configured bound is passed. */
module ChatAccounting {
  import opened Basics
  import opened ChatProtocol
  import opened ChatSequencer

  ghost function SumQueues(links: map<nat, LinkState>): nat
    decreases |links.Keys|
  {
    if links.Keys == {} then 0
    else
      var p := Least(links.Keys);
      assert (links - {p}).Keys == links.Keys - {p};
      |links[p].requests| + SumQueues(links - {p})
  }

  lemma {:induction false} SumRemove(links: map<nat, LinkState>, peer: nat)
    requires peer in links
    ensures SumQueues(links) == |links[peer].requests| + SumQueues(links - {peer})
    decreases |links.Keys|
  {
    var p := Least(links.Keys);
    if p != peer {
      assert (links - {p}).Keys == links.Keys - {p};
      SumRemove(links - {p}, peer);
      var rest := links - {peer};
      assert rest.Keys == links.Keys - {peer};
      assert p in rest.Keys && Least(rest.Keys) in links.Keys;
      assert links - {p} - {peer} == rest - {p};
    }
  }

  lemma SumUpdate(links: map<nat, LinkState>, peer: nat, link: LinkState)
    ensures SumQueues(links[peer := link]) == |link.requests| + SumQueues(links - {peer})
  {
    SumRemove(links[peer := link], peer);
    assert links[peer := link] - {peer} == links - {peer};
  }

  /** `inflight` is 1 while one request is off its queue and not yet answered. */
  ghost predicate Accounting(c: Config, s: State, inflight: nat) {
    && s.pending == SumQueues(s.links) + |s.replies| + inflight && s.pending <= c.pendingRequests
    && (forall p :: p in s.links ==> |s.links[p].requests| <= c.queuedPerLink)
    && |s.links.Keys| + |s.closedPeers| <= TRANSPORT_CONNECTIONS_MAX
    && s.pushBytes == Bytes(c, s.pushes) && s.pushBytes <= c.pendingPushBytes && |s.pushes| <= c.pendingPushes
  }

  lemma {:induction false} BytesConcat(c: Config, a: seq<PendingPush>, b: seq<PendingPush>)
    ensures Bytes(c, a + b) == Bytes(c, a) + Bytes(c, b)
  {
    if b == [] {
      assert a + b == a;
    } else {
      assert (a + b)[..|a + b| - 1] == a + b[..|b| - 1];
      BytesConcat(c, a, b[..|b| - 1]);
    }
  }

  lemma {:induction false} WithoutShrinks(c: Config, ps: seq<PendingPush>, peer: nat)
    ensures |WithoutPushes(ps, peer)| <= |ps| && Bytes(c, WithoutPushes(ps, peer)) <= Bytes(c, ps)
  {
    if ps != [] {
      var n := |ps| - 1;
      WithoutShrinks(c, ps[..n], peer);
      BytesConcat(c, WithoutPushes(ps[..n], peer), [ps[n]]);
      assert WithoutPushes(ps[..n], peer) + [] == WithoutPushes(ps[..n], peer);
    }
  }

  lemma {:induction false} WithoutRepliesShrinks(rs: seq<QueuedReply>, peer: nat)
    ensures |WithoutReplies(rs, peer)| <= |rs|
  {
    if rs != [] {
      WithoutRepliesShrinks(rs[..|rs| - 1], peer);
    }
  }

  lemma AccountingClosed(c: Config, s: State, peer: nat, inflight: nat)
    requires Accounting(c, s, inflight)
    ensures Accounting(c, Closed(c, s, peer), inflight)
    ensures |Closed(c, s, peer).links.Keys| <= |s.links.Keys|
    ensures peer in s.links ==> |Closed(c, s, peer).links.Keys| == |s.links.Keys| - 1
  {
    WithoutShrinks(c, s.pushes, peer);
    WithoutRepliesShrinks(s.replies, peer);
    assert (s.links - {peer}).Keys == s.links.Keys - {peer};
    if peer in s.links {
      SumRemove(s.links, peer);
    } else {
      assert s.links - {peer} == s.links;
    }
  }

  lemma {:induction false} AccountingReplace(c: Config, s: State, peers: seq<nat>, inflight: nat)
    requires Accounting(c, s, inflight)
    requires forall i :: 0 <= i < |peers| ==> peers[i] in s.links
    requires forall i, j :: 0 <= i < j < |peers| ==> peers[i] < peers[j]
    ensures Accounting(c, Replace(c, s, peers), inflight)
    ensures forall p :: p in Replace(c, s, peers).links <==> p in s.links && p !in peers
    ensures forall p :: p in Replace(c, s, peers).links ==> Replace(c, s, peers).links[p] == s.links[p]
  {
    if peers != [] {
      var rest := peers[..|peers| - 1];
      AccountingReplace(c, s, rest, inflight);
      AccountingClosed(c, Replace(c, s, rest), peers[|peers| - 1], inflight);
      assert peers[|peers| - 1] !in rest;
      assert forall p :: p in peers <==> p in rest || p == peers[|peers| - 1];
    }
  }

  /** Changing a link's record without its queue. */
  lemma SumSameQueues(links: map<nat, LinkState>, peer: nat, link: LinkState)
    requires peer in links && link.requests == links[peer].requests
    ensures SumQueues(links[peer := link]) == SumQueues(links)
  {
    SumRemove(links, peer);
    SumUpdate(links, peer, link);
  }

  /** Queueing a whole fan-out that the budget allows. */
  lemma AccountingQueue(c: Config, s: State, s': State, reserved: seq<PendingPush>, inflight: nat)
    requires Accounting(c, s, inflight)
    requires s'.links == s.links && s'.replies == s.replies && s'.closedPeers == s.closedPeers && s'.pending == s.pending
    requires s'.pushes == s.pushes + reserved && s'.pushBytes == s.pushBytes + Bytes(c, reserved)
    requires BudgetAllows(|s.pushes|, s.pushBytes, |reserved|, Bytes(c, reserved), c.pendingPushes, c.pendingPushBytes)
    ensures Accounting(c, s', inflight)
  {
    BytesConcat(c, s.pushes, reserved);
  }

  lemma AccountingPost(c: Config, s: State, shard: nat, id: nat, request: SendChat, result: SendResult, inflight: nat)
    requires Accounting(c, s, inflight) && Live(s.channels, shard, id)
    ensures Accounting(c, Post1(c, s, shard, id, request, result).0, inflight)
  {
    var channel := s.channels[shard];
    var s' := Post1(c, s, shard, id, request, result).0;
    if s' != s {
      AccountingQueue(c, s, s', Reserved(s.links, channel, channel.sequence + 1, channel.members[id].membership.characterId, request.text), inflight);
    }
  }

  lemma AccountingSend(c: Config, s: State, shard: nat, id: nat, request: SendChat, result: SendResult, now: int, inflight: nat)
    requires Accounting(c, s, inflight) && Live(s.channels, shard, id)
    ensures Accounting(c, Send(c, s, shard, id, request, result, now).0, inflight)
  {
    var s1 := s.(channels := WithMember(s.channels, shard, id, Refilled(s.channels[shard].members[id], now)));
    AccountingPost(c, s1, shard, id, request, result, inflight);
  }

  lemma AccountingHello(c: Config, s: State, peer: nat, r: Request, inflight: nat)
    requires Accounting(c, s, inflight) && peer in s.links
    ensures Accounting(c, Hello(c, s, peer, r).0, inflight)
  {
    var s' := Hello(c, s, peer, r).0;
    if s.links[peer].link.None? && s.linkGeneration < COUNTER_MAX {
      var others := Ascending(Established(s.links) - {peer});
      AscendingSorted(Established(s.links) - {peer});
      assert forall i :: 0 <= i < |others| ==> others[i] in others;
      AccountingReplace(c, s, others, inflight);
      var replaced := Replace(c, s, others);
      assert peer in replaced.links && s'.links == replaced.links[peer := s'.links[peer]];
      SumSameQueues(replaced.links, peer, s'.links[peer]);
      assert s'.links.Keys == replaced.links.Keys;
    }
  }

  lemma AccountingHandle(c: Config, s: State, peer: nat, r: Request, now: int, inflight: nat)
    requires Accounting(c, s, inflight) && peer in s.links
    ensures Accounting(c, Handle(c, s, peer, r, now).0, inflight)
  {
    var s' := Handle(c, s, peer, r, now).0;
    if s' != s {
      var m := MembershipOf(r);
      if r.operation == OpHello {
        AccountingHello(c, s, peer, r, inflight);
      } else if r.operation == OpJoin || r.operation == OpLeave {
        SumSameQueues(s.links, peer, s'.links[peer]);
        assert s'.links.Keys == s.links.Keys;
      } else {
        AccountingSend(c, s, m.channel.shardId, m.characterId, SendOf(r), BlankResult(SendOf(r)), now, inflight);
      }
    }
  }

  lemma AccountingServe(c: Config, s: State, peer: nat, i: nat, now: int)
    requires Accounting(c, s, 0) && peer in s.links && i < |s.links[peer].requests|
    ensures Accounting(c, Serve(c, s, peer, i, now), 0)
  {
    var queue := s.links[peer].requests;
    var s1 := s.(links := s.links[peer := s.links[peer].(requests := queue[..i] + queue[i + 1..])]);
    SumRemove(s.links, peer);
    SumUpdate(s.links, peer, s1.links[peer]);
    assert s1.links.Keys == s.links.Keys;
    assert Accounting(c, s1, 1);
    AccountingHandle(c, s1, peer, queue[i].request, now, 1);
  }

  lemma AccountingSubmit(c: Config, s: State, peer: nat, request: Request, id: nat, now: int)
    requires Accounting(c, s, 0)
    ensures Accounting(c, Submit(c, s, peer, request, id, now).0, 0)
  {
    var s' := Submit(c, s, peer, request, id, now).0;
    if s' != s {
      SumRemove(s.links, peer);
      SumUpdate(s.links, peer, s'.links[peer]);
      assert s'.links.Keys == s.links.Keys;
    }
  }

  lemma AccountingOpened(c: Config, s: State, peer: nat)
    requires Accounting(c, s, 0)
    ensures Accounting(c, Opened(s, peer).0, 0)
  {
    if Opened(s, peer).1 {
      SumUpdate(s.links, peer, LinkState(None, 0, []));
      assert s.links - {peer} == s.links;
      assert Opened(s, peer).0.links.Keys == s.links.Keys + {peer};
    }
  }

  lemma AccountingDrainOne(c: Config, s: State)
    requires Accounting(c, s, 0) && s.pushes != []
    ensures Accounting(c, DrainOne(c, s), 0)
  {
    BytesConcat(c, s.pushes[..1], s.pushes[1..]);
    assert s.pushes == s.pushes[..1] + s.pushes[1..];
    assert s.pushes[..1][..0] == [];
  }

  // ---------------------------------------------------------------------------------------
  // Membership quotas

  ghost predicate Quotas(channels: map<nat, ChannelState>) {
    && (forall shard :: shard in channels ==>
          |channels[shard].members.Keys| <= Capacity(channels[shard].epoch.channel.kind))
    && |Characters(channels)| <= CHARACTERS_MAX
    && (forall id :: |Qualifications(channels, id)| <= MEMBERSHIPS_PER_CHARACTER_MAX)
  }

  lemma SubsetSize<T>(a: set<T>, b: set<T>)
    requires a <= b
    ensures |a| <= |b|
  {
    assert b == a + (b - a);
  }

  /** Losing members, or changing only what a member stores, keeps every quota. */
  lemma QuotasShrink(a: map<nat, ChannelState>, b: map<nat, ChannelState>)
    requires Quotas(a) && b.Keys == a.Keys
    requires forall shard :: shard in a ==> b[shard].epoch == a[shard].epoch && b[shard].members.Keys <= a[shard].members.Keys
    ensures Quotas(b)
  {
    forall shard | shard in b
      ensures |b[shard].members.Keys| <= Capacity(b[shard].epoch.channel.kind)
    {
      SubsetSize(b[shard].members.Keys, a[shard].members.Keys);
    }
    SubsetSize(Characters(b), Characters(a));
    forall id
      ensures |Qualifications(b, id)| <= MEMBERSHIPS_PER_CHARACTER_MAX
    {
      SubsetSize(Qualifications(b, id), Qualifications(a, id));
    }
  }

  lemma CharactersJoin(channels: map<nat, ChannelState>, shard: nat, id: nat, m: Member)
    requires shard in channels
    ensures Characters(WithMember(channels, shard, id, m)) == Characters(channels) + {id}
  {
    var b := WithMember(channels, shard, id, m);
    forall x | x in Characters(channels) + {id}
      ensures x in Characters(b)
    {
      if x != id {
        var a :| a in channels && x in channels[a].members;
        assert a in b && x in b[a].members;
      } else {
        assert shard in b && id in b[shard].members;
      }
    }
    forall x | x in Characters(b)
      ensures x in Characters(channels) + {id}
    {
      var a :| a in b && x in b[a].members;
      assert x == id || (a in channels && x in channels[a].members);
    }
  }

  lemma QualificationsJoin(channels: map<nat, ChannelState>, shard: nat, id: nat, m: Member, i: nat)
    requires shard in channels
    ensures Qualifications(WithMember(channels, shard, id, m), i)
            == if i == id then Qualifications(channels, i) + {shard} else Qualifications(channels, i)
  {
  }

  lemma GrowByOne<T>(a: set<T>, x: T, limit: nat)
    requires |a| <= limit && (x in a || |a| < limit)
    ensures |a + {x}| <= limit
  {
    if x in a {
      assert a + {x} == a;
    }
  }

  lemma QuotasJoin(channels: map<nat, ChannelState>, shard: nat, id: nat, m: Member)
    requires Quotas(channels) && shard in channels && !JoinBusy(channels, shard, id)
    ensures Quotas(WithMember(channels, shard, id, m))
  {
    var b := WithMember(channels, shard, id, m);
    CharactersJoin(channels, shard, id, m);
    GrowByOne(Characters(channels), id, CHARACTERS_MAX);
    forall a | a in b
      ensures |b[a].members.Keys| <= Capacity(b[a].epoch.channel.kind)
    {
      if a == shard {
        GrowByOne(channels[shard].members.Keys, id, Capacity(b[a].epoch.channel.kind));
        assert b[shard].members.Keys == channels[shard].members.Keys + {id};
      }
    }
    forall i
      ensures |Qualifications(b, i)| <= MEMBERSHIPS_PER_CHARACTER_MAX
    {
      QualificationsJoin(channels, shard, id, m, i);
      if i == id {
        assert id in channels[shard].members ==> shard in Qualifications(channels, id);
        GrowByOne(Qualifications(channels, id), shard, MEMBERSHIPS_PER_CHARACTER_MAX);
      }
    }
  }

  lemma QuotasReplace(c: Config, s: State, peers: seq<nat>)
    requires Quotas(s.channels)
    ensures Quotas(Replace(c, s, peers).channels)
  {
    if peers != [] {
      var rest := Replace(c, s, peers[..|peers| - 1]);
      QuotasReplace(c, s, peers[..|peers| - 1]);
      QuotasShrink(rest.channels, WithoutMembers(rest.channels, peers[|peers| - 1]));
    }
  }

  /** A send never changes who is a member. */
  lemma SendKeepsMembers(c: Config, s: State, shard: nat, id: nat, request: SendChat, result: SendResult, now: int)
    requires Live(s.channels, shard, id)
    ensures var channels := Send(c, s, shard, id, request, result, now).0.channels;
            && channels.Keys == s.channels.Keys
            && forall a :: a in channels ==> (channels[a].epoch == s.channels[a].epoch
                                             && channels[a].members.Keys == s.channels[a].members.Keys)
  {
  }

  lemma QuotasHandle(c: Config, s: State, peer: nat, r: Request, now: int)
    requires Quotas(s.channels) && peer in s.links
    ensures Quotas(Handle(c, s, peer, r, now).0.channels)
  {
    hide Quotas, Replace, Send, WithoutMembers;
    var s' := Handle(c, s, peer, r, now).0;
    if s'.channels != s.channels {
      var m := MembershipOf(r);
      if r.operation == OpHello {
        QuotasReplace(c, s, Ascending(Established(s.links) - {peer}));
      } else if r.operation == OpJoin {
        QuotasJoin(s.channels, m.channel.shardId, m.characterId, FreshMember(s.channels[m.channel.shardId], peer, m, now));
      } else if r.operation == OpLeave {
        QuotasShrink(s.channels, s'.channels);
      } else {
        SendKeepsMembers(c, s, m.channel.shardId, m.characterId, SendOf(r), BlankResult(SendOf(r)), now);
        QuotasShrink(s.channels, s'.channels);
      }
    }
  }
}
