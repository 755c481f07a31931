/** Delivery: what one stay in a channel is sent is the run of channel counters after its join
    watermark, each once and in order, and every push repeats the message accepted there. */
module ChatStreams {
  import opened Basics
  import opened ChatProtocol
  import opened ChatText
  import opened ChatSequencer
  import opened ChatRoster

  function PushKey(e: PendingPush): Key { Key(e.peer, e.push.link, e.membership) }

  /** The channel counters of the pushes addressed to one stay. */
  ghost function Stream(es: seq<PendingPush>, k: Key): seq<nat> {
    if es == [] then []
    else Stream(es[..|es| - 1], k) + (if PushKey(es[|es| - 1]) == k then [es[|es| - 1].push.message.channelSeq] else [])
  }

  /** The client counters of the messages one stay has had accepted. */
  ghost function Own(posts: seq<Post>, k: Key): seq<nat> {
    if posts == [] then []
    else Own(posts[..|posts| - 1], k) + (if posts[|posts| - 1].author == k then [posts[|posts| - 1].clientSendSeq] else [])
  }

  /** The push carries the text and the author accepted at its place in the channel. */
  ghost predicate Echoes(log: map<nat, seq<Post>>, e: PendingPush) {
    var shard := e.push.message.epoch.channel.shardId;
    var n := e.push.message.channelSeq;
    && shard in log && 1 <= n <= |log[shard]|
    && e.push.message.text == log[shard][n - 1].text
    && e.push.message.senderCharacterId == log[shard][n - 1].author.membership.characterId
  }

  /** No later join over the current link can repeat this stay's generation. */
  ghost predicate Settled(links: map<nat, LinkState>, generation: nat, k: Key) {
    && k.link.linkGeneration <= generation
    && (k.link.linkGeneration == generation ==>
          forall p :: HasLink(links, p) ==> k.membership.generation <= links[p].highestGeneration)
  }

  ghost predicate PushOk(links: map<nat, LinkState>, log: map<nat, seq<Post>>, e: PendingPush) {
    && HasLink(links, e.peer) && e.push.link == links[e.peer].link.value && e.push.membership == e.membership
    && e.membership.generation <= links[e.peer].highestGeneration
    && Echoes(log, e) && ValidPush(e.push, 0)
  }

  ghost predicate MemberStream(links: map<nat, LinkState>, es: seq<PendingPush>, posts: seq<Post>, sequence: nat, m: Member)
    requires m.state.joinWatermark <= sequence
  {
    var k := KeyOf(links, m);
    var last := m.state.lastClientSendSeq;
    && Stream(es, k) == Counters(m.state.joinWatermark, sequence)
    && Own(posts, k) == Counters(0, last)
    && (last != 0 && m.state.lastReceipt.Some? ==>
          var n := m.state.lastReceipt.value.channelSeq;
          1 <= n <= |posts| && posts[n - 1].author == k && posts[n - 1].clientSendSeq == last && posts[n - 1].text == m.lastText)
  }

  ghost predicate MemberStreams(s: State) {
    && s.log.Keys == s.channels.Keys
    && forall a, i :: Live(s.channels, a, i) ==>
         && s.channels[a].members[i].state.joinWatermark <= s.channels[a].sequence
         && MemberStream(s.links, s.delivered + s.pushes, s.log[a], s.channels[a].sequence, s.channels[a].members[i])
  }

  ghost predicate Records(s: State) {
    && s.log.Keys == s.channels.Keys
    && (forall a :: a in s.log ==> |s.log[a]| == s.channels[a].sequence)
    && (forall a, n :: a in s.log && 0 <= n < |s.log[a]| ==> Settled(s.links, s.linkGeneration, s.log[a][n].author))
    && (forall n :: 0 <= n < |s.pushes| ==> PushOk(s.links, s.log, s.pushes[n]))
    && (forall n :: 0 <= n < |s.delivered| ==>
          Echoes(s.log, s.delivered[n]) && Settled(s.links, s.linkGeneration, PushKey(s.delivered[n])))
  }

  ghost predicate Streams(s: State) { Records(s) && MemberStreams(s) }

  // ---------------------------------------------------------------------------------------
  // Streams and posts as sequences

  lemma {:induction false} StreamConcat(a: seq<PendingPush>, b: seq<PendingPush>, k: Key)
    ensures Stream(a + b, k) == Stream(a, k) + Stream(b, k)
  {
    if b == [] {
      assert a + b == a;
    } else {
      assert (a + b)[..|a + b| - 1] == a + b[..|b| - 1];
      StreamConcat(a, b[..|b| - 1], k);
    }
  }

  lemma {:induction false} StreamNone(es: seq<PendingPush>, k: Key)
    requires forall n :: 0 <= n < |es| ==> PushKey(es[n]) != k
    ensures Stream(es, k) == []
  {
    if es != [] {
      StreamNone(es[..|es| - 1], k);
    }
  }

  lemma {:induction false} OwnNone(posts: seq<Post>, k: Key)
    requires forall n :: 0 <= n < |posts| ==> posts[n].author != k
    ensures Own(posts, k) == []
  {
    if posts != [] {
      OwnNone(posts[..|posts| - 1], k);
    }
  }

  lemma {:induction false} StreamWithout(ps: seq<PendingPush>, peer: nat, k: Key)
    requires k.peer != peer
    ensures Stream(WithoutPushes(ps, peer), k) == Stream(ps, k)
  {
    if ps != [] {
      var n := |ps| - 1;
      StreamWithout(ps[..n], peer, k);
      StreamConcat(WithoutPushes(ps[..n], peer), [ps[n]], k);
      assert WithoutPushes(ps[..n], peer) + [] == WithoutPushes(ps[..n], peer);
      assert [ps[n]][..0] == [];
    }
  }

  lemma {:induction false} WithoutPushesOnly(ps: seq<PendingPush>, peer: nat)
    ensures forall e :: e in WithoutPushes(ps, peer) ==> e in ps && e.peer != peer
  {
    if ps != [] {
      WithoutPushesOnly(ps[..|ps| - 1], peer);
    }
  }

  // ---------------------------------------------------------------------------------------
  // Preservation, operation by operation

  /** Links may go and watermarks may rise; pushes may go, but only those of gone links must. */
  lemma RecordsFrame(s: State, s': State)
    requires Records(s) && s'.log == s.log && s'.delivered == s.delivered && s'.linkGeneration == s.linkGeneration
    requires s'.channels.Keys == s.channels.Keys && forall a :: a in s.channels ==> s'.channels[a].sequence == s.channels[a].sequence
    requires forall p :: HasLink(s'.links, p) ==>
               (HasLink(s.links, p) && s'.links[p].link == s.links[p].link
                && s.links[p].highestGeneration <= s'.links[p].highestGeneration)
    requires forall e :: e in s'.pushes ==> e in s.pushes && HasLink(s'.links, e.peer)
    ensures Records(s')
  {
    forall n | 0 <= n < |s'.pushes|
      ensures PushOk(s'.links, s'.log, s'.pushes[n])
    {
      assert s'.pushes[n] in s'.pushes;
    }
  }

  /** The members that stay keep their key, their stored state and their stream. */
  lemma MemberStreamsFrame(s: State, s': State)
    requires MemberStreams(s) && s'.log == s.log
    requires s'.channels.Keys == s.channels.Keys && forall a :: a in s.channels ==> s'.channels[a].sequence == s.channels[a].sequence
    requires forall a, i :: Live(s'.channels, a, i) ==> Live(s.channels, a, i) && SameStay(s, s', a, i)
    ensures MemberStreams(s')
  {
    forall a, i | Live(s'.channels, a, i)
      ensures s'.channels[a].members[i].state.joinWatermark <= s'.channels[a].sequence
      ensures MemberStream(s'.links, s'.delivered + s'.pushes, s'.log[a], s'.channels[a].sequence, s'.channels[a].members[i])
    {
      assert SameStay(s, s', a, i);
    }
  }

  ghost predicate SameStay(s: State, s': State, a: nat, i: nat)
    requires Live(s.channels, a, i) && Live(s'.channels, a, i)
  {
    var m := s.channels[a].members[i];
    var m' := s'.channels[a].members[i];
    && KeyOf(s'.links, m') == KeyOf(s.links, m) && m'.state == m.state && m'.lastText == m.lastText
    && Stream(s'.delivered + s'.pushes, KeyOf(s.links, m)) == Stream(s.delivered + s.pushes, KeyOf(s.links, m))
  }

  /** What does not touch pushes, logs or members keeps every stream. */
  lemma StreamsFrame(c: Config, s: State, s': State)
    requires Roster(c, s) && Streams(s)
    requires s'.channels == s.channels && s'.pushes == s.pushes && s'.delivered == s.delivered && s'.log == s.log
    requires s'.linkGeneration == s.linkGeneration && SameLinks(s.links, s'.links)
    ensures Streams(s')
  {
    forall e | e in s'.pushes
      ensures HasLink(s'.links, e.peer)
    {
      var n :| 0 <= n < |s.pushes| && s.pushes[n] == e;
      assert PushOk(s.links, s.log, s.pushes[n]);
    }
    RecordsFrame(s, s');
    MembersLinked(c, s);
    MemberStreamsFrame(s, s');
  }

  lemma RecordsClosed(c: Config, s: State, peer: nat)
    requires Records(s)
    ensures Records(Closed(c, s, peer))
  {
    var s' := Closed(c, s, peer);
    WithoutPushesOnly(s.pushes, peer);
    forall e | e in s'.pushes
      ensures e in s.pushes && HasLink(s'.links, e.peer)
    {
      var n :| 0 <= n < |s.pushes| && s.pushes[n] == e;
      assert PushOk(s.links, s.log, s.pushes[n]);
    }
    RecordsFrame(s, s');
  }

  lemma StreamsClosed(c: Config, s: State, peer: nat)
    requires Streams(s)
    ensures Streams(Closed(c, s, peer))
  {
    hide Records, MemberStreams, MemberStream, Stream, WithoutPushes;
    var s' := Closed(c, s, peer);
    RecordsClosed(c, s, peer);
    WithoutMembersLive(s.channels, peer);
    forall a, i | Live(s'.channels, a, i)
      ensures Live(s.channels, a, i) && SameStay(s, s', a, i)
    {
      var k := KeyOf(s.links, s.channels[a].members[i]);
      StreamConcat(s.delivered, s.pushes, k);
      StreamConcat(s.delivered, s'.pushes, k);
      StreamWithout(s.pushes, peer, k);
    }
    MemberStreamsFrame(s, s');
  }

  lemma StreamsReplace(c: Config, s: State, peers: seq<nat>)
    requires Roster(c, s) && Streams(s)
    ensures Streams(Replace(c, s, peers))
  {
    if peers != [] {
      var rest := Replace(c, s, peers[..|peers| - 1]);
      ReplaceLinks(c, s, peers[..|peers| - 1]);
      StreamsReplace(c, s, peers[..|peers| - 1]);
      RosterClosed(c, rest, peers[|peers| - 1]);
      StreamsClosed(c, rest, peers[|peers| - 1]);
      StreamsFrame(c, Closed(c, rest, peers[|peers| - 1]), Replace(c, s, peers));
    }
  }

  lemma StreamsHello(c: Config, s: State, peer: nat, r: Request)
    requires Roster(c, s) && Streams(s) && peer in s.links && IsIdentity(c.incarnation)
    requires ValidLink(r.link, true) && r.link.realmId == c.realmId
    requires r.link.realmInstanceId == c.realmInstanceId && r.link.chatInstanceId == c.instanceId
    ensures Streams(Hello(c, s, peer, r).0)
  {
    if s.links[peer].link.None? && s.linkGeneration < COUNTER_MAX {
      var others := Ascending(Established(s.links) - {peer});
      AscendingSorted(Established(s.links) - {peer});
      ReplaceLinks(c, s, others);
      StreamsReplace(c, s, others);
      RosterHello(c, s, peer, r);
      var replaced := Replace(c, s, others);
      assert forall p :: HasLink(replaced.links, p) ==> HasLink(s.links, p) && p !in others;
      NoPushes(replaced);
      StreamsNewLink(replaced, Hello(c, s, peer, r).0);
    }
  }

  /** A new link outdates every recorded stay; nobody is a member yet. */
  lemma StreamsNewLink(s: State, s': State)
    requires Records(s) && s.pushes == [] && s'.linkGeneration > s.linkGeneration
    requires s'.channels == s.channels && s'.pushes == [] && s'.delivered == s.delivered && s'.log == s.log
    requires forall a, i :: !Live(s'.channels, a, i)
    ensures Streams(s')
  {
  }

  /** Without an established link no push waits. */
  lemma NoPushes(s: State)
    requires Records(s) && forall p :: !HasLink(s.links, p)
    ensures s.pushes == []
  {
    assert |s.pushes| > 0 ==> PushOk(s.links, s.log, s.pushes[0]);
  }

  /** A generation above the link's watermark names a stay nobody has written to or for. */
  lemma FreshStay(s: State, k: Key)
    requires Records(s) && HasLink(s.links, k.peer) && k.link == s.links[k.peer].link.value
    requires k.link.linkGeneration == s.linkGeneration
    requires k.membership.generation > s.links[k.peer].highestGeneration
    ensures Stream(s.delivered + s.pushes, k) == []
    ensures forall a, n :: a in s.log && 0 <= n < |s.log[a]| ==> s.log[a][n].author != k
    ensures forall a :: a in s.log ==> Own(s.log[a], k) == []
  {
    StreamConcat(s.delivered, s.pushes, k);
    StreamNone(s.delivered, k);
    StreamNone(s.pushes, k);
    forall a | a in s.log
      ensures Own(s.log[a], k) == []
    {
      OwnNone(s.log[a], k);
    }
  }

  lemma RecordsMembers(c: Config, s: State, s': State)
    requires Records(s) && s'.log == s.log && s'.delivered == s.delivered && s'.linkGeneration == s.linkGeneration
    requires s'.channels.Keys == s.channels.Keys && forall a :: a in s.channels ==> s'.channels[a].sequence == s.channels[a].sequence
    requires SameLinks(s.links, s'.links) && s'.pushes == s.pushes
    ensures Records(s')
  {
    forall e | e in s'.pushes
      ensures HasLink(s'.links, e.peer)
    {
      var n :| 0 <= n < |s.pushes| && s.pushes[n] == e;
      assert PushOk(s.links, s.log, s.pushes[n]);
    }
    RecordsFrame(s, s');
  }

  lemma StreamsJoin(c: Config, s: State, peer: nat, r: Request, now: int)
    requires Roster(c, s) && Streams(s) && HasLink(s.links, peer) && MembershipOf(r).channel.shardId in s.channels
    ensures Streams(Join(s, peer, r, now).0)
  {
    var m := MembershipOf(r);
    var s' := Join(s, peer, r, now).0;
    if s' != s {
      assert SameLinks(s.links, s'.links);
      StreamsJoined(c, s, s', peer, m.channel.shardId, FreshMember(s.channels[m.channel.shardId], peer, m, now));
    }
  }

  lemma StreamsJoined(c: Config, s: State, s': State, peer: nat, shard: nat, joined: Member)
    requires Roster(c, s) && Streams(s) && HasLink(s.links, peer) && shard in s.channels
    requires joined.peer == peer && joined.membership.generation > s.links[peer].highestGeneration
    requires joined.state.joinWatermark == s.channels[shard].sequence && joined.state.lastClientSendSeq == 0
    requires s'.channels == WithMember(s.channels, shard, joined.membership.characterId, joined)
    requires s'.log == s.log && s'.delivered == s.delivered && s'.pushes == s.pushes && s'.linkGeneration == s.linkGeneration
    requires SameLinks(s.links, s'.links)
    ensures Streams(s')
  {
    assert LinkOk(c, s.linkGeneration, s.links[peer].link.value);
    FreshStay(s, KeyOf(s.links, joined));
    RecordsMembers(c, s, s');
    MembersLinked(c, s);
    JoinedStreams(s, s', shard, joined);
  }

  lemma JoinedStreams(s: State, s': State, shard: nat, joined: Member)
    requires MemberStreams(s) && HasLink(s.links, joined.peer) && shard in s.channels
    requires forall a, i :: Live(s.channels, a, i) ==> HasLink(s.links, s.channels[a].members[i].peer)
    requires joined.state.joinWatermark == s.channels[shard].sequence && joined.state.lastClientSendSeq == 0
    requires s'.channels == WithMember(s.channels, shard, joined.membership.characterId, joined)
    requires s'.log == s.log && s'.delivered == s.delivered && s'.pushes == s.pushes && SameLinks(s.links, s'.links)
    requires Stream(s.delivered + s.pushes, KeyOf(s.links, joined)) == [] && Own(s.log[shard], KeyOf(s.links, joined)) == []
    ensures MemberStreams(s')
  {
    OthersStay(s, s', shard, joined.membership.characterId);
    assert KeyOf(s'.links, joined) == KeyOf(s.links, joined);
    MemberStreamsJoin(s, s', shard, joined.membership.characterId);
  }

  lemma OthersStay(s: State, s': State, shard: nat, id: nat)
    requires Live(s'.channels, shard, id) && shard in s.channels
    requires s'.channels == WithMember(s.channels, shard, id, s'.channels[shard].members[id])
    requires s'.delivered == s.delivered && s'.pushes == s.pushes && SameLinks(s.links, s'.links)
    requires forall a, i :: Live(s.channels, a, i) ==> HasLink(s.links, s.channels[a].members[i].peer)
    ensures forall a, i :: Live(s'.channels, a, i) && !(a == shard && i == id) ==> Live(s.channels, a, i) && SameStay(s, s', a, i)
  {
    forall a, i | Live(s'.channels, a, i) && !(a == shard && i == id)
      ensures Live(s.channels, a, i) && SameStay(s, s', a, i)
    {
      assert Live(s.channels, a, i) && s'.channels[a].members[i] == s.channels[a].members[i];
    }
  }

  /** One new member with an empty stream, an empty post record and the current watermark. */
  lemma MemberStreamsJoin(s: State, s': State, shard: nat, id: nat)
    requires MemberStreams(s) && s'.log == s.log && Live(s'.channels, shard, id)
    requires s'.channels.Keys == s.channels.Keys && forall a :: a in s.channels ==> s'.channels[a].sequence == s.channels[a].sequence
    requires s'.delivered == s.delivered && s'.pushes == s.pushes
    requires forall a, i :: Live(s'.channels, a, i) && !(a == shard && i == id) ==> Live(s.channels, a, i) && SameStay(s, s', a, i)
    requires var m := s'.channels[shard].members[id];
             && m.state.joinWatermark == s.channels[shard].sequence && m.state.lastClientSendSeq == 0
             && Stream(s.delivered + s.pushes, KeyOf(s'.links, m)) == [] && Own(s.log[shard], KeyOf(s'.links, m)) == []
    ensures MemberStreams(s')
  {
    forall a, i | Live(s'.channels, a, i)
      ensures s'.channels[a].members[i].state.joinWatermark <= s'.channels[a].sequence
      ensures MemberStream(s'.links, s'.delivered + s'.pushes, s'.log[a], s'.channels[a].sequence, s'.channels[a].members[i])
    {
      if !(a == shard && i == id) {
        assert SameStay(s, s', a, i);
      }
    }
  }

  lemma StreamsLeave(c: Config, s: State, peer: nat, r: Request)
    requires Roster(c, s) && Streams(s) && HasLink(s.links, peer) && MembershipOf(r).channel.shardId in s.channels
    ensures Streams(Leave(s, peer, r).0)
  {
    var s' := Leave(s, peer, r).0;
    LeaveLive(s, peer, r);
    RecordsMembers(c, s, s');
    MembersLinked(c, s);
    MemberStreamsFrame(s, s');
  }

  lemma StreamsRefill(c: Config, s: State, shard: nat, id: nat, now: int)
    requires Streams(s) && Live(s.channels, shard, id)
    ensures Streams(s.(channels := WithMember(s.channels, shard, id, Refilled(s.channels[shard].members[id], now))))
  {
    var s' := s.(channels := WithMember(s.channels, shard, id, Refilled(s.channels[shard].members[id], now)));
    RecordsMembers(c, s, s');
    forall a, i | Live(s'.channels, a, i)
      ensures Live(s.channels, a, i) && SameStay(s, s', a, i)
    {
      assert Live(s.channels, a, i);
    }
    MemberStreamsFrame(s, s');
  }

  lemma StreamPush(es: seq<PendingPush>, e: PendingPush, k: Key)
    ensures Stream(es + [e], k) == Stream(es, k) + (if PushKey(e) == k then [e.push.message.channelSeq] else [])
  {
    assert (es + [e])[..|es|] == es;
  }

  /** The push of a channel's member is for the stay that is that member's. */
  lemma OnePush(links: map<nat, LinkState>, channel: ChannelState, x: nat, n: nat, sender: nat, text: Text, target: Member)
    requires x in channel.members && channel.members[x].membership.characterId == x
    requires channel.members[x].membership.channel == channel.epoch.channel
    requires target.membership.channel == channel.epoch.channel ==>
               target.membership.characterId in channel.members && channel.members[target.membership.characterId] == target
    ensures var e := PushTo(links, channel.members[x], channel.epoch, n, sender, text);
            && e.push.message.channelSeq == n
            && (PushKey(e) == KeyOf(links, target) <==>
                  target.membership.channel == channel.epoch.channel && target.membership.characterId == x)
  {
  }

  /** The fan-out holds exactly one push for a listed member, and none for anyone else. */
  lemma {:induction false} FanoutStream(links: map<nat, LinkState>, channel: ChannelState, ids: seq<nat>, n: nat, sender: nat, text: Text,
                                        target: Member)
    requires forall i :: 0 <= i < |ids| ==> ids[i] in channel.members && channel.members[ids[i]].membership.characterId == ids[i]
    requires forall i, j :: 0 <= i < j < |ids| ==> ids[i] < ids[j]
    requires forall i :: 0 <= i < |ids| ==> channel.members[ids[i]].membership.channel == channel.epoch.channel
    requires target.membership.channel == channel.epoch.channel ==>
               target.membership.characterId in channel.members && channel.members[target.membership.characterId] == target
    ensures Stream(Fanout(links, channel, ids, n, sender, text), KeyOf(links, target))
            == if target.membership.channel == channel.epoch.channel && target.membership.characterId in ids then [n] else []
  {
    hide PushTo, PushKey, KeyOf, Stream;
    if ids == [] {
      StreamNone([], KeyOf(links, target));
    } else {
      var rest := ids[..|ids| - 1];
      var x := ids[|ids| - 1];
      FanoutStream(links, channel, rest, n, sender, text, target);
      OnePush(links, channel, x, n, sender, text, target);
      StreamPush(Fanout(links, channel, rest, n, sender, text), PushTo(links, channel.members[x], channel.epoch, n, sender, text),
                 KeyOf(links, target));
      assert x !in rest;
      assert forall y :: y in ids <==> y in rest || y == x;
    }
  }

  lemma {:induction false} FanoutEntries(links: map<nat, LinkState>, channel: ChannelState, ids: seq<nat>, n: nat, sender: nat, text: Text)
    requires forall i :: 0 <= i < |ids| ==> ids[i] in channel.members
    ensures |Fanout(links, channel, ids, n, sender, text)| == |ids|
    ensures forall i :: 0 <= i < |ids| ==>
              Fanout(links, channel, ids, n, sender, text)[i] == PushTo(links, channel.members[ids[i]], channel.epoch, n, sender, text)
  {
    if ids != [] {
      FanoutEntries(links, channel, ids[..|ids| - 1], n, sender, text);
    }
  }

  lemma PushToOk(c: Config, s: State, shard: nat, id: nat, log': map<nat, seq<Post>>, n: nat, sender: nat, text: Text)
    requires Roster(c, s) && ValidConfig(c) && Live(s.channels, shard, id) && IsCounter(n) && sender != 0 && ValidChatText(text)
    requires shard in log' && |log'[shard]| == n && log'[shard][n - 1].text == text
    requires log'[shard][n - 1].author.membership.characterId == sender
    ensures PushOk(s.links, log', PushTo(s.links, s.channels[shard].members[id], s.channels[shard].epoch, n, sender, text))
  {
    MemberSound(c, s, shard, id);
    assert LinkOk(c, s.linkGeneration, s.links[s.channels[shard].members[id].peer].link.value);
  }

  /** The log grows by one post; every record about the shorter log still holds. */
  lemma RecordsLog(s: State, shard: nat, post: Post, log': map<nat, seq<Post>>)
    requires Records(s) && shard in s.log && log' == s.log[shard := s.log[shard] + [post]]
    requires Settled(s.links, s.linkGeneration, post.author)
    ensures forall a, n :: a in log' && 0 <= n < |log'[a]| ==> Settled(s.links, s.linkGeneration, log'[a][n].author)
    ensures forall n :: 0 <= n < |s.pushes| ==> PushOk(s.links, log', s.pushes[n])
    ensures forall n :: 0 <= n < |s.delivered| ==> Echoes(log', s.delivered[n])
  {
    forall e | Echoes(s.log, e)
      ensures Echoes(log', e)
    {
    }
  }

  lemma AuthorSettled(c: Config, s: State, shard: nat, id: nat)
    requires Roster(c, s) && Live(s.channels, shard, id)
    ensures Settled(s.links, s.linkGeneration, KeyOf(s.links, s.channels[shard].members[id]))
  {
    MemberSound(c, s, shard, id);
    assert LinkOk(c, s.linkGeneration, LinkOf(s.links, s.channels[shard].members[id].peer));
  }

  lemma FanoutOk(c: Config, s: State, shard: nat, id: nat, log': map<nat, seq<Post>>, n: nat, sender: nat, text: Text)
    requires Roster(c, s) && ValidConfig(c) && Live(s.channels, shard, id) && IsCounter(n) && sender != 0 && ValidChatText(text)
    requires shard in log' && |log'[shard]| == n && log'[shard][n - 1].text == text
    requires log'[shard][n - 1].author.membership.characterId == sender
    ensures var reserved := Reserved(s.links, s.channels[shard], n, sender, text);
            forall i :: 0 <= i < |reserved| ==> PushOk(s.links, log', reserved[i])
  {
    var channel := s.channels[shard];
    var ids := Ascending(channel.members.Keys);
    AscendingSorted(channel.members.Keys);
    FanoutEntries(s.links, channel, ids, n, sender, text);
    forall i | 0 <= i < |ids|
      ensures PushOk(s.links, log', Reserved(s.links, channel, n, sender, text)[i])
    {
      assert ids[i] in ids;
      PushToOk(c, s, shard, ids[i], log', n, sender, text);
    }
  }

  /** Every push built for a send passes the push validator, also when the budget then turns the
      send away: building it never throws. */
  lemma PushesLegal(c: Config, s: State, shard: nat, id: nat, text: Text)
    requires Roster(c, s) && ValidConfig(c) && Live(s.channels, shard, id) && ValidChatText(text)
    requires s.channels[shard].sequence < COUNTER_MAX
    ensures var reserved := Reserved(s.links, s.channels[shard], s.channels[shard].sequence + 1,
                                     s.channels[shard].members[id].membership.characterId, text);
            forall i :: 0 <= i < |reserved| ==> ValidPush(reserved[i].push, 0)
  {
    var m, n := s.channels[shard].members[id], s.channels[shard].sequence + 1;
    var post := Post(KeyOf(s.links, m), 1, text, m.refill);
    MemberSound(c, s, shard, id);
    hide Roster, Reserved, Echoes, ValidChatText;
    FanoutOk(c, s, shard, id, map[shard := seq(n, _ => post)], n, m.membership.characterId, text);
  }

  function Sent(m: Member, channel: ChannelState, request: SendChat): Member {
    m.(state := m.state.(lastReceipt := Some(Receipt(channel.epoch, channel.sequence + 1, request.clientSendSeq)),
                         lastClientSendSeq := request.clientSendSeq),
       lastText := request.text, tokens := m.tokens - 1.0)
  }

  /** What accepting `request` from member `id` does to the state. */
  ghost predicate Posted(c: Config, s: State, s': State, shard: nat, id: nat, request: SendChat)
    requires Live(s.channels, shard, id)
  {
    var channel := s.channels[shard];
    var n := channel.sequence + 1;
    var m := channel.members[id];
    && s'.links == s.links && s'.linkGeneration == s.linkGeneration && s'.delivered == s.delivered
    && s'.pushes == s.pushes + Reserved(s.links, channel, n, m.membership.characterId, request.text)
    && (shard in s.log ==> s'.log == s.log[shard := s.log[shard] + [Post(KeyOf(s.links, m), request.clientSendSeq, request.text, m.refill)]])
    && s'.channels == s.channels[shard := channel.(sequence := n, members := channel.members[id := Sent(m, channel, request)])]
  }

  /** A send leaves the state, only refills the bucket, or refills it and accepts. */
  lemma SendShape(c: Config, s: State, shard: nat, id: nat, request: SendChat, result: SendResult, now: int)
    requires Live(s.channels, shard, id)
    ensures var m := s.channels[shard].members[id];
            var s1 := s.(channels := WithMember(s.channels, shard, id, Refilled(m, now)));
            var s' := Send(c, s, shard, id, request, result, now).0;
            || s' == s || s' == s1
            || (Posted(c, s1, s', shard, id, request) && request.clientSendSeq == m.state.lastClientSendSeq + 1
                && Refilled(m, now).tokens >= 1.0 && s.channels[shard].sequence < COUNTER_MAX)
  {
    var s1 := s.(channels := WithMember(s.channels, shard, id, Refilled(s.channels[shard].members[id], now)));
  }

  /** Records after the log of one channel and the queue have grown together. */
  lemma RecordsGrown(s: State, s': State, shard: nat, post: Post, reserved: seq<PendingPush>)
    requires Records(s) && shard in s.log && s'.log == s.log[shard := s.log[shard] + [post]]
    requires s'.links == s.links && s'.linkGeneration == s.linkGeneration && s'.delivered == s.delivered
    requires s'.pushes == s.pushes + reserved && s'.channels.Keys == s.channels.Keys
    requires forall a :: a in s.channels ==> s'.channels[a].sequence == s.channels[a].sequence + (if a == shard then 1 else 0)
    requires Settled(s.links, s.linkGeneration, post.author)
    requires forall i :: 0 <= i < |reserved| ==> PushOk(s.links, s'.log, reserved[i])
    ensures Records(s')
  {
    RecordsLog(s, shard, post, s'.log);
  }

  lemma RecordsPost(c: Config, s: State, s': State, shard: nat, id: nat, request: SendChat)
    requires Roster(c, s) && Records(s) && ValidConfig(c) && Live(s.channels, shard, id) && ValidChatText(request.text)
    requires s.channels[shard].sequence < COUNTER_MAX && Posted(c, s, s', shard, id, request)
    ensures Records(s')
  {
    var channel := s.channels[shard];
    var m := channel.members[id];
    var n := channel.sequence + 1;
    MemberSound(c, s, shard, id);
    AuthorSettled(c, s, shard, id);
    FanoutOk(c, s, shard, id, s'.log, n, m.membership.characterId, request.text);
    RecordsGrown(s, s', shard, Post(KeyOf(s.links, m), request.clientSendSeq, request.text, m.refill),
                 Reserved(s.links, channel, n, m.membership.characterId, request.text));
  }

  lemma MemberStreamsPost(c: Config, s: State, s': State, shard: nat, id: nat, request: SendChat)
    requires Roster(c, s) && Streams(s) && Live(s.channels, shard, id) && Posted(c, s, s', shard, id, request)
    requires request.clientSendSeq == s.channels[shard].members[id].state.lastClientSendSeq + 1
    ensures MemberStreams(s')
  {
    forall a, i | Live(s'.channels, a, i)
      ensures s'.channels[a].members[i].state.joinWatermark <= s'.channels[a].sequence
      ensures MemberStream(s'.links, s'.delivered + s'.pushes, s'.log[a], s'.channels[a].sequence, s'.channels[a].members[i])
    {
      assert Live(s.channels, a, i);
      PostedFields(c, s, s', shard, id, request, a, i);
      MemberStreamPost(c, s, s', shard, id, request, a, i);
    }
  }

  /** The part of `Posted` that one member's stream depends on. */
  ghost predicate PostedAt(s: State, s': State, shard: nat, id: nat, request: SendChat, a: nat, i: nat)
    requires Live(s.channels, shard, id) && Live(s.channels, a, i) && a in s.log
  {
    var author := s.channels[shard].members[id];
    && Live(s'.channels, a, i) && a in s'.log
    && s'.links == s.links && s'.delivered + s'.pushes == (s.delivered + s.pushes)
       + Reserved(s.links, s.channels[shard], s.channels[shard].sequence + 1, author.membership.characterId, request.text)
    && if a != shard then s'.channels[a] == s.channels[a] && s'.log[a] == s.log[a]
       else
         && s'.channels[a].sequence == s.channels[a].sequence + 1
         && s'.channels[a].members[i] == (if i == id then Sent(s.channels[a].members[i], s.channels[a], request) else s.channels[a].members[i])
         && s'.log[a] == s.log[a] + [Post(KeyOf(s.links, author), request.clientSendSeq, request.text, author.refill)]
  }

  lemma PostedFields(c: Config, s: State, s': State, shard: nat, id: nat, request: SendChat, a: nat, i: nat)
    requires Live(s.channels, shard, id) && Posted(c, s, s', shard, id, request) && shard in s.log && a in s.log
    requires Live(s.channels, a, i)
    ensures PostedAt(s, s', shard, id, request, a, i)
  {
  }

  lemma LogKept(s: State, shard: nat)
    requires Records(s) && shard in s.channels
    ensures shard in s.log && s.channels[shard].sequence == |s.log[shard]|
  {
  }

  /** The stream of a member of the channel, over the lengthened queue and log. */
  lemma GrownHere(c: Config, s: State, shard: nat, id: nat, request: SendChat, i: nat)
    requires Roster(c, s) && Streams(s) && Live(s.channels, shard, id) && Live(s.channels, shard, i)
    requires request.clientSendSeq == s.channels[shard].members[id].state.lastClientSendSeq + 1
    ensures var channel := s.channels[shard];
            var author := channel.members[id];
            var reserved := Reserved(s.links, channel, channel.sequence + 1, author.membership.characterId, request.text);
            var post := Post(KeyOf(s.links, author), request.clientSendSeq, request.text, author.refill);
            var m := channel.members[i];
            && m.state.joinWatermark <= channel.sequence && shard in s.log
            && MemberStream(s.links, (s.delivered + s.pushes) + reserved, s.log[shard] + [post], channel.sequence + 1,
                            if i == id then Sent(m, channel, request) else m)
  {
    hide Roster, Records, MemberStream, Stream, Own, Reserved, Counters;
    LogKept(s, shard);
    var channel := s.channels[shard];
    var author := channel.members[id];
    var reserved := Reserved(s.links, channel, channel.sequence + 1, author.membership.characterId, request.text);
    var post := Post(KeyOf(s.links, author), request.clientSendSeq, request.text, author.refill);
    StreamGrows(c, s, shard, channel.sequence + 1, author.membership.characterId, request.text, shard, i);
    OwnGrows(c, s, shard, id, i, post);
    MemberStreamExtends(s.links, s.delivered + s.pushes, reserved, s.log[shard], post, channel, channel.members[i], i == id, request);
  }

  lemma GrownElsewhere(c: Config, s: State, shard: nat, id: nat, request: SendChat, a: nat, i: nat)
    requires Roster(c, s) && Streams(s) && Live(s.channels, shard, id) && Live(s.channels, a, i)
    requires request.clientSendSeq == s.channels[shard].members[id].state.lastClientSendSeq + 1
    requires a != shard
    ensures var channel := s.channels[shard];
            var reserved := Reserved(s.links, channel, channel.sequence + 1, channel.members[id].membership.characterId, request.text);
            var m := s.channels[a].members[i];
            && m.state.joinWatermark <= s.channels[a].sequence && a in s.log
            && MemberStream(s.links, (s.delivered + s.pushes) + reserved, s.log[a], s.channels[a].sequence, m)
  {
    hide Roster, Records, MemberStream, Reserved, Stream, Own;
    var channel := s.channels[shard];
    var reserved := Reserved(s.links, channel, channel.sequence + 1, channel.members[id].membership.characterId, request.text);
    StreamGrows(c, s, shard, channel.sequence + 1, channel.members[id].membership.characterId, request.text, a, i);
    MemberStreamElsewhere(s.links, s.delivered + s.pushes, reserved, s.log[a], s.channels[a].sequence, s.channels[a].members[i]);
  }

  lemma MemberStreamPost(c: Config, s: State, s': State, shard: nat, id: nat, request: SendChat, a: nat, i: nat)
    requires Roster(c, s) && Streams(s) && Live(s.channels, shard, id) && Live(s.channels, a, i)
    requires request.clientSendSeq == s.channels[shard].members[id].state.lastClientSendSeq + 1
    requires a in s.log && PostedAt(s, s', shard, id, request, a, i)
    ensures Live(s'.channels, a, i) && a in s'.log && s'.channels[a].members[i].state.joinWatermark <= s'.channels[a].sequence
    ensures MemberStream(s'.links, s'.delivered + s'.pushes, s'.log[a], s'.channels[a].sequence, s'.channels[a].members[i])
  {
    hide Roster, Streams, MemberStream, Stream, Own, Reserved;
    if a == shard {
      GrownHere(c, s, shard, id, request, i);
    } else {
      GrownElsewhere(c, s, shard, id, request, a, i);
    }
  }

  lemma MemberStreamElsewhere(links: map<nat, LinkState>, es: seq<PendingPush>, reserved: seq<PendingPush>, posts: seq<Post>,
                              sequence: nat, m: Member)
    requires m.state.joinWatermark <= sequence && MemberStream(links, es, posts, sequence, m)
    requires Stream(es + reserved, KeyOf(links, m)) == Stream(es, KeyOf(links, m)) + []
    ensures MemberStream(links, es + reserved, posts, sequence, m)
  {
  }

  /** One member's stream after one more message in its channel, its own or not. */
  lemma MemberStreamExtends(links: map<nat, LinkState>, es: seq<PendingPush>, reserved: seq<PendingPush>, posts: seq<Post>, post: Post,
                            channel: ChannelState, m: Member, own: bool, request: SendChat)
    requires m.state.joinWatermark <= channel.sequence == |posts| && MemberStream(links, es, posts, channel.sequence, m)
    requires Stream(es + reserved, KeyOf(links, m)) == Stream(es, KeyOf(links, m)) + [channel.sequence + 1]
    requires Own(posts + [post], KeyOf(links, m)) == Own(posts, KeyOf(links, m)) + (if own then [post.clientSendSeq] else [])
    requires own ==> (request.clientSendSeq == m.state.lastClientSendSeq + 1
                      && post == Post(KeyOf(links, m), request.clientSendSeq, request.text, m.refill))
    ensures MemberStream(links, es + reserved, posts + [post], channel.sequence + 1, if own then Sent(m, channel, request) else m)
  {
    CountersExtend(m.state.joinWatermark, channel.sequence);
    CountersExtend(0, m.state.lastClientSendSeq);
    assert KeyOf(links, Sent(m, channel, request)) == KeyOf(links, m);
  }

  /** One accepted message lengthens every stream of its channel by its counter, and no other. */
  lemma StreamGrows(c: Config, s: State, shard: nat, n: nat, sender: nat, text: Text, a: nat, i: nat)
    requires Roster(c, s) && shard in s.channels && Live(s.channels, a, i)
    ensures var reserved := Reserved(s.links, s.channels[shard], n, sender, text);
            var k := KeyOf(s.links, s.channels[a].members[i]);
            Stream(s.delivered + s.pushes + reserved, k)
            == Stream(s.delivered + s.pushes, k) + (if a == shard then [n] else [])
  {
    var channel := s.channels[shard];
    var ids := Ascending(channel.members.Keys);
    AscendingSorted(channel.members.Keys);
    var target := s.channels[a].members[i];
    MemberSound(c, s, a, i);
    forall j | 0 <= j < |ids|
      ensures channel.members[ids[j]].membership.characterId == ids[j]
      ensures channel.members[ids[j]].membership.channel == channel.epoch.channel
    {
      assert ids[j] in ids;
      MemberSound(c, s, shard, ids[j]);
    }
    assert ChannelOk(c, s.links, shard, channel);
    assert target.membership.channel == channel.epoch.channel ==> a == shard;
    FanoutStream(s.links, channel, ids, n, sender, text, target);
    StreamConcat(s.delivered + s.pushes, Fanout(s.links, channel, ids, n, sender, text), KeyOf(s.links, target));
  }

  /** Only the author's own count grows. */
  lemma OwnGrows(c: Config, s: State, shard: nat, id: nat, i: nat, post: Post)
    requires Roster(c, s) && Live(s.channels, shard, id) && Live(s.channels, shard, i) && shard in s.log
    requires post.author == KeyOf(s.links, s.channels[shard].members[id])
    ensures Own(s.log[shard] + [post], KeyOf(s.links, s.channels[shard].members[i]))
            == Own(s.log[shard], KeyOf(s.links, s.channels[shard].members[i])) + (if i == id then [post.clientSendSeq] else [])
  {
    MemberSound(c, s, shard, i);
    MemberSound(c, s, shard, id);
    assert (s.log[shard] + [post])[..|s.log[shard]|] == s.log[shard];
  }

  lemma StreamsSend(c: Config, s: State, shard: nat, id: nat, request: SendChat, result: SendResult, now: int)
    requires Roster(c, s) && Streams(s) && ValidConfig(c) && Live(s.channels, shard, id) && ValidChatText(request.text)
    ensures Streams(Send(c, s, shard, id, request, result, now).0)
  {
    var m := s.channels[shard].members[id];
    var s' := Send(c, s, shard, id, request, result, now).0;
    SendShape(c, s, shard, id, request, result, now);
    MemberSound(c, s, shard, id);
    RefilledBounds(m, now);
    var s1 := s.(channels := WithMember(s.channels, shard, id, Refilled(m, now)));
    RosterUpdate(c, s, s1, shard, id);
    StreamsRefill(c, s, shard, id, now);
    if s' != s && s' != s1 {
      RecordsPost(c, s1, s', shard, id, request);
      MemberStreamsPost(c, s1, s', shard, id, request);
    }
  }

  lemma StreamsHandle(c: Config, s: State, peer: nat, r: Request, id: nat, now: int)
    requires Roster(c, s) && Streams(s) && ValidConfig(c) && peer in s.links && ValidRequest(r, id)
    ensures Streams(Handle(c, s, peer, r, now).0)
  {
    var s' := Handle(c, s, peer, r, now).0;
    if s' != s {
      var m := MembershipOf(r);
      if r.operation == OpHello {
        StreamsHello(c, s, peer, r);
      } else if r.operation == OpLeave {
        StreamsLeave(c, s, peer, r);
      } else if r.operation == OpJoin {
        StreamsJoin(c, s, peer, r, now);
      } else {
        StreamsSend(c, s, m.channel.shardId, m.characterId, SendOf(r), BlankResult(SendOf(r)), now);
      }
    }
  }

  /** Moving the front push to the delivered history, or dropping it. */
  ghost predicate Drained(s: State, s': State)
    requires s.pushes != []
  {
    && s'.channels == s.channels && s'.links == s.links && s'.linkGeneration == s.linkGeneration && s'.log == s.log
    && s.pushes == [s.pushes[0]] + s'.pushes
    && s'.delivered == s.delivered + (if IsMember(s.channels, s.pushes[0].peer, s.pushes[0].membership) then [s.pushes[0]] else [])
  }

  lemma RecordsDrainOne(c: Config, s: State, s': State)
    requires Roster(c, s) && Records(s) && s.pushes != [] && Drained(s, s')
    ensures Records(s')
  {
    assert PushOk(s.links, s.log, s.pushes[0]);
    assert LinkOk(c, s.linkGeneration, s.pushes[0].push.link);
    forall n | 0 <= n < |s'.pushes|
      ensures PushOk(s'.links, s'.log, s'.pushes[n])
    {
      assert s'.pushes[n] == s.pushes[n + 1];
    }
  }

  lemma DrainedStream(s: State, s': State, a: nat, i: nat)
    requires s.pushes != [] && Drained(s, s') && Live(s.channels, a, i)
    requires s.channels[a].members[i].membership.characterId == i && s.channels[a].members[i].membership.channel.shardId == a
    ensures SameStay(s, s', a, i)
  {
    var e := s.pushes[0];
    var k := KeyOf(s.links, s.channels[a].members[i]);
    StreamConcat([e], s'.pushes, k);
    StreamConcat(s.delivered, s.pushes, k);
    StreamConcat(s'.delivered, s'.pushes, k);
    if IsMember(s.channels, e.peer, e.membership) {
      StreamConcat(s.delivered, [e], k);
    } else {
      assert PushKey(e) != k;
      StreamNone([e], k);
      assert s'.delivered == s.delivered;
    }
  }

  /** A drained push disturbs no live stream. */
  lemma StreamsDrainOne(c: Config, s: State)
    requires Roster(c, s) && Streams(s) && s.pushes != []
    ensures Streams(DrainOne(c, s))
  {
    var s' := DrainOne(c, s);
    assert s.pushes == [s.pushes[0]] + s'.pushes;
    assert s'.delivered == s.delivered + (if IsMember(s.channels, s.pushes[0].peer, s.pushes[0].membership) then [s.pushes[0]] else []);
    RecordsDrainOne(c, s, s');
    forall a, i | Live(s'.channels, a, i)
      ensures Live(s.channels, a, i) && SameStay(s, s', a, i)
    {
      MemberSound(c, s, a, i);
      DrainedStream(s, s', a, i);
    }
    MemberStreamsFrame(s, s');
  }
}
