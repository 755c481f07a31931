/** Pace: for every stay that ever posted, live or gone, the client counters accepted are
    1, 2, 3, ... and between any two of its posts the token bucket bounds how many there are. */
module ChatPace {
  import opened Basics
  import opened ChatProtocol
  import opened ChatSequencer
  import opened ChatRoster
  import opened ChatStreams

  /** When the messages of one stay were accepted. */
  ghost function Times(posts: seq<Post>, k: Key): seq<int> {
    if posts == [] then []
    else Times(posts[..|posts| - 1], k) + (if posts[|posts| - 1].author == k then [posts[|posts| - 1].acceptedAt] else [])
  }

  /** No window between two accepted messages holds more than the burst and what it earned. */
  ghost predicate Paced(times: seq<int>) {
    forall x, y :: 0 <= x <= y < |times| ==>
      times[x] <= times[y] && (y - x + 1) as real <= SEND_BURST + Earned(times[y] - times[x])
  }

  /** The tokens left are within what the accepted messages have not used. */
  ghost predicate Funded(times: seq<int>, tokens: real, refill: int) {
    && tokens <= SEND_BURST
    && forall x :: 0 <= x < |times| ==>
         times[x] <= refill && (|times| - x) as real + tokens <= SEND_BURST + Earned(refill - times[x])
  }

  ghost predicate StayPaced(posts: seq<Post>, k: Key) {
    Paced(Times(posts, k)) && Own(posts, k) == Counters(0, |Own(posts, k)|)
  }

  ghost predicate MemberFunded(s: State, a: nat, i: nat)
    requires Live(s.channels, a, i) && a in s.log
  {
    var m := s.channels[a].members[i];
    Funded(Times(s.log[a], KeyOf(s.links, m)), m.tokens, m.refill)
  }

  ghost predicate Pace(s: State) {
    && s.log.Keys == s.channels.Keys
    && (forall a, k :: a in s.log ==> StayPaced(s.log[a], k))
    && (forall a, i :: Live(s.channels, a, i) ==> MemberFunded(s, a, i))
  }

  lemma {:induction false} TimesNone(posts: seq<Post>, k: Key)
    requires forall n :: 0 <= n < |posts| ==> posts[n].author != k
    ensures Times(posts, k) == []
  {
    if posts != [] {
      TimesNone(posts[..|posts| - 1], k);
    }
  }

  lemma FundedRefill(times: seq<int>, m: Member, now: int)
    requires Funded(times, m.tokens, m.refill)
    ensures Funded(times, Refilled(m, now).tokens, Refilled(m, now).refill)
  {
  }

  lemma FundedPost(times: seq<int>, tokens: real, refill: int)
    requires Funded(times, tokens, refill) && Paced(times) && tokens >= 1.0
    ensures Funded(times + [refill], tokens - 1.0, refill) && Paced(times + [refill])
  {
    var next := times + [refill];
    forall x, y | 0 <= x <= y < |next|
      ensures next[x] <= next[y] && (y - x + 1) as real <= SEND_BURST + Earned(next[y] - next[x])
    {
      if y < |times| {
        assert next[x] == times[x] && next[y] == times[y];
      } else if x < |times| {
        assert next[x] == times[x];
      }
    }
  }

  /** Members may go; those that stay keep key and bucket. */
  ghost predicate SameBucket(s: State, s': State, a: nat, i: nat)
    requires Live(s.channels, a, i) && Live(s'.channels, a, i)
  {
    var m := s.channels[a].members[i];
    var m' := s'.channels[a].members[i];
    KeyOf(s'.links, m') == KeyOf(s.links, m) && m'.tokens == m.tokens && m'.refill == m.refill
  }

  lemma PaceFrame(s: State, s': State)
    requires Pace(s) && s'.log == s.log && s'.channels.Keys == s.channels.Keys
    requires forall a, i :: Live(s'.channels, a, i) ==> Live(s.channels, a, i) && SameBucket(s, s', a, i)
    ensures Pace(s')
  {
    forall a, i | Live(s'.channels, a, i)
      ensures MemberFunded(s', a, i)
    {
      assert Live(s.channels, a, i) && SameBucket(s, s', a, i);
      assert MemberFunded(s, a, i);
    }
  }

  lemma PaceSameLinks(c: Config, s: State, s': State)
    requires Roster(c, s) && Pace(s) && s'.log == s.log && s'.channels == s.channels && SameLinks(s.links, s'.links)
    ensures Pace(s')
  {
    MembersLinked(c, s);
    PaceFrame(s, s');
  }

  lemma PaceClosed(c: Config, s: State, peer: nat)
    requires Roster(c, s) && Pace(s)
    ensures Pace(Closed(c, s, peer))
  {
    WithoutMembersLive(s.channels, peer);
    MembersLinked(c, s);
    PaceFrame(s, Closed(c, s, peer));
  }

  lemma PaceReplace(c: Config, s: State, peers: seq<nat>)
    requires Roster(c, s) && Pace(s)
    ensures Pace(Replace(c, s, peers))
  {
    if peers != [] {
      var rest := Replace(c, s, peers[..|peers| - 1]);
      ReplaceLinks(c, s, peers[..|peers| - 1]);
      PaceReplace(c, s, peers[..|peers| - 1]);
      PaceClosed(c, rest, peers[|peers| - 1]);
    }
  }

  lemma PaceHello(c: Config, s: State, peer: nat, r: Request)
    requires Roster(c, s) && Pace(s) && peer in s.links && IsIdentity(c.incarnation)
    requires ValidLink(r.link, true) && r.link.realmId == c.realmId
    requires r.link.realmInstanceId == c.realmInstanceId && r.link.chatInstanceId == c.instanceId
    ensures Pace(Hello(c, s, peer, r).0)
  {
    var s' := Hello(c, s, peer, r).0;
    if s' != s {
      var others := Ascending(Established(s.links) - {peer});
      PaceReplace(c, s, others);
      RosterHello(c, s, peer, r);
      PaceFrame(Replace(c, s, others), s');
    }
  }

  lemma PaceJoin(c: Config, s: State, peer: nat, r: Request, now: int)
    requires Roster(c, s) && Streams(s) && Pace(s) && HasLink(s.links, peer) && MembershipOf(r).channel.shardId in s.channels
    ensures Pace(Join(s, peer, r, now).0)
  {
    var m := MembershipOf(r);
    var shard := m.channel.shardId;
    var s' := Join(s, peer, r, now).0;
    if s' != s {
      var joined := FreshMember(s.channels[shard], peer, m, now);
      JoinerHasNoTimes(c, s, shard, joined);
      MembersLinked(c, s);
      assert SameLinks(s.links, s'.links);
      PaceJoined(s, s', shard, joined);
    }
  }

  lemma JoinerHasNoTimes(c: Config, s: State, shard: nat, joined: Member)
    requires Roster(c, s) && Records(s) && HasLink(s.links, joined.peer) && shard in s.log
    requires joined.membership.generation > s.links[joined.peer].highestGeneration
    ensures Times(s.log[shard], KeyOf(s.links, joined)) == []
  {
    assert LinkOk(c, s.linkGeneration, s.links[joined.peer].link.value);
    FreshStay(s, KeyOf(s.links, joined));
    TimesNone(s.log[shard], KeyOf(s.links, joined));
  }

  lemma PaceJoined(s: State, s': State, shard: nat, joined: Member)
    requires Pace(s) && s'.log == s.log && shard in s.channels && SameLinks(s.links, s'.links)
    requires HasLink(s.links, joined.peer) && joined.tokens == SEND_BURST
    requires s'.channels == WithMember(s.channels, shard, joined.membership.characterId, joined)
    requires forall a, i :: Live(s.channels, a, i) ==> HasLink(s.links, s.channels[a].members[i].peer)
    requires Times(s.log[shard], KeyOf(s.links, joined)) == []
    ensures Pace(s')
  {
    forall a, i | Live(s'.channels, a, i)
      ensures MemberFunded(s', a, i)
    {
      if a == shard && i == joined.membership.characterId {
        assert KeyOf(s'.links, joined) == KeyOf(s.links, joined);
      } else {
        assert Live(s.channels, a, i) && s'.channels[a].members[i] == s.channels[a].members[i];
        assert MemberFunded(s, a, i);
      }
    }
  }

  lemma PaceLeave(c: Config, s: State, peer: nat, r: Request)
    requires Roster(c, s) && Pace(s) && HasLink(s.links, peer) && MembershipOf(r).channel.shardId in s.channels
    ensures Pace(Leave(s, peer, r).0)
  {
    LeaveLive(s, peer, r);
    MembersLinked(c, s);
    PaceFrame(s, Leave(s, peer, r).0);
  }

  lemma PaceRefill(s: State, shard: nat, id: nat, now: int)
    requires Pace(s) && Live(s.channels, shard, id)
    ensures Pace(s.(channels := WithMember(s.channels, shard, id, Refilled(s.channels[shard].members[id], now))))
  {
    var m := s.channels[shard].members[id];
    var s' := s.(channels := WithMember(s.channels, shard, id, Refilled(m, now)));
    forall a, i | Live(s'.channels, a, i)
      ensures MemberFunded(s', a, i)
    {
      assert Live(s.channels, a, i);
      assert MemberFunded(s, a, i);
      FundedRefill(Times(s.log[shard], KeyOf(s.links, m)), m, now);
    }
  }

  /** One more post by a funded stay keeps its own record paced and numbered, and all others as they were. */
  lemma StayPost(posts: seq<Post>, post: Post, tokens: real, last: nat, q: Key)
    requires StayPaced(posts, q)
    requires Funded(Times(posts, post.author), tokens, post.acceptedAt) && tokens >= 1.0
    requires Own(posts, post.author) == Counters(0, last) && post.clientSendSeq == last + 1
    ensures StayPaced(posts + [post], q)
    ensures Times(posts + [post], q) == if q == post.author then Times(posts, q) + [post.acceptedAt] else Times(posts, q)
  {
    assert (posts + [post])[..|posts|] == posts;
    if q == post.author {
      FundedPost(Times(posts, q), tokens, post.acceptedAt);
      CountersExtend(0, last);
    }
  }

  lemma PostPaced(c: Config, s: State, s': State, shard: nat, id: nat, request: SendChat, a: nat, q: Key)
    requires Roster(c, s) && Streams(s) && Pace(s) && Live(s.channels, shard, id) && Posted(c, s, s', shard, id, request)
    requires request.clientSendSeq == s.channels[shard].members[id].state.lastClientSendSeq + 1
    requires s.channels[shard].members[id].tokens >= 1.0 && a in s.log
    ensures a in s'.log && StayPaced(s'.log[a], q)
  {
    hide Roster, Records, Stream, Own, Reserved, Counters, Funded, Paced;
    var m := s.channels[shard].members[id];
    assert MemberFunded(s, shard, id) && StayPaced(s.log[a], q);
    if a == shard {
      assert Own(s.log[shard], KeyOf(s.links, m)) == Counters(0, m.state.lastClientSendSeq);
      hide StayPaced;
      StayPost(s.log[shard], Post(KeyOf(s.links, m), request.clientSendSeq, request.text, m.refill), m.tokens,
               m.state.lastClientSendSeq, q);
    }
  }

  lemma PacePost(c: Config, s: State, s': State, shard: nat, id: nat, request: SendChat)
    requires Roster(c, s) && Streams(s) && Pace(s) && Live(s.channels, shard, id) && Posted(c, s, s', shard, id, request)
    requires request.clientSendSeq == s.channels[shard].members[id].state.lastClientSendSeq + 1
    requires s.channels[shard].members[id].tokens >= 1.0
    ensures Pace(s')
  {
    hide Roster, Streams, MemberFunded, StayPaced, Reserved, Sent;
    assert shard in s.log;
    forall a, q | a in s'.log
      ensures StayPaced(s'.log[a], q)
    {
      PostPaced(c, s, s', shard, id, request, a, q);
    }
    forall a, i | Live(s'.channels, a, i)
      ensures MemberFunded(s', a, i)
    {
      assert Live(s.channels, a, i);
      MemberPacePost(c, s, s', shard, id, request, a, i);
    }
  }

  lemma MemberPacePost(c: Config, s: State, s': State, shard: nat, id: nat, request: SendChat, a: nat, i: nat)
    requires Roster(c, s) && Streams(s) && Pace(s) && Live(s.channels, shard, id) && Posted(c, s, s', shard, id, request)
    requires request.clientSendSeq == s.channels[shard].members[id].state.lastClientSendSeq + 1
    requires s.channels[shard].members[id].tokens >= 1.0 && Live(s.channels, a, i)
    ensures Live(s'.channels, a, i) && a in s'.log && MemberFunded(s', a, i)
  {
    var author := s.channels[shard].members[id];
    var m := s.channels[a].members[i];
    var k := KeyOf(s.links, m);
    PostedFields(c, s, s', shard, id, request, a, i);
    assert MemberFunded(s, a, i) && MemberFunded(s, shard, id) && StayPaced(s.log[a], k);
    if a == shard {
      var post := Post(KeyOf(s.links, author), request.clientSendSeq, request.text, author.refill);
      MemberSound(c, s, a, i);
      MemberSound(c, s, shard, id);
      StayPost(s.log[shard], post, author.tokens, author.state.lastClientSendSeq, k);
      if i == id {
        FundedPost(Times(s.log[shard], k), m.tokens, m.refill);
        assert KeyOf(s'.links, s'.channels[a].members[i]) == k;
      }
    }
  }

  lemma PaceSend(c: Config, s: State, shard: nat, id: nat, request: SendChat, result: SendResult, now: int)
    requires Roster(c, s) && Streams(s) && Pace(s) && Live(s.channels, shard, id)
    ensures Pace(Send(c, s, shard, id, request, result, now).0)
  {
    var m := s.channels[shard].members[id];
    var s' := Send(c, s, shard, id, request, result, now).0;
    var s1 := s.(channels := WithMember(s.channels, shard, id, Refilled(m, now)));
    SendShape(c, s, shard, id, request, result, now);
    PaceRefill(s, shard, id, now);
    if s' != s && s' != s1 {
      MemberSound(c, s, shard, id);
      RefilledBounds(m, now);
      RosterUpdate(c, s, s1, shard, id);
      StreamsRefill(c, s, shard, id, now);
      PacePost(c, s1, s', shard, id, request);
    }
  }

  lemma PaceHandle(c: Config, s: State, peer: nat, r: Request, id: nat, now: int)
    requires Roster(c, s) && Streams(s) && Pace(s) && ValidConfig(c) && peer in s.links && ValidRequest(r, id)
    ensures Pace(Handle(c, s, peer, r, now).0)
  {
    var s' := Handle(c, s, peer, r, now).0;
    if s' != s {
      var m := MembershipOf(r);
      if r.operation == OpHello {
        PaceHello(c, s, peer, r);
      } else if r.operation == OpLeave {
        PaceLeave(c, s, peer, r);
      } else if r.operation == OpJoin {
        PaceJoin(c, s, peer, r, now);
      } else {
        PaceSend(c, s, m.channel.shardId, m.characterId, SendOf(r), BlankResult(SendOf(r)), now);
      }
    }
  }
}
