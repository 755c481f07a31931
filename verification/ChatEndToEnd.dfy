/** Sequencer and client together: what one member's client shows its caller is a gap-free
    prefix of what the channel accepted since the member joined. */
module ChatEndToEnd {
  import opened Basics
  import opened Filters
  import opened ChatProtocol
  import opened ChatSequencer
  import opened ChatRoster
  import opened ChatStreams
  import opened ChatSafety
  import opened ChatStays
  import Client = ChatClient
  import opened ChatClientSafety

  /** The messages handed to the transport for one stay, in order. */
  function Sent(es: seq<PendingPush>, k: Key): seq<ChatMessage> {
    if es == [] then []
    else Sent(es[..|es| - 1], k) + (if PushKey(es[|es| - 1]) == k then [es[|es| - 1].push.message] else [])
  }

  lemma {:induction false} SentStream(es: seq<PendingPush>, k: Key)
    ensures |Sent(es, k)| == |Stream(es, k)|
    ensures forall i :: 0 <= i < |Sent(es, k)| ==> Sent(es, k)[i].channelSeq == Stream(es, k)[i]
    ensures forall m :: m in Sent(es, k) ==> exists n :: 0 <= n < |es| && es[n].push.message == m
  {
    if es != [] {
      SentStream(es[..|es| - 1], k);
      forall m | m in Sent(es, k)
        ensures exists n :: 0 <= n < |es| && es[n].push.message == m
      {
        if m in Sent(es[..|es| - 1], k) {
          var n :| 0 <= n < |es| - 1 && es[..|es| - 1][n].push.message == m;
          assert es[n].push.message == m;
        } else {
          assert es[|es| - 1].push.message == m;
        }
      }
    }
  }

  function StayOf(channel: ChannelState, m: Member): Stay {
    Stay(channel.epoch.channel.kind, m.membership.generation, channel.epoch, m.state.joinWatermark)
  }

  /** The message says what the channel accepted at its place. */
  ghost predicate Quotes(m: ChatMessage, posts: seq<Post>) {
    && 1 <= m.channelSeq <= |posts| && m.text == posts[m.channelSeq - 1].text
    && m.senderCharacterId == posts[m.channelSeq - 1].author.membership.characterId
  }

  lemma SentFacts(s: State, shard: nat, k: Key, w: nat)
    requires Records(s) && shard in s.log && Stream(s.delivered, k) == Counters(w, w + |Stream(s.delivered, k)|)
    ensures Consecutive(Sent(s.delivered, k), w)
    ensures var sent := Sent(s.delivered, k);
            forall i :: 0 <= i < |sent| && sent[i].epoch.channel.shardId == shard ==> Quotes(sent[i], s.log[shard])
  {
    hide Stream;
    SentStream(s.delivered, k);
    var sent := Sent(s.delivered, k);
    forall i | 0 <= i < |sent| && sent[i].epoch.channel.shardId == shard
      ensures Quotes(sent[i], s.log[shard])
    {
      assert sent[i] in sent;
      var n :| 0 <= n < |s.delivered| && s.delivered[n].push.message == sent[i];
      assert Echoes(s.log, s.delivered[n]);
    }
  }

  lemma {:induction false} ArrivedBelong(stay: Stay, es: seq<Client.Event>)
    ensures forall i :: 0 <= i < |Arrived(stay, es)| ==> Belongs(stay, Arrived(stay, es)[i])
  {
    if es != [] {
      ArrivedBelong(stay, es[..|es| - 1]);
    }
  }

  /** A state reply that reaches the client for the stay's channel kind is one the server made, at
      any time of the run, to that very stay; no notice says that the stay is lost. */
  ghost predicate Relayed(c: Config, events: seq<Event>, k: Key, kind: ChannelKind, e: Client.Event) {
    match e
    case EvFrame(Unavailable(u)) => u.kind != kind
    case EvState(state) =>
      state.kind == kind && state.phase.PhaseActive? ==>
        exists m, q :: 0 <= m <= |events| && q in Run(c, events[..m]).replies && TellsState(q) && ReplyKey(q) == k
                       && q.message.state.value == state
    case _ => true
  }

  /** The server's own replies fit the stay. */
  lemma RelayedFits(c: Config, events: seq<Event>, n: nat, shard: nat, id: nat, e: Client.Event)
    requires ValidConfig(c) && n <= |events| && Live(Run(c, events[..n]).channels, shard, id)
    requires var s := Run(c, events[..n]);
             var m := s.channels[shard].members[id];
             Relayed(c, events, KeyOf(s.links, m), s.channels[shard].epoch.channel.kind, e)
    ensures var s := Run(c, events[..n]); Fits(StayOf(s.channels[shard], s.channels[shard].members[id]), e)
  {
    hide Run;
    var s := Run(c, events[..n]);
    var k := KeyOf(s.links, s.channels[shard].members[id]);
    StayFacts(c, events[..n], shard, id);
    if e.EvState? && e.state.kind == s.channels[shard].epoch.channel.kind && e.state.phase.PhaseActive? {
      var m, q :| 0 <= m <= |events| && q in Run(c, events[..m]).replies && TellsState(q) && ReplyKey(q) == k
                  && q.message.state.value == e.state;
      RepliesNameTheStay(c, events, n, shard, id, m, q);
    }
  }

  lemma StayFacts(c: Config, events: seq<Event>, shard: nat, id: nat)
    requires ValidConfig(c) && Live(Run(c, events).channels, shard, id)
    ensures var s := Run(c, events);
            var m := s.channels[shard].members[id];
            && s.channels[shard].epoch == EpochOf(c, shard) && m.state.epoch == Some(EpochOf(c, shard))
            && m.state.generation == m.membership.generation != 0 && IsKind(EpochOf(c, shard).channel.kind) && shard in c.shards
  {
    hide Run, Inv;
    Reachable(c, events);
    InvParts(c, Run(c, events));
    MemberSound(c, Run(c, events), shard, id);
  }

  /** A member's client, whether the member is live still or has left, given the messages handed
      out to that stay as far as they got, with the server's state replies to it and anything else
      in between, has while open shown its caller a prefix of them: channel counters w+1, w+2, ...
      without a gap, each with the author and text accepted at that place. */
  lemma EndToEnd(c: Config, events: seq<Event>, n: nat, shard: nat, id: nat, z: Client.Sizes, client: Client.Client, es: seq<Client.Event>)
    requires ValidConfig(c) && n <= |events| && Live(Run(c, events[..n]).channels, shard, id)
    requires var s := Run(c, events[..n]);
             var m := s.channels[shard].members[id];
             var stay := StayOf(s.channels[shard], m);
             && Sound(z, client) && NewTo(client, stay) && client.exposed == []
             && (forall i :: 0 <= i < |es| ==> Client.Decoded(es[i]) && Relayed(c, events, KeyOf(s.links, m), stay.kind, es[i]))
             && Arrived(stay, es) <= Sent(Run(c, events).delivered, KeyOf(s.links, m))
    ensures var s := Run(c, events[..n]);
            var m := s.channels[shard].members[id];
            var stay := StayOf(s.channels[shard], m);
            var after := Client.Run(z, client, es);
            var shown := Heard(stay, after.exposed);
            after.open ==>
              && shown <= Arrived(stay, es)
              && Consecutive(shown, m.state.joinWatermark)
              && shard in Run(c, events).log && (forall i :: 0 <= i < |shown| ==> Quotes(shown[i], Run(c, events).log[shard]))
              && Filter(LostOf(stay.kind), Shown(after)) == Filter(LostOf(stay.kind), Shown(client))
  {
    hide Run, Client.Run, Client.Decoded, Relayed, Inv, Roster, Records, Sound, NewTo, Sent, Heard, Filter, Stream;
    var s, last := Run(c, events[..n]), Run(c, events);
    var m := s.channels[shard].members[id];
    var k, stay := KeyOf(s.links, m), StayOf(s.channels[shard], m);
    StayFacts(c, events[..n], shard, id);
    Reachable(c, events);
    InvParts(c, last);
    LogShards(c, last);
    StayHandedInOrder(c, events, n, shard, id);
    SentFacts(last, shard, k, m.state.joinWatermark);
    forall i | 0 <= i < |es|
      ensures Fits(stay, es[i])
    {
      RelayedFits(c, events, n, shard, id, es[i]);
    }
    ShownInFull(z, client, stay, es, Sent(last.delivered, k), last.log[shard]);
  }

  lemma LogShards(c: Config, s: State)
    requires Roster(c, s) && Records(s)
    ensures s.log.Keys == c.shards
  {
  }

  /** What was sent, as far as it got, is shown in full. */
  lemma ShownInFull(z: Client.Sizes, client: Client.Client, stay: Stay, es: seq<Client.Event>, sent: seq<ChatMessage>, posts: seq<Post>)
    requires IsKind(stay.kind) && stay.generation != 0 && Sound(z, client) && NewTo(client, stay) && client.exposed == []
    requires forall i :: 0 <= i < |es| ==> Client.Decoded(es[i]) && Fits(stay, es[i])
    requires Arrived(stay, es) <= sent && Consecutive(sent, stay.watermark)
    requires forall i :: 0 <= i < |sent| && sent[i].epoch.channel.shardId == stay.epoch.channel.shardId ==> Quotes(sent[i], posts)
    ensures var after := Client.Run(z, client, es);
            var shown := Heard(stay, after.exposed);
            after.open ==>
              && shown <= Arrived(stay, es) && Consecutive(shown, stay.watermark)
              && (forall i :: 0 <= i < |shown| ==> Quotes(shown[i], posts))
              && Filter(LostOf(stay.kind), Shown(after)) == Filter(LostOf(stay.kind), Shown(client))
  {
    hide Client.Run, Client.Decoded, Fits, Sound, NewTo, Heard, Filter, Quotes;
    var after := Client.Run(z, client, es);
    StayDeliveredInFull(z, client, stay, es);
    HeardConcat(stay, after.exposed, after.notices);
    ArrivedBelong(stay, es);
    var arrived := Arrived(stay, es);
    var shown := Heard(stay, after.exposed);
    if after.open {
      assert shown <= arrived;
      forall i | 0 <= i < |shown|
        ensures Quotes(shown[i], posts) && shown[i].channelSeq == stay.watermark + 1 + i
      {
        assert shown[i] == arrived[i] == sent[i];
        assert Belongs(stay, arrived[i]);
      }
    }
  }
}
