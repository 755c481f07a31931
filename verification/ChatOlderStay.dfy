/** A stay that begins while an older one is still active at the client: exactly when it is
    delivered in full all the same. */
module ChatOlderStay {
  import opened Basics
  import opened Filters
  import opened ChatProtocol
  import opened ChatClient
  import opened ChatClientSafety

  // ---------------------------------------------------------------------------------------
  // No step keeps more of a stay than arrives in it

  /** How many of the stay's messages were shown, are queued or still wait. */
  ghost function Kept(stay: Stay, c: Client): nat {
    |Heard(stay, Shown(c))| + |Filter(Of(stay), c.buffered)|
  }

  lemma {:induction false} HeardLess(stay: Stay, keep: Notice -> bool, shown: seq<Notice>, queued: seq<Notice>)
    ensures |Heard(stay, shown + Filter(keep, queued))| <= |Heard(stay, shown + queued)|
  {
    HeardConcat(stay, shown, queued);
    HeardConcat(stay, shown, Filter(keep, queued));
    if queued != [] {
      var rest, last := queued[..|queued| - 1], queued[|queued| - 1];
      HeardLess(stay, keep, shown, rest);
      HeardConcat(stay, shown, rest);
      HeardConcat(stay, shown, Filter(keep, rest));
      HeardConcat(stay, Filter(keep, rest), if keep(last) then [last] else []);
      assert [last][..0] == [];
    }
  }

  lemma {:induction false} FilterLess<T>(p: T -> bool, q: T -> bool, s: seq<T>)
    ensures |Filter(p, Filter(q, s))| <= |Filter(p, s)|
  {
    if s != [] {
      var rest, last := s[..|s| - 1], s[|s| - 1];
      FilterLess(p, q, rest);
      FilterConcat(p, Filter(q, rest), if q(last) then [last] else []);
      assert [last][..0] == [];
    }
  }

  lemma KeptClose(stay: Stay, c: Client)
    ensures Kept(stay, Close(c)) <= Kept(stay, c)
  {
    HeardConcat(stay, c.exposed, c.notices);
    assert Shown(Close(c)) == c.exposed;
  }

  lemma KeptQueue(z: Sizes, stay: Stay, c: Client, n: Notice)
    ensures Kept(stay, Queue(z, c, n)) <= Kept(stay, c) + if SaidOf(stay)(n) then 1 else 0
  {
    KeptClose(stay, c);
    assert c.exposed + (c.notices + [n]) == Shown(c) + [n];
    assert (Shown(c) + [n])[..|Shown(c)|] == Shown(c);
  }

  /** Throwing a channel kind away, and telling the caller. */
  lemma KeptLose(z: Sizes, stay: Stay, c: Client, c0: Client, u: ChatUnavailable)
    requires exists state :: c0 == c.(states := c.states.Put(u.kind, state))
    ensures Kept(stay, Queue(z, Discard(z, c0, u.kind), Lost(u))) <= Kept(stay, c)
  {
    hide Queue, Heard, Filter;
    HeardLess(stay, Not(About(u.kind)), c.exposed, c.notices);
    FilterLess(Of(stay), Not(OfKind(u.kind)), c.buffered);
    KeptQueue(z, stay, Discard(z, c0, u.kind), Lost(u));
  }

  lemma KeptReceive(z: Sizes, stay: Stay, c: Client, m: ChatMessage)
    ensures Kept(stay, Receive(z, c, m)) <= Kept(stay, c) + |IfOf(stay, m)|
  {
    var kind := m.epoch.channel.kind;
    hide Queue, Discard, Heard, Filter, HasRoom;
    KeptOne(z, stay, m);
    FilterConcat(Of(stay), c.buffered, [m]);
    KeptClose(stay, c);
    if Active(c, kind) {
      hide Kept;
      KeptQueue(z, stay, c.(watermarks := c.watermarks.Put(kind, m.channelSeq)), Said(m));
      KeptLose(z, stay, c, c.(states := c.states.Put(kind, Some(NO_STATE))), ChatUnavailable(kind, ReasonGap, true));
    }
  }

  lemma {:induction false} KeptReceiveAll(z: Sizes, stay: Stay, c: Client, ms: seq<ChatMessage>)
    ensures Kept(stay, ReceiveAll(z, c, ms)) <= Kept(stay, c) + |Filter(Of(stay), ms)|
    decreases |ms|
  {
    if ms != [] && c.open {
      var m, rest := ms[0], ms[1..];
      assert [m] + rest == ms;
      FilterConcat(Of(stay), [m], rest);
      assert Filter(Of(stay), [m]) == IfOf(stay, m) by { assert [m][..0] == []; }
      hide Receive, Kept, Filter;
      KeptReceive(z, stay, c, m);
      KeptReceiveAll(z, stay, Receive(z, c, m), rest);
    }
  }

  lemma KeptApply(z: Sizes, stay: Stay, c: Client, state: ChatState)
    ensures Kept(stay, Apply(z, c, state)) <= Kept(stay, c)
  {
    hide ReceiveAll, Heard, Filter;
    if state.phase.PhaseActive? {
      var left, waiting := Filter(Not(OfKind(state.kind)), c.buffered), Filter(OfKind(state.kind), c.buffered);
      HeardLess(stay, Not(Stale(state)), c.exposed, c.notices);
      forall m | m in left ensures Not(OfKind(state.kind))(m) {}
      forall m | m in waiting ensures OfKind(state.kind)(m) {}
      if state.kind == stay.kind {
        FilterNone(Of(stay), left);
        FilterThrough(Of(stay), OfKind(state.kind), c.buffered);
      } else {
        FilterNone(Of(stay), waiting);
        FilterThrough(Of(stay), Not(OfKind(state.kind)), c.buffered);
      }
      KeptReceiveAll(z, stay, Resume(z, c, state), waiting);
    }
  }

  lemma KeptStep(z: Sizes, stay: Stay, c: Client, e: Event)
    ensures Kept(stay, Step(z, c, e)) <= Kept(stay, c) + |Arrives(stay, e)|
  {
    if e == EvTake && c.notices != [] {
      assert c.exposed + [c.notices[0]] + c.notices[1..] == Shown(c);
    }
    KeptClose(stay, c);
    hide Receive, Apply, Queue, Discard, Heard, Filter;
    match e
    case EvFrame(Message(m)) => KeptReceive(z, stay, c, m);
    case EvFrame(Unavailable(u)) => KeptLose(z, stay, c, c.(states := c.states.Put(u.kind, None)), u);
    case EvState(state) => KeptApply(z, stay, c, state);
    case _ =>
  }

  // ---------------------------------------------------------------------------------------
  // While the older stay is active

  /** The stay's own active state. */
  predicate Opens(stay: Stay, e: Event) {
    e.EvState? && e.state.kind == stay.kind && e.state.phase.PhaseActive?
  }

  predicate Seen(stay: Stay, es: seq<Event>) {
    exists i :: 0 <= i < |es| && Opens(stay, es[i])
  }

  /** What comes before the stay's first active state; everything if it never comes. */
  function Before(stay: Stay, es: seq<Event>): seq<Event> {
    if es == [] || !Seen(stay, es) then es else Before(stay, es[..|es| - 1])
  }

  /** The stay that holds a channel kind's slot, from here on. */
  function Holder(c: Client, kind: ChannelKind): Stay
    requires Active(c, kind)
  {
    var state := c.states.Of(kind).value;
    Stay(kind, state.generation, StateEpoch(state), c.watermarks.Of(kind))
  }

  /** The older stay goes on without a gap, and nothing of the new one is kept. */
  ghost predicate Holds(stay: Stay, elder: Stay, losses: seq<Notice>, n: nat, c: Client) {
    c.open ==>
      && ActiveFor(c, elder) && c.watermarks.Of(elder.kind) == elder.watermark + n
      && Heard(stay, Shown(c)) == [] && Filter(LostOf(stay.kind), Shown(c)) == losses
  }

  ghost predicate Rivals(stay: Stay, elder: Stay) {
    IsKind(stay.kind) && elder.kind == stay.kind && !(elder.generation == stay.generation && elder.epoch == stay.epoch)
  }

  lemma HoldsReceive(z: Sizes, stay: Stay, elder: Stay, losses: seq<Notice>, n: nat, c: Client, m: ChatMessage)
    requires c.open && Rivals(stay, elder) && Holds(stay, elder, losses, n, c) && m.epoch.channel.kind == stay.kind
    requires Belongs(elder, m) ==> m.channelSeq == elder.watermark + n + 1
    ensures Holds(stay, elder, losses, n + |IfOf(elder, m)|, Receive(z, c, m))
  {
    hide Queue, Heard, Filter;
    if Belongs(elder, m) {
      assert !SaidOf(stay)(Said(m)) && !LostOf(stay.kind)(Said(m));
      ShownQueue(z, stay, c.(watermarks := c.watermarks.Put(stay.kind, m.channelSeq)), Said(m));
    }
  }

  lemma AlikeHolds(stay: Stay, elder: Stay, losses: seq<Notice>, n: nat, c: Client, c': Client)
    requires Rivals(stay, elder) && Holds(stay, elder, losses, n, c) && Alike(stay, c, c')
    ensures Holds(stay, elder, losses, n, c')
  {
  }

  lemma HoldsStep(z: Sizes, stay: Stay, elder: Stay, losses: seq<Notice>, n: nat, c: Client, e: Event)
    requires Rivals(stay, elder) && Holds(stay, elder, losses, n, c)
    requires Decoded(e) && Fits(stay, e) && !Opens(stay, e)
    requires Arrives(elder, e) != [] ==> Arrives(elder, e)[0].channelSeq == elder.watermark + n + 1
    ensures Holds(stay, elder, losses, n + |Arrives(elder, e)|, Step(z, c, e))
  {
    if e == EvTake && c.notices != [] {
      assert c.exposed + [c.notices[0]] + c.notices[1..] == Shown(c);
    }
    if c.open {
      match e
      case EvFrame(Message(m)) =>
        if m.epoch.channel.kind == stay.kind {
          HoldsReceive(z, stay, elder, losses, n, c, m);
        } else {
          AlikeReceive(z, stay, c, m);
          AlikeHolds(stay, elder, losses, n, c, Receive(z, c, m));
        }
      case EvFrame(Unavailable(u)) =>
        AlikeLose(z, stay, c, c.(states := c.states.Put(u.kind, None)), u);
        AlikeHolds(stay, elder, losses, n, c, Withdraw(z, c, u));
      case EvState(state) =>
        if state.phase.PhaseActive? {
          AlikeApply(z, stay, c, state);
          AlikeHolds(stay, elder, losses, n, c, Apply(z, c, state));
        }
      case _ =>
    }
  }

  /** The stay's state replaces the older one: nothing waits, and it starts at its watermark. */
  lemma TakesOver(z: Sizes, stay: Stay, elder: Stay, losses: seq<Notice>, n: nat, c: Client, state: ChatState)
    requires Sound(z, c) && Rivals(stay, elder) && Holds(stay, elder, losses, n, c) && stay.generation != 0
    requires Opens(stay, EvState(state)) && Fits(stay, EvState(state))
    ensures var d := Step(z, c, EvState(state));
            Carries(stay, losses, [], d) && (d.open ==> Active(d, stay.kind))
  {
    hide Sound, Heard, Filter, Apply, ReceiveAll, Resume, Rivals, Fits;
    if c.open {
      assert IsKind(stay.kind) && elder.kind == stay.kind by { RivalKinds(stay, elder); }
      TakesSlot(z, stay, elder, c, state);
      SlotEmpty(z, stay, c);
      NothingWaiting(z, c, state);
      ResumeShows(z, stay, c, state);
    }
  }

  lemma RivalKinds(stay: Stay, elder: Stay)
    requires Rivals(stay, elder)
    ensures IsKind(stay.kind) && elder.kind == stay.kind
  {
  }

  /** While a stay is active, nothing of its channel kind waits. */
  lemma SlotEmpty(z: Sizes, stay: Stay, c: Client)
    requires Sound(z, c) && IsKind(stay.kind) && Active(c, stay.kind)
    ensures Filter(OfKind(stay.kind), c.buffered) == [] && Filter(Of(stay), Filter(Not(OfKind(stay.kind)), c.buffered)) == []
  {
    assert SlotSound(c, stay.kind);
    hide Sound;
    FilterNone(OfKind(stay.kind), c.buffered);
    FilterNone(Of(stay), Filter(Not(OfKind(stay.kind)), c.buffered));
  }

  lemma TakesSlot(z: Sizes, stay: Stay, elder: Stay, c: Client, state: ChatState)
    requires Rivals(stay, elder) && ActiveFor(c, elder) && Opens(stay, EvState(state)) && Fits(stay, EvState(state))
    ensures var d := Resume(z, c, state);
            && d.open == c.open && ActiveFor(d, stay) && d.watermarks.Of(stay.kind) == stay.watermark
            && d.buffered == Filter(Not(OfKind(stay.kind)), c.buffered)
    ensures state.generation == stay.generation && StateEpoch(state) == stay.epoch && state.kind == stay.kind
  {
    hide Filter;
  }

  lemma NothingWaiting(z: Sizes, c: Client, state: ChatState)
    requires state.phase.PhaseActive?
    ensures Filter(OfKind(state.kind), c.buffered) == [] ==> Apply(z, c, state) == Resume(z, c, state)
  {
    hide Filter, Receive;
  }

  // ---------------------------------------------------------------------------------------
  // Whole runs

  /** A client that already has an active state of another stay, and nothing of this one. */
  ghost predicate Occupied(z: Sizes, c: Client, stay: Stay) {
    && Sound(z, c) && c.open && IsKind(stay.kind) && stay.generation != 0
    && Active(c, stay.kind) && !ActiveFor(c, stay) && Heard(stay, Shown(c)) == []
  }

  /** Both stays' messages come as their channels number them, the older one's for as long as
      it is the active one. */
  ghost predicate Follows(c: Client, stay: Stay, es: seq<Event>)
    requires Active(c, stay.kind)
  {
    && (forall i :: 0 <= i < |es| ==> Decoded(es[i]) && Fits(stay, es[i]))
    && Consecutive(Arrived(stay, es), stay.watermark)
    && Consecutive(Arrived(Holder(c, stay.kind), Before(stay, es)), Holder(c, stay.kind).watermark)
  }

  ghost function Losses(c: Client, kind: ChannelKind): seq<Notice> { Filter(LostOf(kind), Shown(c)) }

  lemma {:induction false} ArrivedPrefix(stay: Stay, es: seq<Event>, n: nat)
    requires n <= |es|
    ensures Arrived(stay, es[..n]) <= Arrived(stay, es)
    decreases |es|
  {
    if n < |es| {
      ArrivedPrefix(stay, es[..|es| - 1], n);
      assert es[..|es| - 1][..n] == es[..n];
    } else {
      assert es[..n] == es;
    }
  }

  lemma {:induction false} BeforeIs(stay: Stay, es: seq<Event>)
    ensures !Seen(stay, Before(stay, es)) && Before(stay, es) <= es
    ensures es != [] && !Seen(stay, es) ==> Before(stay, es[..|es| - 1]) == es[..|es| - 1]
  {
    if es != [] && Seen(stay, es) {
      BeforeIs(stay, es[..|es| - 1]);
    } else if es != [] {
      assert forall i :: 0 <= i < |es| - 1 ==> es[..|es| - 1][i] == es[i];
    }
  }

  lemma FollowsPrefix(c: Client, stay: Stay, es: seq<Event>)
    requires Active(c, stay.kind) && es != [] && Follows(c, stay, es)
    ensures Follows(c, stay, es[..|es| - 1])
  {
    hide Decoded, Fits, Arrived;
    var elder, rest := Holder(c, stay.kind), es[..|es| - 1];
    ArrivedPrefix(stay, es, |es| - 1);
    BeforeIs(stay, es);
    if !Seen(stay, es) {
      ArrivedPrefix(elder, es, |es| - 1);
    }
  }

  /** Until its state comes, the client keeps nothing of the stay. */
  lemma {:induction false} Waits(z: Sizes, c: Client, stay: Stay, es: seq<Event>)
    requires Occupied(z, c, stay) && Follows(c, stay, es) && !Seen(stay, es)
    ensures var elder := Holder(c, stay.kind);
            Holds(stay, elder, Losses(c, stay.kind), |Arrived(elder, es)|, Run(z, c, es))
  {
    if es != [] {
      var rest, e := es[..|es| - 1], es[|es| - 1];
      var elder := Holder(c, stay.kind);
      FollowsPrefix(c, stay, es);
      BeforeIs(stay, es);
      assert !Opens(stay, e) && Decoded(e) && Fits(stay, e);
      assert forall i :: 0 <= i < |rest| ==> rest[i] == es[i];
      Waits(z, c, stay, rest);
      assert Arrived(elder, es) == Arrived(elder, rest) + Arrives(elder, e);
      if Arrives(elder, e) != [] {
        assert Arrived(elder, es)[|Arrived(elder, rest)|] == Arrives(elder, e)[0];
      }
      hide Sound, Step, Decoded, Fits, Heard, Filter, Holds, Arrives;
      HoldsStep(z, stay, elder, Losses(c, stay.kind), |Arrived(elder, rest)|, Run(z, c, rest), e);
    }
  }

  lemma OpensLast(stay: Stay, es: seq<Event>)
    requires es != [] && Seen(stay, es) && !Seen(stay, es[..|es| - 1])
    ensures Opens(stay, es[|es| - 1])
  {
    assert forall i :: 0 <= i < |es| - 1 ==> es[..|es| - 1][i] == es[i];
  }

  lemma SoundRun(z: Sizes, c: Client, es: seq<Event>)
    requires Sound(z, c) && forall i :: 0 <= i < |es| ==> Decoded(es[i])
    ensures Sound(z, Run(z, c, es))
  {
    hide Sound, Step, Decoded;
    if es != [] {
      SoundRun(z, c, es[..|es| - 1]);
      SoundStep(z, Run(z, c, es[..|es| - 1]), es[|es| - 1]);
    }
  }

  /** Its state first: from then on the client carries the stay. */
  lemma {:induction false} Follow(z: Sizes, c: Client, stay: Stay, es: seq<Event>)
    requires Occupied(z, c, stay) && Follows(c, stay, es) && Seen(stay, es)
    requires Arrived(stay, Before(stay, es)) == []
    ensures Carries(stay, Losses(c, stay.kind), Arrived(stay, es), Run(z, c, es))
  {
    hide Sound, Accept, Apply, Heard, Filter, Holds, Carries;
    var rest, e := es[..|es| - 1], es[|es| - 1];
    var elder, d := Holder(c, stay.kind), Run(z, c, rest);
    FollowsPrefix(c, stay, es);
    BeforeIs(stay, rest);
    SoundRun(z, c, rest);
    assert Decoded(e) && Fits(stay, e);
    assert Arrived(stay, es) == Arrived(stay, rest) + Arrives(stay, e);
    if Seen(stay, rest) {
      Follow(z, c, stay, rest);
      hide Decoded, Fits, Arrives;
      CarriesStep(z, stay, Losses(c, stay.kind), Arrived(stay, rest), d, e);
    } else {
      OpensLast(stay, es);
      Waits(z, c, stay, rest);
      hide Decoded;
      TakesOver(z, stay, elder, Losses(c, stay.kind), |Arrived(elder, rest)|, d, e.state);
    }
  }

  /** Without a message of its own the stay stays active. */
  lemma StaysActive(z: Sizes, stay: Stay, losses: seq<Notice>, c: Client, e: Event)
    requires c.open && Sound(z, c) && Carries(stay, losses, [], c) && Active(c, stay.kind) && IsKind(stay.kind)
    requires Decoded(e) && Fits(stay, e) && Arrives(stay, e) == []
    ensures Step(z, c, e).open ==> Active(Step(z, c, e), stay.kind)
  {
    assert SlotSound(c, stay.kind);
    hide Sound, Discard, Queue, HasRoom, Heard, Filter, ReceiveAll, Install;
    match e
    case EvFrame(Message(m)) => if m.epoch.channel.kind != stay.kind { AlikeReceive(z, stay, c, m); }
    case EvFrame(Unavailable(u)) => AlikeLose(z, stay, c, c.(states := c.states.Put(u.kind, None)), u);
    case EvState(state) =>
      if state.kind != stay.kind {
        AlikeApply(z, stay, c, state);
      } else if state.phase.PhaseActive? {
        InstallCounted(z, c, state);
        FilterNone(OfKind(stay.kind), c.buffered);
        NothingWaiting(z, c, state);
      }
    case _ =>
  }

  /** If everything arrived before its state, the last event brought nothing. */
  lemma NothingNew(stay: Stay, es: seq<Event>)
    requires es != [] && Seen(stay, es[..|es| - 1]) && Seen(stay, es) && Arrived(stay, es) == Arrived(stay, Before(stay, es))
    ensures var rest := es[..|es| - 1];
            Arrives(stay, es[|es| - 1]) == [] && Arrived(stay, rest) == Arrived(stay, Before(stay, rest))
  {
    hide Arrives, Seen;
    var rest := es[..|es| - 1];
    BeforeIs(stay, rest);
    ArrivedPrefix(stay, rest, |Before(stay, rest)|);
    assert Before(stay, rest) == Before(stay, es) == rest[..|Before(stay, rest)|];
    ArrivedLast(stay, es);
    assert |Arrived(stay, rest)| + |Arrives(stay, es[|es| - 1])| <= |Arrived(stay, rest)|;
    assert Arrived(stay, rest) + [] == Arrived(stay, rest);
  }

  lemma ArrivedLast(stay: Stay, es: seq<Event>)
    requires es != []
    ensures Arrived(stay, es) == Arrived(stay, es[..|es| - 1]) + Arrives(stay, es[|es| - 1])
  {
  }

  /** Messages before its state, and none since: the client holds the place after the join
      watermark for the next one. */
  lemma {:induction false} Idles(z: Sizes, c: Client, stay: Stay, es: seq<Event>)
    requires Occupied(z, c, stay) && Follows(c, stay, es) && Seen(stay, es)
    requires Arrived(stay, es) == Arrived(stay, Before(stay, es))
    ensures Carries(stay, Losses(c, stay.kind), [], Run(z, c, es))
    ensures Run(z, c, es).open ==> Active(Run(z, c, es), stay.kind)
  {
    hide Sound, Accept, Apply, Heard, Filter, Holds, Carries;
    var rest, e := es[..|es| - 1], es[|es| - 1];
    var elder, d := Holder(c, stay.kind), Run(z, c, rest);
    FollowsPrefix(c, stay, es);
    BeforeIs(stay, rest);
    SoundRun(z, c, rest);
    assert Decoded(e) && Fits(stay, e);
    if Seen(stay, rest) {
      hide Decoded, Fits, Arrives, Arrived, Seen, Before;
      NothingNew(stay, es);
      Idles(z, c, stay, rest);
      var none: seq<ChatMessage> := [];
      assert none + Arrives(stay, e) == none;
      CarriesStep(z, stay, Losses(c, stay.kind), [], d, e);
      if d.open {
        StaysActive(z, stay, Losses(c, stay.kind), d, e);
      }
    } else {
      OpensLast(stay, es);
      Waits(z, c, stay, rest);
      hide Decoded;
      TakesOver(z, stay, elder, Losses(c, stay.kind), |Arrived(elder, rest)|, d, e.state);
    }
  }

  lemma KeptNone(z: Sizes, stay: Stay, elder: Stay, losses: seq<Notice>, n: nat, c: Client)
    requires c.open && Sound(z, c) && Rivals(stay, elder) && Holds(stay, elder, losses, n, c)
    ensures Heard(stay, Shown(c)) == [] && Filter(Of(stay), c.buffered) == []
  {
    assert SlotSound(c, stay.kind);
    hide Sound;
    FilterNone(Of(stay), c.buffered);
  }

  /** A message before its state: at least one is missing ever after. */
  lemma {:induction false} Short(z: Sizes, c: Client, stay: Stay, es: seq<Event>)
    requires Occupied(z, c, stay) && Follows(c, stay, es)
    requires Arrived(stay, Before(stay, es)) != []
    ensures Run(z, c, es).open ==> Kept(stay, Run(z, c, es)) < |Arrived(stay, es)|
  {
    if Seen(stay, es) {
      var rest, e := es[..|es| - 1], es[|es| - 1];
      FollowsPrefix(c, stay, es);
      BeforeIs(stay, rest);
      assert Arrived(stay, es) == Arrived(stay, rest) + Arrives(stay, e);
      hide Kept, Sound, Decoded, Fits, Accept, Apply, Heard, Filter;
      Short(z, c, stay, rest);
      KeptStep(z, stay, Run(z, c, rest), e);
    } else {
      var elder := Holder(c, stay.kind);
      Waits(z, c, stay, es);
      SoundRun(z, c, es);
      if Run(z, c, es).open {
        KeptNone(z, stay, elder, Losses(c, stay.kind), |Arrived(elder, es)|, Run(z, c, es));
      }
    }
  }

  /** A stay that begins while another is active reaches the caller in full, in order and with
      no loss reported, if and only if its own active state comes before its first message. */
  lemma DeliveredIffStateFirst(z: Sizes, c: Client, stay: Stay, es: seq<Event>)
    requires Occupied(z, c, stay) && Follows(c, stay, es) && Run(z, c, es).open
    ensures var d := Run(z, c, es);
            && Heard(stay, Shown(d)) + Filter(Of(stay), d.buffered) == Arrived(stay, es)
            && Losses(d, stay.kind) == Losses(c, stay.kind)
            <==> Arrived(stay, Before(stay, es)) == []
  {
    var d := Run(z, c, es);
    hide Sound, Decoded, Fits, Heard, Filter, Run;
    if Arrived(stay, Before(stay, es)) != [] {
      Short(z, c, stay, es);
    } else if Seen(stay, es) {
      Follow(z, c, stay, es);
    } else {
      var elder := Holder(c, stay.kind);
      Waits(z, c, stay, es);
      SoundRun(z, c, es);
      KeptNone(z, stay, elder, Losses(c, stay.kind), |Arrived(elder, es)|, d);
    }
  }

  /** And it does not fail silently: after messages that came too early and then the state, the
      next message, though its channel numbered it without a gap, is reported as a gap. */
  lemma OlderStayMakesAGap(z: Sizes, c: Client, stay: Stay, es: seq<Event>, next: ChatMessage)
    requires Occupied(z, c, stay) && Follows(c, stay, es + [EvFrame(Message(next))]) && Belongs(stay, next)
    requires Seen(stay, es) && Arrived(stay, es) == Arrived(stay, Before(stay, es)) != []
    ensures var d := Run(z, c, es + [EvFrame(Message(next))]);
            d.open ==> d.notices != [] && d.notices[|d.notices| - 1] == Lost(ChatUnavailable(stay.kind, ReasonGap, true))
  {
    var all, d := es + [EvFrame(Message(next))], Run(z, c, es);
    assert all[..|all| - 1] == es;
    FollowsPrefix(c, stay, all);
    Idles(z, c, stay, es);
    assert Arrived(stay, all) == Arrived(stay, es) + [next];
    assert Arrived(stay, all)[|Arrived(stay, es)|] == next;
    assert Run(z, c, all) == Step(z, d, EvFrame(Message(next)));
    hide Run, Arrived, Sound, Decoded, Fits, Heard, Filter, Discard, HasRoom, Seen, Before;
    if d.open {
      Skips(z, stay, Losses(c, stay.kind), d, next);
    }
  }

  lemma Skips(z: Sizes, stay: Stay, losses: seq<Notice>, c: Client, m: ChatMessage)
    requires c.open && ActiveFor(c, stay) && c.watermarks.Of(stay.kind) == stay.watermark && Belongs(stay, m) && m.channelSeq > stay.watermark + 1
    ensures var d := Receive(z, c, m);
            d.open ==> d.notices != [] && d.notices[|d.notices| - 1] == Lost(ChatUnavailable(stay.kind, ReasonGap, true))
  {
    hide Discard, HasRoom;
  }
}
