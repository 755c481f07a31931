/** What holds of the client end in every run, and what one stay's messages go through. */
module ChatClientSafety {
  import opened Basics
  import opened Filters
  import opened ChatProtocol
  import opened ChatClient

  // ---------------------------------------------------------------------------------------
  // The books

  /** The byte counter is exactly what the two buffers hold. */
  ghost predicate Counted(z: Sizes, c: Client) {
    c.bytes == Total(z.message, c.buffered) + Total(SizeOf(z), c.notices)
  }

  ghost predicate WithinBudget(c: Client) {
    |c.notices| + |c.buffered| <= NOTIFICATIONS_MAX && c.bytes <= NOTIFICATION_BYTES_MAX
  }

  /** Messages wait in the buffer only before the first state, and in the queue only after it. */
  ghost predicate SlotSound(c: Client, kind: ChannelKind) {
    if Active(c, kind) then forall m :: m in c.buffered ==> m.epoch.channel.kind != kind
    else forall n :: n in c.notices && n.Said? ==> KindOf(n) != kind
  }

  ghost predicate Sound(z: Sizes, c: Client) {
    && Counted(z, c) && WithinBudget(c) && (!c.open ==> c == Close(c))
    && SlotSound(c, KindRealm) && SlotSound(c, KindScene)
  }

  lemma DiscardCounted(z: Sizes, c: Client, kind: ChannelKind)
    requires Counted(z, c)
    ensures var d := Discard(z, c, kind);
            && Counted(z, d) && d.bytes <= c.bytes && |d.notices| + |d.buffered| <= |c.notices| + |c.buffered|
            && (forall m :: m in d.buffered ==> m in c.buffered && m.epoch.channel.kind != kind)
            && forall n :: n in d.notices ==> n in c.notices && KindOf(n) != kind
  {
    Split(OfKind(kind), z.message, c.buffered);
    Split(About(kind), SizeOf(z), c.notices);
  }

  lemma SoundQueue(z: Sizes, c: Client, n: Notice)
    requires Sound(z, c) && c.open && IsKind(KindOf(n)) && (n.Said? ==> Active(c, KindOf(n)))
    ensures Sound(z, Queue(z, c, n))
  {
    hide Counted, SlotSound;
    QueueCounted(z, c, n);
    SlotQueued(z, c, n, KindRealm);
    SlotQueued(z, c, n, KindScene);
    ClosedSound(z, c);
  }

  lemma QueueCounted(z: Sizes, c: Client, n: Notice)
    requires Counted(z, c)
    ensures Queue(z, c, n).open ==> Counted(z, Queue(z, c, n))
  {
    hide HasRoom;
    TotalConcat(SizeOf(z), c.notices, [n]);
    assert [n][..0] == [];
  }

  lemma SlotQueued(z: Sizes, c: Client, n: Notice, kind: ChannelKind)
    requires IsKind(kind) && IsKind(KindOf(n)) && SlotSound(c, kind) && (n.Said? ==> Active(c, KindOf(n)))
    ensures Queue(z, c, n).open ==> SlotSound(Queue(z, c, n), kind)
  {
    hide HasRoom;
  }

  lemma ClosedSound(z: Sizes, c: Client)
    ensures Counted(z, Close(c)) && SlotSound(Close(c), KindRealm) && SlotSound(Close(c), KindScene)
  {
  }

  /** Discarding a channel kind and telling the caller so. */
  lemma SoundLose(z: Sizes, c: Client, c0: Client, u: ChatUnavailable)
    requires Sound(z, c) && c.open && IsKind(u.kind) && !Active(c0, u.kind)
    requires exists state :: c0 == c.(states := c.states.Put(u.kind, state))
    ensures Sound(z, Queue(z, Discard(z, c0, u.kind), Lost(u)))
  {
    hide Sound, Discard, Queue;
    SoundDiscard(z, c, c0, u.kind);
    SoundQueue(z, Discard(z, c0, u.kind), Lost(u));
  }

  lemma SoundDiscard(z: Sizes, c: Client, c0: Client, kind: ChannelKind)
    requires Sound(z, c) && c.open && IsKind(kind) && !Active(c0, kind)
    requires exists state :: c0 == c.(states := c.states.Put(kind, state))
    ensures Sound(z, Discard(z, c0, kind)) && Discard(z, c0, kind).open
  {
    var d := Discard(z, c0, kind);
    assert d == c0.(buffered := d.buffered, notices := d.notices, bytes := d.bytes);
    hide Discard, SlotSound;
    DiscardCounted(z, c0, kind);
    SlotDiscarded(z, c, c0, kind, KindRealm);
    SlotDiscarded(z, c, c0, kind, KindScene);
  }

  lemma SlotDiscarded(z: Sizes, c: Client, c0: Client, kind: ChannelKind, other: ChannelKind)
    requires IsKind(kind) && IsKind(other) && SlotSound(c, other) && !Active(c0, kind) && Counted(z, c0)
    requires exists state :: c0 == c.(states := c.states.Put(kind, state))
    ensures SlotSound(Discard(z, c0, kind), other)
  {
    var d := Discard(z, c0, kind);
    assert d == c0.(buffered := d.buffered, notices := d.notices, bytes := d.bytes);
    hide Discard, Counted;
    DiscardCounted(z, c0, kind);
  }

  lemma SoundReceive(z: Sizes, c: Client, m: ChatMessage)
    requires Sound(z, c) && c.open && IsKind(m.epoch.channel.kind)
    ensures Sound(z, Receive(z, c, m))
  {
    var kind := m.epoch.channel.kind;
    if !Active(c, kind) {
      TotalConcat(z.message, c.buffered, [m]);
    } else {
      var state := c.states.Of(kind).value;
      if state.generation == m.generation && StateEpoch(state) == m.epoch && m.channelSeq > c.watermarks.Of(kind) {
        if m.channelSeq == c.watermarks.Of(kind) + 1 {
          SoundQueue(z, c.(watermarks := c.watermarks.Put(kind, m.channelSeq)), Said(m));
        } else {
          SoundLose(z, c, c.(states := c.states.Put(kind, Some(NO_STATE))), ChatUnavailable(kind, ReasonGap, true));
        }
      }
    }
  }

  lemma {:induction false} SoundReceiveAll(z: Sizes, c: Client, ms: seq<ChatMessage>)
    requires Sound(z, c) && forall m :: m in ms ==> IsKind(m.epoch.channel.kind)
    ensures Sound(z, ReceiveAll(z, c, ms))
    decreases |ms|
  {
    hide Receive, Sound;
    if ms != [] && c.open {
      SoundReceive(z, c, ms[0]);
      SoundReceiveAll(z, Receive(z, c, ms[0]), ms[1..]);
    }
  }

  /** An active state is installed and its waiting messages taken off the buffer. */
  function Resume(z: Sizes, c: Client, state: ChatState): Client {
    var c1 := Install(z, c, state);
    c1.(buffered := Filter(Not(OfKind(state.kind)), c1.buffered),
        bytes := c1.bytes - Total(z.message, Filter(OfKind(state.kind), c1.buffered)))
  }

  lemma InstallCounted(z: Sizes, c: Client, state: ChatState)
    requires Counted(z, c)
    ensures var d := Install(z, c, state);
            && Counted(z, d) && d.bytes <= c.bytes && |d.notices| <= |c.notices|
            && d.states == c.states.Put(state.kind, Some(state)) && d.buffered == c.buffered && d.open == c.open
            && forall n :: n in d.notices ==> n in c.notices
  {
    Split(Stale(state), SizeOf(z), c.notices);
  }

  /** It makes exactly the room that putting those messages back one by one needs. */
  lemma SoundResume(z: Sizes, c: Client, state: ChatState)
    requires Sound(z, c) && c.open && IsKind(state.kind) && state.phase.PhaseActive?
    ensures var d := Resume(z, c, state);
            var waiting := Filter(OfKind(state.kind), c.buffered);
            && Sound(z, d) && d.open && Active(d, state.kind)
            && |d.notices| + |d.buffered| + |waiting| <= NOTIFICATIONS_MAX
            && d.bytes + Total(z.message, waiting) <= NOTIFICATION_BYTES_MAX
  {
    hide Install, Filter;
    InstallCounted(z, c, state);
    Split(OfKind(state.kind), z.message, c.buffered);
    var d := Resume(z, c, state);
    forall m | m in d.buffered
      ensures m in c.buffered && m.epoch.channel.kind != state.kind
    {
      assert Not(OfKind(state.kind))(m);
    }
  }

  lemma SoundApply(z: Sizes, c: Client, state: ChatState)
    requires Sound(z, c) && c.open && IsKind(state.kind)
    ensures Sound(z, Apply(z, c, state))
  {
    assert Install(z, c, state).buffered == c.buffered;
    hide Sound, Install, ReceiveAll;
    if state.phase.PhaseActive? {
      SoundResume(z, c, state);
      assert forall m :: m in Filter(OfKind(state.kind), c.buffered) ==> OfKind(state.kind)(m);
      SoundReceiveAll(z, Resume(z, c, state), Filter(OfKind(state.kind), c.buffered));
    }
  }

  lemma SoundTake(z: Sizes, c: Client)
    requires Sound(z, c)
    ensures Sound(z, Take(z, c).0)
  {
    if c.notices != [] {
      TotalConcat(SizeOf(z), c.notices[..1], c.notices[1..]);
      assert c.notices[..1] + c.notices[1..] == c.notices;
      assert c.notices[..1][..0] == [];
    }
  }

  lemma SoundStep(z: Sizes, c: Client, e: Event)
    requires Sound(z, c) && Decoded(e)
    ensures Sound(z, Step(z, c, e))
  {
    hide Receive, Apply, Discard, Queue, Take;
    match e
    case EvFrame(f) =>
      if c.open {
        match f
        case Message(m) => SoundReceive(z, c, m);
        case Unavailable(u) => SoundLose(z, c, c.(states := c.states.Put(u.kind, None)), u);
        case _ =>
      }
    case EvState(state) => if c.open { SoundApply(z, c, state); }
    case EvTake => SoundTake(z, c);
    case EvClose =>
  }

  /** In every run the byte counter equals what the two buffers hold, both within the budget. */
  lemma {:induction false} ClientBooks(z: Sizes, es: seq<Event>)
    requires forall i :: 0 <= i < |es| ==> Decoded(es[i])
    ensures Sound(z, Run(z, START, es))
  {
    hide Step, Decoded;
    if es != [] {
      ClientBooks(z, es[..|es| - 1]);
      SoundStep(z, Run(z, START, es[..|es| - 1]), es[|es| - 1]);
    }
  }

  // ---------------------------------------------------------------------------------------
  // One stay

  /** A stay in a channel as its state replies name it. */
  datatype Stay = Stay(kind: ChannelKind, generation: nat, epoch: Epoch, watermark: nat)

  predicate Belongs(stay: Stay, m: ChatMessage) {
    m.epoch.channel.kind == stay.kind && m.generation == stay.generation && m.epoch == stay.epoch
  }

  function Of(stay: Stay): ChatMessage -> bool { (m: ChatMessage) => Belongs(stay, m) }

  function SaidOf(stay: Stay): Notice -> bool { (n: Notice) => n.Said? && Belongs(stay, n.message) }

  /** The messages of the stay in a queue of notices, in order. */
  function Heard(stay: Stay, ns: seq<Notice>): seq<ChatMessage> {
    if ns == [] then []
    else Heard(stay, ns[..|ns| - 1]) + (if SaidOf(stay)(ns[|ns| - 1]) then [ns[|ns| - 1].message] else [])
  }

  function LostOf(kind: ChannelKind): Notice -> bool { (n: Notice) => n.Lost? && n.unavailable.kind == kind }

  /** Everything shown or about to be shown to the caller. */
  function Shown(c: Client): seq<Notice> { c.exposed + c.notices }

  predicate ActiveFor(c: Client, stay: Stay) {
    && Active(c, stay.kind) && c.states.Of(stay.kind).value.generation == stay.generation
    && StateEpoch(c.states.Of(stay.kind).value) == stay.epoch
  }

  /** Nothing here ends the stay: only its own active states, and no notice that it is lost. */
  predicate Fits(stay: Stay, e: Event) {
    match e
    case EvFrame(Unavailable(u)) => u.kind != stay.kind
    case EvState(state) =>
      state.kind == stay.kind && state.phase.PhaseActive? ==>
        state.generation == stay.generation && StateEpoch(state) == stay.epoch && state.joinWatermark == stay.watermark
    case _ => true
  }

  /** The stay's messages among the events, in order of arrival. */
  function Arrived(stay: Stay, es: seq<Event>): seq<ChatMessage> {
    if es == [] then []
    else
      var e := es[|es| - 1];
      Arrived(stay, es[..|es| - 1])
      + (if e.EvFrame? && e.frame.Message? && Belongs(stay, e.frame.message) then [e.frame.message] else [])
  }

  predicate Consecutive(ms: seq<ChatMessage>, watermark: nat) {
    forall i :: 0 <= i < |ms| ==> ms[i].channelSeq == watermark + 1 + i
  }

  /** The slot of the stay's kind was never filled, or was emptied after a gap. */
  predicate Vacant(c: Client, kind: ChannelKind) {
    c.states.Of(kind) == None || c.states.Of(kind) == Some(NO_STATE)
  }

  /** While open, what arrived is what was shown followed by what still waits, with no loss
      reported; before the first active state all of it waits, and after it none. */
  ghost predicate Carries(stay: Stay, losses: seq<Notice>, arrived: seq<ChatMessage>, c: Client) {
    c.open ==>
      && Filter(LostOf(stay.kind), Shown(c)) == losses
      && if Active(c, stay.kind) then
           && ActiveFor(c, stay) && c.watermarks.Of(stay.kind) == stay.watermark + |arrived|
           && Heard(stay, Shown(c)) == arrived && Filter(Of(stay), c.buffered) == []
         else Vacant(c, stay.kind) && Heard(stay, Shown(c)) == [] && Filter(Of(stay), c.buffered) == arrived
  }

  /** What one stay sees of the client is the same in both. */
  ghost predicate Alike(stay: Stay, c: Client, c': Client) {
    c'.open ==>
      && c.open && Heard(stay, Shown(c')) == Heard(stay, Shown(c))
      && Filter(LostOf(stay.kind), Shown(c')) == Filter(LostOf(stay.kind), Shown(c))
      && Filter(Of(stay), c'.buffered) == Filter(Of(stay), c.buffered)
      && c'.states.Of(stay.kind) == c.states.Of(stay.kind) && c'.watermarks.Of(stay.kind) == c.watermarks.Of(stay.kind)
  }

  lemma {:induction false} HeardConcat(stay: Stay, a: seq<Notice>, b: seq<Notice>)
    ensures Heard(stay, a + b) == Heard(stay, a) + Heard(stay, b)
  {
    if b == [] {
      assert a + b == a;
    } else {
      assert (a + b)[..|a + b| - 1] == a + b[..|b| - 1];
      HeardConcat(stay, a, b[..|b| - 1]);
    }
  }

  lemma {:induction false} HeardThrough(stay: Stay, keep: Notice -> bool, ns: seq<Notice>)
    requires forall n :: n in ns && SaidOf(stay)(n) ==> keep(n)
    ensures Heard(stay, Filter(keep, ns)) == Heard(stay, ns)
  {
    if ns != [] {
      var rest, last := ns[..|ns| - 1], ns[|ns| - 1];
      HeardThrough(stay, keep, rest);
      HeardConcat(stay, Filter(keep, rest), if keep(last) then [last] else []);
      assert last in ns && [last][..0] == [];
    }
  }

  /** Dropping queued notices that are none of the stay's. */
  lemma ShownThrough(stay: Stay, keep: Notice -> bool, exposed: seq<Notice>, ns: seq<Notice>)
    requires forall n :: n in ns && (SaidOf(stay)(n) || LostOf(stay.kind)(n)) ==> keep(n)
    ensures Heard(stay, exposed + Filter(keep, ns)) == Heard(stay, exposed + ns)
    ensures Filter(LostOf(stay.kind), exposed + Filter(keep, ns)) == Filter(LostOf(stay.kind), exposed + ns)
  {
    HeardThrough(stay, keep, ns);
    HeardConcat(stay, exposed, Filter(keep, ns));
    HeardConcat(stay, exposed, ns);
    FilterThrough(LostOf(stay.kind), keep, ns);
    FilterConcat(LostOf(stay.kind), exposed, Filter(keep, ns));
    FilterConcat(LostOf(stay.kind), exposed, ns);
  }

  /** Queueing one more notice shows exactly that one more. */
  lemma ShownQueue(z: Sizes, stay: Stay, c: Client, n: Notice)
    ensures var d := Queue(z, c, n);
            d.open ==>
              && Heard(stay, Shown(d)) == Heard(stay, Shown(c)) + (if SaidOf(stay)(n) then [n.message] else [])
              && Filter(LostOf(stay.kind), Shown(d)) == Filter(LostOf(stay.kind), Shown(c)) + (if LostOf(stay.kind)(n) then [n] else [])
              && d == c.(bytes := d.bytes, notices := c.notices + [n])
  {
    HeardConcat(stay, Shown(c), [n]);
    FilterConcat(LostOf(stay.kind), Shown(c), [n]);
    assert Shown(c) + [n] == c.exposed + (c.notices + [n]);
    assert [n][..0] == [];
  }

  lemma AlikeDiscard(z: Sizes, stay: Stay, c: Client, kind: ChannelKind)
    requires kind != stay.kind
    ensures Alike(stay, c, Discard(z, c, kind))
  {
    forall n | n in c.notices && (SaidOf(stay)(n) || LostOf(stay.kind)(n))
      ensures Not(About(kind))(n)
    {
      assert !About(kind)(n);
    }
    ShownThrough(stay, Not(About(kind)), c.exposed, c.notices);
    FilterThrough(Of(stay), Not(OfKind(kind)), c.buffered);
  }

  /** A loss in the other channel kind. */
  lemma AlikeLose(z: Sizes, stay: Stay, c: Client, c0: Client, u: ChatUnavailable)
    requires IsKind(stay.kind) && IsKind(u.kind) && u.kind != stay.kind && c.open
    requires exists state :: c0 == c.(states := c.states.Put(u.kind, state))
    ensures Alike(stay, c, Queue(z, Discard(z, c0, u.kind), Lost(u)))
  {
    assert Discard(z, c0, u.kind).open;
    hide Discard, Queue, Heard, Filter;
    AlikeDiscard(z, stay, c0, u.kind);
    ShownQueue(z, stay, Discard(z, c0, u.kind), Lost(u));
  }

  lemma AlikeReceive(z: Sizes, stay: Stay, c: Client, m: ChatMessage)
    requires IsKind(stay.kind) && IsKind(m.epoch.channel.kind) && m.epoch.channel.kind != stay.kind && c.open
    ensures Alike(stay, c, Receive(z, c, m))
  {
    hide Discard, Queue, Heard, Filter;
    var kind := m.epoch.channel.kind;
    if !Active(c, kind) {
      FilterConcat(Of(stay), c.buffered, [m]);
      FilterNone(Of(stay), [m]);
    } else {
      assert !Of(stay)(m) && !SaidOf(stay)(Said(m)) && !LostOf(stay.kind)(Said(m));
      ShownQueue(z, stay, c.(watermarks := c.watermarks.Put(kind, m.channelSeq)), Said(m));
      AlikeLose(z, stay, c, c.(states := c.states.Put(kind, Some(NO_STATE))), ChatUnavailable(kind, ReasonGap, true));
    }
  }

  lemma {:induction false} AlikeReceiveAll(z: Sizes, stay: Stay, c: Client, ms: seq<ChatMessage>, kind: ChannelKind)
    requires IsKind(stay.kind) && IsKind(kind) && kind != stay.kind && c.open
    requires forall m :: m in ms ==> m.epoch.channel.kind == kind
    ensures Alike(stay, c, ReceiveAll(z, c, ms))
    decreases |ms|
  {
    hide Receive;
    if ms != [] {
      AlikeReceive(z, stay, c, ms[0]);
      var d := Receive(z, c, ms[0]);
      if d.open {
        AlikeReceiveAll(z, stay, d, ms[1..], kind);
      }
    }
  }

  lemma AlikeResume(z: Sizes, stay: Stay, c: Client, state: ChatState)
    requires IsKind(stay.kind) && IsKind(state.kind) && state.kind != stay.kind && c.open
    ensures Alike(stay, c, Resume(z, c, state))
  {
    hide Heard, Filter;
    forall n | n in c.notices && (SaidOf(stay)(n) || LostOf(stay.kind)(n))
      ensures Not(Stale(state))(n)
    {
      assert !Stale(state)(n);
    }
    ShownThrough(stay, Not(Stale(state)), c.exposed, c.notices);
    FilterThrough(Of(stay), Not(OfKind(state.kind)), c.buffered);
  }

  lemma AlikeApply(z: Sizes, stay: Stay, c: Client, state: ChatState)
    requires IsKind(stay.kind) && IsKind(state.kind) && state.kind != stay.kind && c.open
    ensures Alike(stay, c, Apply(z, c, state))
  {
    hide ReceiveAll, Heard, Filter;
    if state.phase.PhaseActive? {
      AlikeResume(z, stay, c, state);
      var waiting := Filter(OfKind(state.kind), c.buffered);
      assert forall m :: m in waiting ==> OfKind(state.kind)(m);
      AlikeReceiveAll(z, stay, Resume(z, c, state), waiting, state.kind);
    }
  }

  function IfOf(stay: Stay, m: ChatMessage): seq<ChatMessage> { if Belongs(stay, m) then [m] else [] }

  /** A message of the stay's channel kind: its own next one is kept, another stay's is not. */
  lemma CarriesReceive(z: Sizes, stay: Stay, losses: seq<Notice>, arrived: seq<ChatMessage>, c: Client, m: ChatMessage)
    requires c.open && Carries(stay, losses, arrived, c) && m.epoch.channel.kind == stay.kind
    requires Belongs(stay, m) ==> m.channelSeq == stay.watermark + |arrived| + 1
    ensures Carries(stay, losses, arrived + IfOf(stay, m), Receive(z, c, m))
  {
    hide Queue, Heard;
    if !Active(c, stay.kind) {
      FilterConcat(Of(stay), c.buffered, [m]);
      assert [m][..0] == [];
    } else if Belongs(stay, m) {
      assert !LostOf(stay.kind)(Said(m));
      ShownQueue(z, stay, c.(watermarks := c.watermarks.Put(stay.kind, m.channelSeq)), Said(m));
    }
  }

  lemma KeptOne(z: Sizes, stay: Stay, m: ChatMessage)
    ensures Filter(Of(stay), [m]) == IfOf(stay, m) && Total(z.message, [m]) == z.message(m)
  {
    assert [m][..0] == [];
  }

  lemma AfterArrived(a: seq<ChatMessage>, one: seq<ChatMessage>, rest: seq<ChatMessage>, watermark: nat)
    requires Consecutive(a + (one + rest), watermark)
    ensures a + (one + rest) == a + one + rest
    ensures forall m :: one == [m] ==> m.channelSeq == watermark + |a| + 1
  {
    assert one != [] ==> (a + (one + rest))[|a|] == one[0];
  }

  /** The next message to put back, and those after it. */
  lemma NextArrived(z: Sizes, stay: Stay, arrived: seq<ChatMessage>, ms: seq<ChatMessage>)
    requires ms != [] && Consecutive(arrived + Filter(Of(stay), ms), stay.watermark)
    ensures arrived + Filter(Of(stay), ms) == arrived + IfOf(stay, ms[0]) + Filter(Of(stay), ms[1..])
    ensures IfOf(stay, ms[0]) == [ms[0]] ==> ms[0].channelSeq == stay.watermark + |arrived| + 1
    ensures Total(z.message, ms) == z.message(ms[0]) + Total(z.message, ms[1..])
  {
    hide Filter, Total, Of, Belongs, IfOf;
    assert ms == [ms[0]] + ms[1..];
    KeptOne(z, stay, ms[0]);
    FilterConcat(Of(stay), [ms[0]], ms[1..]);
    TotalConcat(z.message, [ms[0]], ms[1..]);
    AfterArrived(arrived, IfOf(stay, ms[0]), Filter(Of(stay), ms[1..]), stay.watermark);
  }

  /** Messages put back after the first active state: all of the stay's, with no gap, and
      there is always room for them. */
  lemma {:induction false} CarriesReceiveAll(z: Sizes, stay: Stay, losses: seq<Notice>, arrived: seq<ChatMessage>, c: Client,
                                             ms: seq<ChatMessage>)
    requires c.open && Carries(stay, losses, arrived, c) && Active(c, stay.kind)
    requires forall m :: m in ms ==> m.epoch.channel.kind == stay.kind
    requires Consecutive(arrived + Filter(Of(stay), ms), stay.watermark)
    requires |c.notices| + |c.buffered| + |ms| <= NOTIFICATIONS_MAX
    requires c.bytes + Total(z.message, ms) <= NOTIFICATION_BYTES_MAX
    ensures var d := ReceiveAll(z, c, ms);
            d.open && Carries(stay, losses, arrived + Filter(Of(stay), ms), d)
    decreases |ms|
  {
    if ms == [] {
      assert arrived + [] == arrived;
    } else {
      var m, rest := ms[0], ms[1..];
      NextArrived(z, stay, arrived, ms);
      hide Carries, Receive, Belongs, Consecutive, Of, Active, Filter, Total;
      PutBackOne(z, stay, losses, arrived, c, m);
      CarriesReceiveAll(z, stay, losses, arrived + IfOf(stay, m), Receive(z, c, m), rest);
    }
  }

  lemma PutBackOne(z: Sizes, stay: Stay, losses: seq<Notice>, arrived: seq<ChatMessage>, c: Client, m: ChatMessage)
    requires c.open && Carries(stay, losses, arrived, c) && Active(c, stay.kind) && m.epoch.channel.kind == stay.kind
    requires Belongs(stay, m) ==> m.channelSeq == stay.watermark + |arrived| + 1
    requires |c.notices| + |c.buffered| < NOTIFICATIONS_MAX && c.bytes + z.message(m) <= NOTIFICATION_BYTES_MAX
    ensures var d := Receive(z, c, m);
            && d.open && Active(d, stay.kind) && Carries(stay, losses, arrived + IfOf(stay, m), d)
            && |d.notices| + |d.buffered| <= |c.notices| + |c.buffered| + 1 && d.bytes <= c.bytes + z.message(m)
  {
    CarriesReceive(z, stay, losses, arrived, c, m);
    hide Heard, Filter;
  }

  /** The stay's own active state. */
  lemma CarriesResume(z: Sizes, stay: Stay, losses: seq<Notice>, arrived: seq<ChatMessage>, c: Client, state: ChatState)
    requires c.open && Carries(stay, losses, arrived, c) && IsKind(stay.kind) && stay.generation != 0
    requires state.kind == stay.kind && state.phase.PhaseActive? && state.generation == stay.generation
    requires StateEpoch(state) == stay.epoch && state.joinWatermark == stay.watermark
    ensures var held := Filter(Of(stay), c.buffered);
            && |held| <= |arrived| && arrived[|arrived| - |held|..] == held
            && Carries(stay, losses, arrived[..|arrived| - |held|], Resume(z, c, state))
  {
    hide Heard, Filter;
    var left := Filter(Not(OfKind(state.kind)), c.buffered);
    forall m | m in left
      ensures !Of(stay)(m)
    {
      assert Not(OfKind(state.kind))(m);
    }
    FilterNone(Of(stay), left);
    if Active(c, stay.kind) {
      assert arrived[..|arrived| - 0] == arrived;
    } else {
      ResumeShows(z, stay, c, state);
      assert arrived[..0] == [];
    }
  }

  lemma ResumeShows(z: Sizes, stay: Stay, c: Client, state: ChatState)
    requires state.generation == stay.generation && StateEpoch(state) == stay.epoch
    ensures var d := Resume(z, c, state);
            && Heard(stay, Shown(d)) == Heard(stay, Shown(c))
            && Filter(LostOf(stay.kind), Shown(d)) == Filter(LostOf(stay.kind), Shown(c))
  {
    hide Heard, Filter;
    forall n | n in c.notices && (SaidOf(stay)(n) || LostOf(stay.kind)(n))
      ensures Not(Stale(state))(n)
    {
      assert !Stale(state)(n);
    }
    ShownThrough(stay, Not(Stale(state)), c.exposed, c.notices);
  }

  lemma CarriesApply(z: Sizes, stay: Stay, losses: seq<Notice>, arrived: seq<ChatMessage>, c: Client, state: ChatState)
    requires c.open && Sound(z, c) && Carries(stay, losses, arrived, c) && IsKind(stay.kind) && stay.generation != 0
    requires state.kind == stay.kind && Fits(stay, EvState(state)) && Consecutive(arrived, stay.watermark)
    ensures var d := Apply(z, c, state);
            d.open && Carries(stay, losses, arrived, d)
  {
    hide Sound, Carries, Heard, Filter, Receive;
    if state.phase.PhaseActive? {
      SoundResume(z, c, state);
      CarriesResume(z, stay, losses, arrived, c, state);
      var waiting := Filter(OfKind(stay.kind), c.buffered);
      FilterThrough(Of(stay), OfKind(stay.kind), c.buffered);
      var held := Filter(Of(stay), waiting);
      assert arrived == arrived[..|arrived| - |held|] + held;
      assert forall m :: m in waiting ==> OfKind(stay.kind)(m);
      CarriesReceiveAll(z, stay, losses, arrived[..|arrived| - |held|], Resume(z, c, state), waiting);
    }
  }

  lemma AlikeCarries(stay: Stay, losses: seq<Notice>, arrived: seq<ChatMessage>, c: Client, c': Client)
    requires Carries(stay, losses, arrived, c) && Alike(stay, c, c')
    ensures Carries(stay, losses, arrived, c')
  {
  }

  function Arrives(stay: Stay, e: Event): seq<ChatMessage> {
    if e.EvFrame? && e.frame.Message? then IfOf(stay, e.frame.message) else []
  }

  lemma CarriesFrame(z: Sizes, stay: Stay, losses: seq<Notice>, arrived: seq<ChatMessage>, c: Client, f: Frame)
    requires Carries(stay, losses, arrived, c) && c.open && IsKind(stay.kind)
    requires Decoded(EvFrame(f)) && Fits(stay, EvFrame(f)) && Consecutive(arrived + Arrives(stay, EvFrame(f)), stay.watermark)
    ensures Carries(stay, losses, arrived + Arrives(stay, EvFrame(f)), Accept(z, c, f))
  {
    assert arrived + [] == arrived;
    assert Carries(stay, losses, arrived, Close(c));
    hide Carries, Receive, Discard, Queue, Heard, Filter, Alike;
    match f
    case Message(m) =>
      if m.epoch.channel.kind == stay.kind {
        assert Belongs(stay, m) ==> (arrived + IfOf(stay, m))[|arrived|] == m;
        CarriesReceive(z, stay, losses, arrived, c, m);
      } else {
        AlikeReceive(z, stay, c, m);
        AlikeCarries(stay, losses, arrived, c, Receive(z, c, m));
      }
    case Unavailable(u) =>
      AlikeLose(z, stay, c, c.(states := c.states.Put(u.kind, None)), u);
      AlikeCarries(stay, losses, arrived, c, Withdraw(z, c, u));
    case _ =>
  }

  lemma CarriesStep(z: Sizes, stay: Stay, losses: seq<Notice>, arrived: seq<ChatMessage>, c: Client, e: Event)
    requires Sound(z, c) && Carries(stay, losses, arrived, c) && IsKind(stay.kind) && stay.generation != 0
    requires Decoded(e) && Fits(stay, e) && Consecutive(arrived + Arrives(stay, e), stay.watermark)
    ensures Carries(stay, losses, arrived + Arrives(stay, e), Step(z, c, e))
  {
    hide Sound, Accept, Apply, Heard, Filter, Alike;
    assert arrived + [] == arrived;
    match e
    case EvFrame(f) => if c.open { CarriesFrame(z, stay, losses, arrived, c, f); }
    case EvState(state) =>
      if c.open && state.kind == stay.kind {
        CarriesApply(z, stay, losses, arrived, c, state);
      } else if c.open {
        AlikeApply(z, stay, c, state);
        AlikeCarries(stay, losses, arrived, c, Apply(z, c, state));
      }
    case EvTake =>
      if c.notices != [] {
        assert c.exposed + [c.notices[0]] + c.notices[1..] == Shown(c);
      }
    case EvClose =>
  }

  /** The slot is free, and nothing of the stay was ever here. */
  ghost predicate NewTo(c: Client, stay: Stay) {
    Vacant(c, stay.kind) && Heard(stay, Shown(c)) == [] && Filter(Of(stay), c.buffered) == []
  }

  /** A client with no active state for a channel kind, fed one stay's messages w+1, w+2, ...
      with its state replies, other stays' leftovers and all other traffic interleaved anywhere,
      shows the caller exactly what arrived, whole and in order, and never reports a loss,
      for as long as it is open. */
  lemma {:induction false} StayDeliveredInFull(z: Sizes, c: Client, stay: Stay, es: seq<Event>)
    requires Sound(z, c) && IsKind(stay.kind) && stay.generation != 0 && NewTo(c, stay)
    requires forall i :: 0 <= i < |es| ==> Decoded(es[i]) && Fits(stay, es[i])
    requires Consecutive(Arrived(stay, es), stay.watermark)
    ensures Carries(stay, Filter(LostOf(stay.kind), Shown(c)), Arrived(stay, es), Run(z, c, es))
    ensures Sound(z, Run(z, c, es))
  {
    hide Sound, Step, Decoded, Fits, Heard, Filter;
    if es != [] {
      var rest, e := es[..|es| - 1], es[|es| - 1];
      assert Arrived(stay, es) == Arrived(stay, rest) + Arrives(stay, e);
      assert forall i :: 0 <= i < |Arrived(stay, rest)| ==> Arrived(stay, es)[i] == Arrived(stay, rest)[i];
      StayDeliveredInFull(z, c, stay, rest);
      SoundStep(z, Run(z, c, rest), e);
      CarriesStep(z, stay, Filter(LostOf(stay.kind), Shown(c)), Arrived(stay, rest), Run(z, c, rest), e);
    }
  }

  /** The stay's own traffic ends the session in one case only: a message that must be kept
      finds no room.  Putting back what waited never does. */
  lemma OnlyOverflowCloses(z: Sizes, stay: Stay, losses: seq<Notice>, arrived: seq<ChatMessage>, c: Client, e: Event)
    requires c.open && Sound(z, c) && Carries(stay, losses, arrived, c) && IsKind(stay.kind) && stay.generation != 0
    requires Fits(stay, e) && Consecutive(arrived + Arrives(stay, e), stay.watermark)
    requires match e
             case EvFrame(Message(m)) => m.epoch.channel.kind == stay.kind
             case EvState(state) => state.kind == stay.kind
             case _ => false
    ensures Step(z, c, e).open <==>
              (e.EvFrame? && (!Active(c, stay.kind) || Belongs(stay, e.frame.message)) ==> HasRoom(c, z.message(e.frame.message)))
  {
    hide Sound, Heard, Filter, Apply;
    assert arrived + [] == arrived;
    match e
    case EvState(state) => CarriesApply(z, stay, losses, arrived, c, state);
    case EvFrame(Message(m)) =>
      assert Belongs(stay, m) ==> (arrived + IfOf(stay, m))[|arrived|] == m;
    case _ =>
  }
}
