/** The chat end of the client session as functions from state to state: what is buffered
    before the first state reply, what is queued for the caller, and what is thrown away.

    `exposed` is a history variable: every notice ever handed to the caller. */
module ChatClient {
  import opened Basics
  import opened Filters
  import opened ChatProtocol
  import ChatSequencer

  const NOTIFICATIONS_MAX: nat := 256
  const NOTIFICATION_BYTES_MAX: nat := 256 * 1024

  datatype Notice = Said(message: ChatMessage) | Lost(unavailable: ChatUnavailable)

  /** Encoded sizes. */
  datatype Sizes = Sizes(message: ChatMessage -> nat, unavailable: ChatUnavailable -> nat)

  /** The two slots the session keeps: one for the realm channel, one for the scene channel. */
  datatype Slots<T> = Slots(realm: T, scene: T) {
    function Of(kind: ChannelKind): T { if kind.KindRealm? then realm else scene }

    function Put(kind: ChannelKind, value: T): Slots<T> {
      if kind.KindRealm? then Slots(value, scene) else Slots(realm, value)
    }
  }

  datatype Client = Client(notices: seq<Notice>, buffered: seq<ChatMessage>, bytes: int,
                           states: Slots<Option<ChatState>>, watermarks: Slots<nat>, open: bool,
                           exposed: seq<Notice>)

  const NO_EPOCH := Epoch(Channel(0, KindUnspecified, 0), [])
  const NO_STATE := ChatState(KindUnspecified, PhaseUnspecified, 0, None, 0, 0, None, ReasonNone)

  function StateEpoch(state: ChatState): Epoch { if state.epoch.Some? then state.epoch.value else NO_EPOCH }

  function KindOf(n: Notice): ChannelKind {
    match n
    case Said(m) => m.epoch.channel.kind
    case Lost(u) => u.kind
  }

  function NoticeSize(z: Sizes, n: Notice): nat {
    match n
    case Said(m) => z.message(m)
    case Lost(u) => z.unavailable(u)
  }

  function SizeOf(z: Sizes): Notice -> nat { n => NoticeSize(z, n) }

  function OfKind(kind: ChannelKind): ChatMessage -> bool { (m: ChatMessage) => m.epoch.channel.kind == kind }

  function About(kind: ChannelKind): Notice -> bool { (n: Notice) => KindOf(n) == kind }

  /** Queued messages of the state's channel kind that belong to another stay. */
  function Stale(state: ChatState): Notice -> bool {
    (n: Notice) => n.Said? && n.message.epoch.channel.kind == state.kind
         && (n.message.generation != state.generation || n.message.epoch != StateEpoch(state))
  }

  const START := Client([], [], 0, Slots(None, None), Slots(0, 0), true, [])

  function Close(c: Client): Client {
    Client([], [], 0, Slots(None, None), Slots(0, 0), false, c.exposed)
  }

  function Discard(z: Sizes, c: Client, kind: ChannelKind): Client {
    c.(buffered := Filter(Not(OfKind(kind)), c.buffered), notices := Filter(Not(About(kind)), c.notices),
       bytes := c.bytes - Total(z.message, Filter(OfKind(kind), c.buffered))
                - Total(SizeOf(z), Filter(About(kind), c.notices)))
  }

  predicate HasRoom(c: Client, bytes: nat) {
    ChatSequencer.BudgetAllows(|c.notices| + |c.buffered|, c.bytes, 1, bytes, NOTIFICATIONS_MAX, NOTIFICATION_BYTES_MAX)
  }

  function Queue(z: Sizes, c: Client, n: Notice): Client {
    if HasRoom(c, SizeOf(z)(n)) then c.(bytes := c.bytes + SizeOf(z)(n), notices := c.notices + [n])
    else Close(c)
  }

  predicate Active(c: Client, kind: ChannelKind) {
    c.states.Of(kind).Some? && c.states.Of(kind).value.phase.PhaseActive?
  }

  function Receive(z: Sizes, c: Client, m: ChatMessage): Client {
    var kind := m.epoch.channel.kind;
    if !Active(c, kind) then
      if HasRoom(c, z.message(m)) then c.(bytes := c.bytes + z.message(m), buffered := c.buffered + [m])
      else Close(c)
    else
      var state := c.states.Of(kind).value;
      if state.generation != m.generation || StateEpoch(state) != m.epoch || m.channelSeq <= c.watermarks.Of(kind) then c
      else if m.channelSeq != c.watermarks.Of(kind) + 1 then
        Queue(z, Discard(z, c.(states := c.states.Put(kind, Some(NO_STATE))), kind), Lost(ChatUnavailable(kind, ReasonGap, true)))
      else Queue(z, c.(watermarks := c.watermarks.Put(kind, m.channelSeq)), Said(m))
  }

  function ReceiveAll(z: Sizes, c: Client, ms: seq<ChatMessage>): Client
    decreases |ms|
  {
    if ms == [] || !c.open then c else ReceiveAll(z, Receive(z, c, ms[0]), ms[1..])
  }

  predicate Changed(c: Client, state: ChatState) {
    var previous := c.states.Of(state.kind);
    previous.None? || previous.value.generation != state.generation || StateEpoch(previous.value) != StateEpoch(state)
  }

  /** Install an active state; a new stay resets the watermark and drops what the old one queued. */
  function Install(z: Sizes, c: Client, state: ChatState): Client {
    var c1 := c.(states := c.states.Put(state.kind, Some(state)));
    if !Changed(c, state) then c1
    else c1.(watermarks := c.watermarks.Put(state.kind, state.joinWatermark),
             notices := Filter(Not(Stale(state)), c.notices),
             bytes := c.bytes - Total(SizeOf(z), Filter(Stale(state), c.notices)))
  }

  function Apply(z: Sizes, c: Client, state: ChatState): Client {
    if !state.phase.PhaseActive? then c
    else
      var c1 := Install(z, c, state);
      var waiting := Filter(OfKind(state.kind), c1.buffered);
      ReceiveAll(z, c1.(buffered := Filter(Not(OfKind(state.kind)), c1.buffered), bytes := c1.bytes - Total(z.message, waiting)),
                 waiting)
  }

  function Withdraw(z: Sizes, c: Client, u: ChatUnavailable): Client {
    Queue(z, Discard(z, c.(states := c.states.Put(u.kind, None)), u.kind), Lost(u))
  }

  /** The frames of a session: chat notices, the two that end it, and those chat ignores. */
  datatype Frame = Message(message: ChatMessage) | Unavailable(unavailable: ChatUnavailable)
    | Displaced | SceneNotice(overflow: bool) | Unknown

  function Accept(z: Sizes, c: Client, f: Frame): Client {
    match f
    case Message(m) => Receive(z, c, m)
    case Unavailable(u) => Withdraw(z, c, u)
    case Displaced => Close(c)
    case SceneNotice(overflow) => if overflow then Close(c) else c
    case Unknown => c
  }

  function AcceptAll(z: Sizes, c: Client, fs: seq<Frame>): Client {
    if fs == [] then c else Accept(z, AcceptAll(z, c, fs[..|fs| - 1]), fs[|fs| - 1])
  }

  function Take(z: Sizes, c: Client): (Client, Option<Notice>) {
    if c.notices == [] then (c, None)
    else (c.(notices := c.notices[1..], bytes := c.bytes - SizeOf(z)(c.notices[0]), exposed := c.exposed + [c.notices[0]]),
          Some(c.notices[0]))
  }

  datatype Event = EvFrame(frame: Frame) | EvState(state: ChatState) | EvTake | EvClose

  /** Nothing more arrives once the stream is gone. */
  function Step(z: Sizes, c: Client, e: Event): Client {
    match e
    case EvFrame(f) => if c.open then Accept(z, c, f) else c
    case EvState(state) => if c.open then Apply(z, c, state) else c
    case EvTake => Take(z, c).0
    case EvClose => Close(c)
  }

  function Run(z: Sizes, c: Client, es: seq<Event>): Client {
    if es == [] then c else Step(z, Run(z, c, es[..|es| - 1]), es[|es| - 1])
  }

  /** What the decoders let through. */
  predicate Decoded(e: Event) {
    match e
    case EvFrame(Message(m)) => ValidMessage(m, 0)
    case EvFrame(Unavailable(u)) => IsKind(u.kind)
    case EvState(state) => ValidState(state, 1)
    case _ => true
  }
}
