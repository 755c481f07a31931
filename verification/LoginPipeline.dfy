/** The gateway login pipeline, phase by phase, as functions from state to state.

    What the program asks of the outside is an input here: the verdict on a credential arrives
    with the message, and a `Frame` says what the transport, the account fetch and the admission
    store answer.  `log` (every commit and release asked of the store), `granted` (every handle
    it gave) and a session's `admission` (the handle it was admitted with) are history
    variables. */
module LoginPipeline {
  import opened Basics

  datatype Stage = Pending | Fetching | HandedOff
  datatype Intent = Nothing | Decline | Close | Accept | Handoff
  datatype Delivery = Queued | Full | Stopped
  datatype Verdict = Reserved | Invalid | InProgress | Consumed | StoreUnavailable
  datatype Ingress = Allowed(verdict: Verdict) | Throttled | Abusive | Malformed
  datatype Body = Oversized | NotAttach | Attach(ingress: Ingress)
  datatype EdgeEvent = Opened(id: nat) | Closed(id: nat) | AddressChanged(id: nat) | Received(id: nat, established: bool, body: Body)
  datatype Completion = Completion(attempt: nat, outcome: FetchOutcome)
  datatype FetchOutcome = FetchOk | NotEligible | FetchUnavailable

  datatype MutationKind = Release | Commit(applied: bool)
  datatype Mutation = Mutation(handle: nat, kind: MutationKind)

  datatype Session = Session(stage: Stage, intent: Intent, closing: bool, fetchReserved: bool, reservation: Option<nat>,
                             failures: nat, fetchDue: int, activeAttempt: Option<nat>, attemptDeadline: int,
                             handoffDeadline: Option<int>, attachAttempts: nat, admission: Option<nat>)

  const FRESH := Session(Pending, Nothing, false, false, None, 0, 0, None, 0, None, 0, None)

  datatype Config = Config(connCapacity: nat, fetchCapacity: nat, fetchRetryMax: nat, fetchTimeout: int, handoffGrace: int,
                           retryDelay: nat -> int)

  /** `order` is the order in which the hash table lists its keys. */
  datatype Frame = Frame(now: int, events: seq<EdgeEvent>, completions: seq<Completion>, realmKnown: bool,
                         submit: nat -> Delivery, deliver: (nat, Intent) -> Delivery, commit: nat -> bool,
                         order: set<nat> -> seq<nat>)

  datatype State = State(sessions: map<nat, Session>, attempts: map<nat, nat>, fetchUsed: int, healthy: bool,
                         nextAttempt: nat, nextAdmission: nat, log: seq<Mutation>, granted: set<nat>)

  const START := State(map[], map[], 0, true, 1, 1, [], {})

  /** The listing contains every key. */
  ghost predicate Lists(order: set<nat> -> seq<nat>) {
    forall keys: set<nat>, k :: k in keys ==> k in order(keys)
  }

  predicate Spent(log: seq<Mutation>, h: nat) { exists i :: 0 <= i < |log| && log[i].handle == h }

  // ---------------------------------------------------------------------------------------
  // Giving things back

  function Put(s: State, id: nat, x: Session): State { s.(sessions := s.sessions[id := x]) }

  /** A handle works once: on a spent one nothing is asked of the store. */
  function Mutated(log: seq<Mutation>, h: nat, kind: MutationKind): seq<Mutation> {
    if Spent(log, h) then log else log + [Mutation(h, kind)]
  }

  function ReleaseHandle(s: State, id: nat): State
    requires id in s.sessions
  {
    var x := s.sessions[id];
    if x.reservation.None? then s
    else Put(s, id, x.(reservation := None)).(log := Mutated(s.log, x.reservation.value, Release))
  }

  function ReleaseFetch(s: State, id: nat): State
    requires id in s.sessions
  {
    if !s.sessions[id].fetchReserved then s
    else Put(s, id, s.sessions[id].(fetchReserved := false)).(fetchUsed := s.fetchUsed - 1)
  }

  function CancelAttempt(s: State, id: nat): State
    requires id in s.sessions
  {
    var x := s.sessions[id];
    if x.activeAttempt.None? then s
    else Put(s, id, x.(activeAttempt := None)).(attempts := s.attempts - {x.activeAttempt.value})
  }

  function Dropped(s: State, id: nat): State
    requires id in s.sessions
  {
    ReleaseHandle(ReleaseFetch(CancelAttempt(s, id), id), id)
  }

  /** `intent` is `Close` or `Decline`. */
  function Ending(s: State, id: nat, intent: Intent): State
    requires id in s.sessions
  {
    var s1 := Dropped(s, id);
    Put(s1, id, s1.sessions[id].(closing := true, intent := intent))
  }

  function Stop(s: State, ids: seq<nat>): State {
    if ids == [] then s.(healthy := false, attempts := map[])
    else
      var s1 := Stop(s, ids[..|ids| - 1]);
      var id := ids[|ids| - 1];
      if id !in s1.sessions then s1
      else ReleaseHandle(Put(s1, id, s1.sessions[id].(activeAttempt := None)), id)
  }

  function MarkUnhealthy(f: Frame, s: State): State { Stop(s, f.order(s.sessions.Keys)) }

  // ---------------------------------------------------------------------------------------
  // Connections and messages

  function Lifecycle(c: Config, s: State, e: EdgeEvent): State {
    match e
    case Opened(id) => if id in s.sessions || |s.sessions| >= c.connCapacity then s else Put(s, id, FRESH)
    case Closed(id) =>
      if id !in s.sessions then s
      else
        var s1 := Dropped(s, id);
        s1.(sessions := s1.sessions - {id})
    case _ => s
  }

  function Lifecycles(c: Config, s: State, es: seq<EdgeEvent>): State {
    if es == [] then s else Lifecycle(c, Lifecycles(c, s, es[..|es| - 1]), es[|es| - 1])
  }

  function HandleAttach(c: Config, s: State, id: nat, verdict: Verdict): State
    requires id in s.sessions
  {
    if s.sessions[id].stage != Pending || s.fetchUsed >= c.fetchCapacity then Ending(s, id, Decline)
    else
      var h := s.nextAdmission;
      var s1 := s.(nextAdmission := h + 1);
      if verdict != Reserved then Ending(s1, id, Decline)
      else
        Put(s1, id, s.sessions[id].(reservation := Some(h), fetchReserved := true, intent := Accept, admission := Some(h)))
        .(fetchUsed := s.fetchUsed + 1, granted := s.granted + {h})
  }

  function Receive(c: Config, s: State, id: nat, established: bool, body: Body): State {
    if id !in s.sessions || s.sessions[id].closing || s.sessions[id].intent != Nothing then s
    else if established || s.sessions[id].stage != Pending then Ending(s, id, Close)
    else match body
      case Oversized => Ending(s, id, Close)
      case NotAttach => Ending(s, id, Decline)
      case Attach(ingress) =>
        var s1 := Put(s, id, s.sessions[id].(attachAttempts := s.sessions[id].attachAttempts + 1));
        match ingress
        case Allowed(verdict) => HandleAttach(c, s1, id, verdict)
        case Throttled => Ending(s1, id, Decline)
        case Abusive => Ending(s1, id, Close)
        case Malformed => Ending(s1, id, Decline)
  }

  function Messages(c: Config, s: State, es: seq<EdgeEvent>): State {
    if es == [] then s
    else
      var s1 := Messages(c, s, es[..|es| - 1]);
      match es[|es| - 1]
      case Received(id, established, body) => Receive(c, s1, id, established, body)
      case _ => s1
  }

  // ---------------------------------------------------------------------------------------
  // Deadlines and fetches

  function Expire(s: State, id: nat, now: int): State {
    if id !in s.sessions || s.sessions[id].closing || s.sessions[id].handoffDeadline.None?
       || s.sessions[id].handoffDeadline.value > now then s
    else Ending(s, id, Close)
  }

  function Expiries(s: State, ids: seq<nat>, now: int): State {
    if ids == [] then s else Expire(Expiries(s, ids[..|ids| - 1], now), ids[|ids| - 1], now)
  }

  /** One more failure: try again later, or give up. */
  function Failed(c: Config, s: State, id: nat, now: int): State
    requires id in s.sessions
  {
    var failures := s.sessions[id].failures + 1;
    var s1 := Put(s, id, s.sessions[id].(failures := failures));
    if failures <= c.fetchRetryMax then Put(s1, id, s1.sessions[id].(fetchDue := now + c.retryDelay(failures)))
    else Ending(s1, id, Decline)
  }

  function Complete(c: Config, s: State, done: Completion, now: int): State {
    if done.attempt !in s.attempts then s
    else
      var id := s.attempts[done.attempt];
      var s1 := s.(attempts := s.attempts - {done.attempt});
      if id !in s.sessions || s.sessions[id].activeAttempt != Some(done.attempt) then s1
      else
        var s2 := Put(s1, id, s.sessions[id].(activeAttempt := None));
        if s2.sessions[id].closing then s2
        else match done.outcome
          case FetchOk =>
            var s3 := ReleaseFetch(s2, id);
            Put(s3, id, s3.sessions[id].(intent := Handoff))
          case NotEligible => Ending(s2, id, Decline)
          case FetchUnavailable => Failed(c, s2, id, now)
  }

  function Completions(c: Config, s: State, done: seq<Completion>, now: int): State {
    if done == [] then s else Complete(c, Completions(c, s, done[..|done| - 1], now), done[|done| - 1], now)
  }

  function TimeOut(c: Config, s: State, id: nat, now: int): State {
    if id !in s.sessions || s.sessions[id].closing || s.sessions[id].activeAttempt.None? || s.sessions[id].attemptDeadline > now then s
    else Failed(c, CancelAttempt(s, id), id, now)
  }

  function TimeOuts(c: Config, s: State, ids: seq<nat>, now: int): State {
    if ids == [] then s else TimeOut(c, TimeOuts(c, s, ids[..|ids| - 1], now), ids[|ids| - 1], now)
  }

  function Submit(c: Config, f: Frame, s: State, id: nat): State {
    if !s.healthy || id !in s.sessions then s
    else
      var x := s.sessions[id];
      if x.closing || x.stage != Fetching || !x.fetchReserved || x.activeAttempt.Some? || x.intent != Nothing || x.fetchDue > f.now then s
      else
        var a := s.nextAttempt;
        var s1 := s.(nextAttempt := a + 1);
        match f.submit(a)
        case Full => s1
        case Stopped => MarkUnhealthy(f, s1)
        case Queued =>
          Put(s1, id, x.(activeAttempt := Some(a), attemptDeadline := f.now + c.fetchTimeout)).(attempts := s.attempts[a := id])
  }

  function Submits(c: Config, f: Frame, s: State, ids: seq<nat>): State {
    if ids == [] then s else Submit(c, f, Submits(c, f, s, ids[..|ids| - 1]), ids[|ids| - 1])
  }

  // ---------------------------------------------------------------------------------------
  // Intents

  function FlushAccept(c: Config, f: Frame, s: State, id: nat): State
    requires id in s.sessions
  {
    var x := s.sessions[id];
    if x.reservation.None? then MarkUnhealthy(f, s)
    else
      var h := x.reservation.value;
      match f.deliver(id, Accept)
      case Full => s
      case Stopped => MarkUnhealthy(f, Put(s, id, x.(reservation := None)).(log := Mutated(s.log, h, Release)))
      case Queued =>
        var applied := !Spent(s.log, h) && f.commit(h);
        var s1 := Put(s, id, x.(reservation := None)).(log := Mutated(s.log, h, Commit(applied)));
        if applied then Put(s1, id, s1.sessions[id].(stage := Fetching, fetchDue := f.now, intent := Nothing))
        else
          var s2 := ReleaseFetch(s1, id);
          Put(s2, id, s2.sessions[id].(closing := true, intent := Close))
  }

  function FlushHandoff(c: Config, f: Frame, s: State, id: nat): State
    requires id in s.sessions
  {
    if !f.realmKnown then Ending(s, id, Close)
    else match f.deliver(id, Handoff)
      case Full => s
      case Stopped => MarkUnhealthy(f, Put(s, id, s.sessions[id].(reservation := None)))
      case Queued => Put(s, id, s.sessions[id].(stage := HandedOff, handoffDeadline := Some(f.now + c.handoffGrace), intent := Nothing))
  }

  function FlushEnding(f: Frame, s: State, id: nat, kind: Intent): State
    requires id in s.sessions
  {
    var x := s.sessions[id];
    match f.deliver(id, kind)
    case Full => s
    case Stopped => MarkUnhealthy(f, Put(s, id, x.(reservation := None)))
    case Queued =>
      Put(s, id, x.(closing := true, intent := Nothing, handoffDeadline := if kind == Close then None else x.handoffDeadline))
  }

  function Flush(c: Config, f: Frame, s: State, id: nat, kind: Intent): State {
    if !s.healthy || id !in s.sessions || s.sessions[id].intent != kind then s
    else match kind
      case Nothing => s
      case Accept => FlushAccept(c, f, s, id)
      case Handoff => FlushHandoff(c, f, s, id)
      case _ => FlushEnding(f, s, id, kind)
  }

  function FlushAll(c: Config, f: Frame, s: State, ids: seq<nat>, kind: Intent): State {
    if ids == [] then s else Flush(c, f, FlushAll(c, f, s, ids[..|ids| - 1], kind), ids[|ids| - 1], kind)
  }

  const PRIORITY: seq<Intent> := [Close, Decline, Accept, Handoff]

  function FlushKinds(c: Config, f: Frame, s: State, ids: seq<nat>, kinds: nat): State
    requires kinds <= |PRIORITY|
  {
    if kinds == 0 then s else FlushAll(c, f, FlushKinds(c, f, s, ids, kinds - 1), ids, PRIORITY[kinds - 1])
  }

  function Advance(c: Config, f: Frame, s: State): State {
    if !s.healthy then s
    else
      var s1 := Messages(c, Lifecycles(c, s, f.events), f.events);
      var s2 := Expiries(s1, f.order(s1.sessions.Keys), f.now);
      var s3 := Completions(c, s2, f.completions, f.now);
      var s4 := TimeOuts(c, s3, f.order(s3.sessions.Keys), f.now);
      var s5 := Submits(c, f, s4, f.order(s4.sessions.Keys));
      FlushKinds(c, f, s5, Ascending(s5.sessions.Keys), |PRIORITY|)
  }

  function Run(c: Config, fs: seq<Frame>): State {
    if fs == [] then START else Advance(c, fs[|fs| - 1], Run(c, fs[..|fs| - 1]))
  }
}
