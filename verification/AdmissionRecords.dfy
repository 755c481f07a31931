/** The consumption record of one identity and what reserve, commit and release do to it in one
    atomic step.  Records hold whole seconds.  The keyed digests of the identifiers are ideal, so an identifier stands for its own digest. */
module AdmissionRecords {
  import opened Basics
  import opened Clock
  import opened Credentials

  const FENCING_MAX: nat := 0xFFFF_FFFF_FFFF_FFFF
  const OWNER_MAX: nat := 128
  const TTL_MAX: int := 300

  type Owner = seq<char>

  datatype RecordState = Reserved | Consumed
  datatype Record = Record(state: RecordState, grant: Jti, owner: Owner, fencing: nat, leaseExpiresAt: int, consumeUntil: int)
  datatype ReserveRequest = ReserveRequest(identity: Jti, grant: Jti, owner: Owner, now: int, consumeUntil: int)
  datatype Reservation = Reservation(identity: Jti, grant: Jti, owner: Owner, fencing: nat, leaseExpiresAt: int, consumeUntil: int)

  datatype Call = CallReserve(request: ReserveRequest) | CallCommit(reservation: Reservation, now: int)
    | CallRelease(reservation: Reservation, now: int)
  datatype Answer = Granted(reservation: Reservation) | InProgress | AlreadyConsumed | Applied | Lost | Unavailable

  predicate ValidTime(t: int) { Seconds(Normalized(t)) >= 0 }

  predicate ValidOwner(s: Owner) { s != [] && |s| <= OWNER_MAX && forall i :: 0 <= i < |s| ==> '!' <= s[i] <= '~' }

  predicate ValidTtl(ttl: int) { 0 < ttl <= TTL_MAX }

  /** What a call must satisfy; the program throws on any other. */
  predicate ValidCall(call: Call) {
    match call
    case CallReserve(q) =>
      && ValidJti(q.identity) && ValidJti(q.grant) && ValidOwner(q.owner) && ValidTime(q.now)
      && ValidTime(q.consumeUntil) && Normalized(q.consumeUntil) >= Normalized(q.now)
    case CallCommit(r, now) => ValidReservation(r) && ValidTime(now)
    case CallRelease(r, now) => ValidReservation(r) && ValidTime(now)
  }

  predicate ValidReservation(r: Reservation) {
    && ValidJti(r.identity) && ValidJti(r.grant) && ValidOwner(r.owner) && r.fencing != 0
    && ValidTime(r.leaseExpiresAt) && ValidTime(r.consumeUntil)
  }

  function IdentityOf(call: Call): Jti {
    if call.CallReserve? then call.request.identity else call.reservation.identity
  }

  function OwnerOf(call: Call): Owner {
    if call.CallReserve? then call.request.owner else call.reservation.owner
  }

  function ReservationFrom(q: ReserveRequest, r: Record): Reservation {
    Reservation(q.identity, q.grant, q.owner, r.fencing, r.leaseExpiresAt, r.consumeUntil)
  }

  predicate Matches(r: Record, v: Reservation) {
    r.fencing == v.fencing && r.owner == v.owner && r.grant == v.grant
  }

  function NewRecord(ttl: int, q: ReserveRequest, fencing: nat): Record {
    Record(Reserved, q.grant, q.owner, fencing, Normalized(q.now) + ttl * TICKS, Normalized(q.consumeUntil))
  }

  /** The record still speaks for its holder at time `t`. */
  predicate Blocks(r: Record, t: int) {
    match r.state
    case Consumed => t <= r.consumeUntil
    case Reserved => t < r.leaseExpiresAt
  }

  // ---------------------------------------------------------------------------------------
  // The atomic store

  /** Reserve, commit and release as one step on the record of the identity, if it has one. */
  function Atomic(ttl: int, r: Option<Record>, call: Call): (Option<Record>, Answer) {
    match call
    case CallReserve(q) => AtomicReserve(ttl, r, q)
    case CallCommit(v, now) =>
      if r.None? then (r, Lost)
      else if r.value.state.Consumed? then
        (r, if r.value.fencing == v.fencing && r.value.grant == v.grant then Applied else Lost)
      else if !Matches(r.value, v) || Normalized(now) >= r.value.leaseExpiresAt || Normalized(now) > r.value.consumeUntil then (r, Lost)
      else (Some(r.value.(state := Consumed, consumeUntil := Normalized(v.consumeUntil))), Applied)
    case CallRelease(v, now) =>
      if r.None? || r.value.state != Reserved || !Matches(r.value, v) then (r, Lost)
      else (Some(r.value.(leaseExpiresAt := Normalized(now))), Applied)
  }

  function AtomicReserve(ttl: int, r: Option<Record>, q: ReserveRequest): (Option<Record>, Answer) {
    if r.None? then
      var first := NewRecord(ttl, q, 1);
      (Some(first), Granted(ReservationFrom(q, first)))
    else if Blocks(r.value, Normalized(q.now)) then
      (r, if r.value.state.Consumed? then AlreadyConsumed
          else if r.value.owner == q.owner && r.value.grant == q.grant then Granted(ReservationFrom(q, r.value))
          else InProgress)
    else if r.value.fencing >= FENCING_MAX then (r, Unavailable)
    else
      var next := NewRecord(ttl, q, r.value.fencing + 1);
      (Some(next), Granted(ReservationFrom(q, next)))
  }

  // ---------------------------------------------------------------------------------------
  // What one round of the etcd client decides from the record it loaded

  datatype Decision = Say(answer: Answer) | Write(replacement: Record, answer: Answer)

  function Decide(ttl: int, r: Option<Record>, call: Call): Decision {
    match call
    case CallReserve(q) => DecideReserve(ttl, r, q)
    case CallCommit(v, now) => DecideMutation(r, v, now, true)
    case CallRelease(v, now) => DecideMutation(r, v, now, false)
  }

  function DecideReserve(ttl: int, r: Option<Record>, q: ReserveRequest): Decision {
    var now := Normalized(q.now);
    if r.Some? && r.value.state.Consumed? && now <= r.value.consumeUntil then Say(AlreadyConsumed)
    else if r.Some? && r.value.state.Reserved? && now < r.value.leaseExpiresAt then
      if r.value.owner == q.owner && r.value.grant == q.grant then Say(Granted(ReservationFrom(q, r.value)))
      else Say(InProgress)
    else if r.Some? && r.value.fencing >= FENCING_MAX then Say(Unavailable)
    else
      var replacement := NewRecord(ttl, q, if r.Some? then r.value.fencing + 1 else 1);
      Write(replacement, Granted(ReservationFrom(q, replacement)))
  }

  function DecideMutation(r: Option<Record>, v: Reservation, now: int, commit: bool): Decision {
    if r.None? then Say(Lost)
    else if r.value.state.Consumed? then
      Say(if commit && r.value.fencing == v.fencing && r.value.grant == v.grant then Applied else Lost)
    else if !Matches(r.value, v) then Say(Lost)
    else if commit && (Normalized(now) >= r.value.leaseExpiresAt || Normalized(now) > r.value.consumeUntil) then Say(Lost)
    else Write(if commit then r.value.(state := Consumed, consumeUntil := Normalized(v.consumeUntil))
               else r.value.(leaseExpiresAt := Normalized(now)), Applied)
  }

  /** One load-and-decide round is the atomic step: what it says, the atomic store says of the
      same record and leaves it alone; what it writes, the atomic store writes. */
  lemma DecideIsAtomic(ttl: int, r: Option<Record>, call: Call)
    ensures match Decide(ttl, r, call)
            case Say(answer) => Atomic(ttl, r, call) == (r, answer)
            case Write(replacement, answer) => Atomic(ttl, r, call) == (Some(replacement), answer) && answer != Unavailable
  {
  }

  // ---------------------------------------------------------------------------------------
  // Retention

  /** Seconds an etcd key is kept from `now` on. */
  function RetentionTtl(now: int, consumeUntil: int): Option<int> {
    var count := Seconds(Normalized(consumeUntil) - Normalized(now));
    if count < 0 || count == 0x7FFF_FFFF_FFFF_FFFF then None else Some(count + 1)
  }

  /** The key outlives the last second in which the credentials can still be accepted: the
      retention is never refused and ends after every reading that rounds to the window's end. */
  lemma RetentionCoversWindow(q: ReserveRequest, t: int)
    requires ValidCall(CallReserve(q)) && Seconds(q.consumeUntil) < 0x7FFF_FFFF_FFFF_FFFF
    requires 0 <= t && Normalized(t) <= Normalized(q.consumeUntil)
    ensures RetentionTtl(q.now, q.consumeUntil).Some?
    ensures t < Normalized(q.now) + RetentionTtl(q.now, q.consumeUntil).value * TICKS
  {
    var d := Seconds(q.consumeUntil) - Seconds(q.now);
    assert Normalized(q.consumeUntil) - Normalized(q.now) == d * TICKS;
    SecondsOfWhole(d);
    NormalizedFacts(t, t);
    NormalizedFacts(q.now, q.now);
  }
}
