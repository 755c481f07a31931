/** The queue service over its store: numbers issued and recovered in one transaction, releases
    published once saved, requests that get lost and may still land, leases that lapse, and
    restarts.  What holds of every run is stated with the exact condition under which it does:
    the snapshot is written without a compare, so a request that lands late can take the store
    back behind what the service has shown. */
module QueueSystem {
  import opened Basics
  import opened Clock
  import opened Credentials
  import opened QueueLedger
  import opened QueueTicketing

  const UINT64_MAX: nat := 0xFFFF_FFFF_FFFF_FFFF

  /** `window` is in seconds. */
  datatype Config = Config(step: nat, window: int)

  predicate ValidConfig(c: Config) { 0 < c.window <= GRANT_MAX_WINDOW }

  /** The stored mapping of an identity; its times are in seconds. */
  datatype Issuance = Issuance(number: nat, issuedAt: int, expiresAt: int)

  /** A request that writes the snapshot.  `base` and `at` say what the frame that made it had
      released before, and its second. */
  datatype Write = Save(ledger: Ledger, base: nat, at: int)
    | Transaction(ledger: Ledger, identity: Jti, issuance: Issuance)

  /** `core` is the ledger the service answers from, or last answered from; `snapshot` and
      `issuances` are the store's keys; `floating` are the requests the service has given up on,
      which may still land.  For reference only: `given` lists every number ever written to the
      store with its identity, `times` when each released number was released as the service
      showed it, and `clock` is the latest reading so far. */
  datatype System = System(core: Ledger, running: bool, uncertain: bool, snapshot: Option<Ledger>, issuances: map<Jti, Issuance>,
                           floating: seq<Write>, given: seq<(Jti, nat)>, times: seq<int>, clock: int)

  /** How a request to the store ends.  One that is lost before it has landed stays in flight. */
  datatype Delivery = NotSent | Answered | Lost(landed: bool, readBack: bool)

  datatype Event =
    | Issue(identity: Jti, expiresAt: int, now: int, delivery: Delivery)
    | Release(budgets: Budgets, now: int, answered: bool, landed: bool)
    | Restart(now: int, newProcess: bool)
    | Land(request: nat)
    | Lapse(identity: Jti)
    | Stop

  datatype Answer = Unavailable | Throws | Told(issuance: Issuance)

  function Start(clock: int): System { System(EMPTY, false, false, None, map[], [], [], [], clock) }

  function At(s: System, now: int): System { if s.clock < now then s.(clock := now) else s }

  /** What a restart would find; no snapshot counts as the empty one. */
  function Stored(s: System): Ledger { if s.snapshot.Some? then s.snapshot.value else EMPTY }

  /** The release times as the service has shown them, once it shows `l`. */
  function Shown(times: seq<int>, l: Ledger): (r: seq<int>)
    ensures times <= r && (l.released > |times| ==> |r| == l.released)
  {
    if l.released <= |times| then times
    else times + seq(l.released - |times|, k requires 0 <= k =>
                                             var time := TimeOf(l, |times| + 1 + k); if time.Some? then time.value else 0)
  }

  /** The request as the store carries it out; a transaction only if the identity has no mapping. */
  function Landed(s: System, w: Write): System {
    match w
    case Save(ledger, _, _) => s.(snapshot := Some(ledger))
    case Transaction(ledger, identity, issuance) =>
      if identity in s.issuances then s
      else s.(snapshot := Some(ledger), issuances := s.issuances[identity := issuance],
              given := s.given + [(identity, issuance.number)])
  }

  // ---------------------------------------------------------------------------------------
  // Issuing

  function TransactionOf(s: System, identity: Jti, issuedAt: int, expiresAt: int): Write {
    Transaction(s.core.(next := s.core.next + 1), identity, Issuance(s.core.next, issuedAt, expiresAt))
  }

  /** The mapping and the snapshot, read back; what is stored always decodes. */
  function Recovered(s: System, identity: Jti, expiresAt: int): Option<Issuance> {
    if identity in s.issuances && s.snapshot.Some? && s.issuances[identity].expiresAt == expiresAt
       && expiresAt > s.issuances[identity].issuedAt && s.snapshot.value.next > s.issuances[identity].number
    then Some(s.issuances[identity]) else None
  }

  predicate ValidRequest(s: System, identity: Jti, expiresAt: int, now: int) {
    identity != [] && Seconds(now) >= 0 && Seconds(expiresAt) > Seconds(now) && s.core.next != UINT64_MAX
  }

  /** The service takes over a ledger it has read from the store. */
  function Adopted(c: Config, s: System, l: Ledger, now: int): System {
    s.(core := Pruned(l, c.window, now), times := Shown(s.times, l))
  }

  ghost function Issued(c: Config, s: System, identity: Jti, expiresAt: int, now: int, delivery: Delivery): (System, Answer) {
    if !s.running || s.uncertain then (s, Unavailable)
    else if !ValidRequest(s, identity, expiresAt, now) then (s, Throws)
    else if delivery.NotSent? then (s, Unavailable)
    else
      var w := TransactionOf(s, identity, Seconds(now), Seconds(expiresAt));
      var t := if delivery.Answered? || delivery.landed then Landed(s, w) else s.(floating := s.floating + [w]);
      var told := if delivery.Lost? && !delivery.readBack then None else Recovered(t, identity, Seconds(expiresAt));
      if told.None? then (t.(uncertain := true), Unavailable)
      else if !Restorable(Stored(t), now) then (t, Throws)
      else (Adopted(c, t, Stored(t), now), Told(told.value))
  }

  // ---------------------------------------------------------------------------------------
  // Releasing and restarting

  function Released(c: Config, s: System, budgets: Budgets, now: int, answered: bool, landed: bool): System {
    if !s.running || s.core.released >= s.core.next then s
    else
      var released := QueueLedger.Release(s.core, c.step, c.window, budgets, now);
      if released.None? then s
      else if BatchSize(s.core, c.step, budgets) == 0 then s.(core := released.value)
      else
        var w := Save(released.value, s.core.released, Normalized(now));
        var t := s.(core := Pruned(s.core, c.window, now));
        if s.uncertain then t
        else if answered then s.(core := released.value, snapshot := released, times := Shown(s.times, released.value))
        else if landed then Landed(t, w)
        else t.(floating := s.floating + [w])
  }

  /** The startup check of the mappings against the snapshot. */
  ghost predicate MappingsFit(s: System, l: Ledger) {
    && (forall id :: id in s.issuances ==>
          0 < s.issuances[id].number < l.next && s.issuances[id].expiresAt > s.issuances[id].issuedAt)
    && forall a, b :: a in s.issuances && b in s.issuances && s.issuances[a].number == s.issuances[b].number ==> a == b
  }

  ghost function Restarted(c: Config, s: System, now: int, newProcess: bool): System {
    var t := s.(uncertain := s.uncertain && !newProcess);
    if s.snapshot.None? then
      if s.issuances == map[] then t.(running := true, core := EMPTY) else t.(running := false)
    else if !MappingsFit(s, Stored(s)) || !Restorable(Stored(s), now) then t.(running := false)
    else Adopted(c, t.(running := true), Stored(s), now)
  }

  ghost function Step(c: Config, s: System, e: Event): System {
    match e
    case Issue(identity, expiresAt, now, delivery) => Issued(c, At(s, now), identity, expiresAt, now, delivery).0
    case Release(budgets, now, answered, landed) => Released(c, At(s, now), budgets, now, answered, landed)
    case Restart(now, newProcess) => Restarted(c, At(s, now), now, newProcess)
    case Land(i) =>
      if i < |s.floating| then Landed(s, s.floating[i]).(floating := s.floating[..i] + s.floating[i + 1..]) else s
    case Lapse(identity) => s.(issuances := s.issuances - {identity})
    case Stop => s.(running := false)
  }

  ghost function Run(c: Config, clock: int, es: seq<Event>): System {
    if es == [] then Start(clock) else Step(c, Run(c, clock, es[..|es| - 1]), es[|es| - 1])
  }

  // ---------------------------------------------------------------------------------------
  // What holds of every run, however late requests land

  function Base(w: Write): nat { if w.Save? then w.base else w.ledger.released }

  /** A request writes a sound ledger that gives the numbers above its base its own second. */
  ghost predicate WriteOk(w: Write) {
    && Sound(w.ledger) && Base(w) <= w.ledger.released
    && (w.Save? ==> forall n :: w.base < n <= w.ledger.released ==> TimeOf(w.ledger, n) == Some(w.at))
    && (w.Transaction? ==> w.ledger.next == w.issuance.number + 1 && w.issuance.expiresAt > w.issuance.issuedAt)
  }

  ghost predicate Whole(s: System) {
    && Sound(s.core) && Sound(Stored(s)) && (forall i :: 0 <= i < |s.floating| ==> WriteOk(s.floating[i]))
  }

  lemma NextSound(l: Ledger, next: nat)
    requires Sound(l) && l.next <= next
    ensures Sound(l.(next := next)) && forall n :: TimeOf(l.(next := next), n) == TimeOf(l, n)
  {
    var m := l.(next := next);
    forall i | 0 <= i < |m.batches|
      ensures Continues(m, i)
    {
      assert Continues(l, i);
    }
  }

  lemma PrunedFacts(c: Config, l: Ledger, now: int)
    requires Sound(l)
    ensures var p := Pruned(l, c.window, now); Sound(p) && p.next == l.next && p.released == l.released
  {
    PruneKeepsEligibility(l, c.window, now, 0, now);
  }

  lemma TransactionOk(s: System, identity: Jti, issuedAt: int, expiresAt: int)
    requires Sound(s.core) && expiresAt > issuedAt
    ensures WriteOk(TransactionOf(s, identity, issuedAt, expiresAt))
    ensures forall n :: TimeOf(TransactionOf(s, identity, issuedAt, expiresAt).ledger, n) == TimeOf(s.core, n)
  {
    NextSound(s.core, s.core.next + 1);
  }

  /** A release that goes through, and the request that saves it. */
  lemma SaveOk(c: Config, l: Ledger, budgets: Budgets, now: int)
    requires Sound(l) && ValidConfig(c) && BatchSize(l, c.step, budgets) > 0
    requires QueueLedger.Release(l, c.step, c.window, budgets, now).Some?
    ensures var r := QueueLedger.Release(l, c.step, c.window, budgets, now).value;
            WriteOk(Save(r, l.released, Normalized(now))) && r.next == l.next && l.released < r.released
  {
    ReleaseAddsTheNext(l, c.step, c.window, budgets, now, 0, now);
    var r := QueueLedger.Release(l, c.step, c.window, budgets, now).value;
    forall n | l.released < n <= r.released
      ensures TimeOf(r, n) == Some(Normalized(now))
    {
      ReleaseTimes(l, c.step, c.window, budgets, now, n);
    }
  }

  lemma WholeIssued(c: Config, s: System, e: Event)
    requires Whole(s) && e.Issue?
    ensures Whole(Issued(c, s, e.identity, e.expiresAt, e.now, e.delivery).0)
  {
    hide Sound, Recovered, Restorable;
    if s.running && !s.uncertain && ValidRequest(s, e.identity, e.expiresAt, e.now) && !e.delivery.NotSent? {
      var w := TransactionOf(s, e.identity, Seconds(e.now), Seconds(e.expiresAt));
      TransactionOk(s, e.identity, Seconds(e.now), Seconds(e.expiresAt));
      PrunedFacts(c, Stored(s), e.now);
      PrunedFacts(c, w.ledger, e.now);
    }
  }

  lemma WholeReleased(c: Config, s: System, e: Event)
    requires Whole(s) && ValidConfig(c) && e.Release?
    ensures Whole(Released(c, s, e.budgets, e.now, e.answered, e.landed))
  {
    var r := QueueLedger.Release(s.core, c.step, c.window, e.budgets, e.now);
    PrunedFacts(c, s.core, e.now);
    if r.Some? && BatchSize(s.core, c.step, e.budgets) > 0 {
      SaveOk(c, s.core, e.budgets, e.now);
    }
  }

  lemma WholeRestarted(c: Config, s: System, e: Event)
    requires Whole(s) && e.Restart?
    ensures Whole(Restarted(c, s, e.now, e.newProcess))
  {
    hide Sound, WriteOk, Restorable, MappingsFit;
    PrunedFacts(c, Stored(s), e.now);
  }

  lemma WholeStep(c: Config, s: System, e: Event)
    requires Whole(s) && ValidConfig(c)
    ensures Whole(Step(c, s, e))
  {
    hide Sound, WriteOk, Issued, Released, Restarted;
    match e
    case Issue(_, _, now, _) => WholeIssued(c, At(s, now), e);
    case Release(_, now, _, _) => WholeReleased(c, At(s, now), e);
    case Restart(now, _) => WholeRestarted(c, At(s, now), e);
    case Land(i) =>
      if i < |s.floating| {
        LandsSound(s, s.floating[i]);
      }
    case _ =>
  }

  lemma LandsSound(s: System, w: Write)
    requires Whole(s) && WriteOk(w)
    ensures Sound(Stored(Landed(s, w)))
  {
  }

  // ---------------------------------------------------------------------------------------
  // Releases stand

  /** A ledger has the number at its time, or has dropped it with its window over. */
  ghost predicate TimedAt(c: Config, l: Ledger, times: seq<int>, clock: int, n: nat)
    requires 0 < n <= |times|
  {
    TimeOf(l, n) == Some(times[n - 1]) || (TimeOf(l, n).None? && clock > Over(times[n - 1], c.window))
  }

  ghost predicate Timed(c: Config, l: Ledger, times: seq<int>, clock: int) {
    forall n :: 0 < n <= l.released && n <= |times| ==> TimedAt(c, l, times, clock, n)
  }

  /** The service shows every release at its time, and the store is not behind it. */
  ghost predicate LevelOf(c: Config, core: Ledger, stored: Ledger, times: seq<int>, clock: int) {
    && |times| == core.released <= stored.released && Timed(c, core, times, clock) && Timed(c, stored, times, clock)
    && forall n :: |times| < n <= stored.released ==> TimeOf(stored, n).Some?
  }

  ghost predicate Level(c: Config, s: System) { LevelOf(c, s.core, Stored(s), s.times, s.clock) }

  /** Up to its base, a request has every number at its time. */
  ghost predicate TracedWrite(c: Config, w: Write, times: seq<int>, clock: int) {
    Base(w) <= |times| && forall n :: 0 < n <= Base(w) ==> TimedAt(c, w.ledger, times, clock, n)
  }

  ghost predicate Traced(c: Config, floating: seq<Write>, times: seq<int>, clock: int) {
    forall i :: 0 <= i < |floating| ==> TracedWrite(c, floating[i], times, clock)
  }

  ghost predicate Good(c: Config, s: System) { Whole(s) && Level(c, s) && Traced(c, s.floating, s.times, s.clock) }

  /** What a step keeps of the release times. */
  ghost predicate Kept(c: Config, s: System, s': System) {
    s.times <= s'.times && s.clock <= s'.clock && Traced(c, s'.floating, s'.times, s'.clock)
  }

  lemma TracedLater(c: Config, floating: seq<Write>, times: seq<int>, clock: int, times': seq<int>, clock': int)
    requires Traced(c, floating, times, clock) && times <= times' && clock <= clock'
    ensures Traced(c, floating, times', clock')
  {
    forall i | 0 <= i < |floating|
      ensures TracedWrite(c, floating[i], times', clock')
    {
      assert TracedWrite(c, floating[i], times, clock);
      forall n | 0 < n <= Base(floating[i])
        ensures TimedAt(c, floating[i].ledger, times', clock', n)
      {
        assert TimedAt(c, floating[i].ledger, times, clock, n);
      }
    }
  }

  lemma GoodAt(c: Config, s: System, now: int)
    requires Good(c, s)
    ensures Good(c, At(s, now))
  {
    TracedLater(c, s.floating, s.times, s.clock, s.times, At(s, now).clock);
    assert forall n :: 0 < n <= |s.times| && TimedAt(c, s.core, s.times, s.clock, n) ==> TimedAt(c, s.core, s.times, At(s, now).clock, n);
    assert forall n :: 0 < n <= |s.times| && TimedAt(c, Stored(s), s.times, s.clock, n)
                       ==> TimedAt(c, Stored(s), s.times, At(s, now).clock, n);
  }

  /** Pruning on a reading that is not ahead of the clock. */
  lemma TimedPruned(c: Config, l: Ledger, times: seq<int>, clock: int, now: int)
    requires Sound(l) && Timed(c, l, times, clock) && now <= clock
    ensures Timed(c, Pruned(l, c.window, now), times, clock)
  {
    PrunedFacts(c, l, now);
    forall n: nat | 0 < n <= l.released && n <= |times|
      ensures TimedAt(c, Pruned(l, c.window, now), times, clock, n)
    {
      assert TimedAt(c, l, times, clock, n);
      PruneKeepsTimes(l, c.window, now, n);
    }
  }

  /** Taking over what the store has. */
  lemma LevelAdopted(c: Config, core: Ledger, stored: Ledger, times: seq<int>, clock: int, now: int)
    requires Sound(stored) && LevelOf(c, core, stored, times, clock) && now <= clock
    ensures LevelOf(c, Pruned(stored, c.window, now), stored, Shown(times, stored), clock)
  {
    var times' := Shown(times, stored);
    PrunedFacts(c, stored, now);
    forall n: nat | 0 < n <= stored.released && n <= |times'|
      ensures TimedAt(c, stored, times', clock, n)
    {
      assert n <= |times| ==> TimedAt(c, stored, times, clock, n);
    }
    TimedPruned(c, stored, times', clock, now);
  }

  lemma LevelPruned(c: Config, core: Ledger, stored: Ledger, times: seq<int>, clock: int, now: int)
    requires Sound(core) && LevelOf(c, core, stored, times, clock) && now <= clock
    ensures LevelOf(c, Pruned(core, c.window, now), stored, times, clock)
  {
    PrunedFacts(c, core, now);
    TimedPruned(c, core, times, clock, now);
  }

  /** A transaction carries the service's own releases. */
  lemma TransactionLevel(c: Config, s: System, identity: Jti, issuedAt: int, expiresAt: int)
    requires Good(c, s) && expiresAt > issuedAt
    ensures var w := TransactionOf(s, identity, issuedAt, expiresAt);
            LevelOf(c, s.core, w.ledger, s.times, s.clock) && TracedWrite(c, w, s.times, s.clock)
  {
    TransactionOk(s, identity, issuedAt, expiresAt);
    var w := TransactionOf(s, identity, issuedAt, expiresAt);
    forall n: nat | 0 < n <= |s.times|
      ensures TimedAt(c, w.ledger, s.times, s.clock, n)
    {
      assert TimedAt(c, s.core, s.times, s.clock, n);
    }
  }

  /** A release carries what was shown before it, and what it adds has a time. */
  lemma SaveLevel(c: Config, s: System, budgets: Budgets, now: int)
    requires Good(c, s) && ValidConfig(c) && now <= s.clock && s.core.released < s.core.next && BatchSize(s.core, c.step, budgets) > 0
    requires QueueLedger.Release(s.core, c.step, c.window, budgets, now).Some?
    ensures var r := QueueLedger.Release(s.core, c.step, c.window, budgets, now).value;
            && LevelOf(c, s.core, r, s.times, s.clock) && LevelOf(c, r, r, Shown(s.times, r), s.clock)
            && TracedWrite(c, Save(r, s.core.released, Normalized(now)), s.times, s.clock)
  {
    SaveOk(c, s.core, budgets, now);
    var r := QueueLedger.Release(s.core, c.step, c.window, budgets, now).value;
    forall n: nat | 0 < n <= |s.times|
      ensures TimedAt(c, r, s.times, s.clock, n)
    {
      assert TimedAt(c, s.core, s.times, s.clock, n);
      ReleaseTimes(s.core, c.step, c.window, budgets, now, n);
    }
    var times' := Shown(s.times, r);
    forall n: nat | 0 < n <= |times'|
      ensures TimedAt(c, r, times', s.clock, n)
    {
      assert n <= |s.times| ==> TimedAt(c, r, s.times, s.clock, n);
    }
  }

  lemma GoodIssued(c: Config, s: System, e: Event)
    requires Good(c, s) && e.Issue? && e.now <= s.clock
    ensures var s' := Issued(c, s, e.identity, e.expiresAt, e.now, e.delivery).0; Level(c, s') && Kept(c, s, s')
  {
    hide Sound, LevelOf, TracedWrite, Recovered, Restorable, Shown;
    if s.running && !s.uncertain && ValidRequest(s, e.identity, e.expiresAt, e.now) && !e.delivery.NotSent? {
      var w := TransactionOf(s, e.identity, Seconds(e.now), Seconds(e.expiresAt));
      TransactionOk(s, e.identity, Seconds(e.now), Seconds(e.expiresAt));
      TransactionLevel(c, s, e.identity, Seconds(e.now), Seconds(e.expiresAt));
      LevelAdopted(c, s.core, Stored(s), s.times, s.clock, e.now);
      LevelAdopted(c, s.core, w.ledger, s.times, s.clock, e.now);
      TracedLater(c, s.floating + [w], s.times, s.clock, Shown(s.times, Stored(s)), s.clock);
      TracedLater(c, s.floating, s.times, s.clock, Shown(s.times, w.ledger), s.clock);
      assert Traced(c, s.floating + [w], Shown(s.times, Stored(s)), s.clock) ==> Traced(c, s.floating, Shown(s.times, Stored(s)), s.clock) by {
        assert forall i :: 0 <= i < |s.floating| ==> (s.floating + [w])[i] == s.floating[i];
      }
    }
  }

  lemma GoodReleased(c: Config, s: System, e: Event)
    requires Good(c, s) && ValidConfig(c) && e.Release? && e.now <= s.clock
    ensures var s' := Released(c, s, e.budgets, e.now, e.answered, e.landed); Level(c, s') && Kept(c, s, s')
  {
    hide Sound, LevelOf, TracedWrite, Shown, QueueLedger.Release;
    LevelPruned(c, s.core, Stored(s), s.times, s.clock, e.now);
    if s.running && s.core.released < s.core.next && QueueLedger.Release(s.core, c.step, c.window, e.budgets, e.now).Some? {
      var r := QueueLedger.Release(s.core, c.step, c.window, e.budgets, e.now).value;
      if BatchSize(s.core, c.step, e.budgets) > 0 {
        SaveLevel(c, s, e.budgets, e.now);
        LevelPruned(c, s.core, r, s.times, s.clock, e.now);
        TracedLater(c, s.floating, s.times, s.clock, Shown(s.times, r), s.clock);
      } else {
        assert r == Pruned(s.core, c.window, e.now) by { NothingReleased(c, s.core, e.budgets, e.now); }
      }
    }
  }

  lemma NothingReleased(c: Config, l: Ledger, budgets: Budgets, now: int)
    requires l.released < l.next && BatchSize(l, c.step, budgets) == 0
    ensures QueueLedger.Release(l, c.step, c.window, budgets, now) == Some(Pruned(l, c.window, now))
  {
  }

  /** The request carries everything the service has shown: it holds every number released, and
      what was released since it was sent, it releases in the very same second. */
  ghost predicate Fresh(s: System, w: Write) {
    && s.core.released <= w.ledger.released
    && (w.Save? ==> forall k :: w.base <= k < |s.times| ==> s.times[k] == w.at)
  }

  /** Of all events only a landing can take the store back, if what lands is not fresh. */
  ghost predicate LandsFresh(s: System, e: Event) {
    e.Land? && e.request < |s.floating| ==>
      var w := s.floating[e.request];
      Fresh(s, w) || (w.Transaction? && w.identity in s.issuances)
  }

  lemma LandedLevelExactly(c: Config, s: System, w: Write)
    requires Good(c, s) && WriteOk(w) && TracedWrite(c, w, s.times, s.clock)
    ensures LevelOf(c, s.core, w.ledger, s.times, s.clock) <==> Fresh(s, w)
  {
    if Fresh(s, w) {
      forall n: nat | 0 < n <= w.ledger.released && n <= |s.times|
        ensures TimedAt(c, w.ledger, s.times, s.clock, n)
      {
        assert w.Save? && n > w.base ==> s.times[n - 1] == w.at;
      }
    }
    if LevelOf(c, s.core, w.ledger, s.times, s.clock) && w.Save? {
      forall k | w.base <= k < |s.times|
        ensures s.times[k] == w.at
      {
        assert TimedAt(c, w.ledger, s.times, s.clock, k + 1);
      }
    }
  }

  lemma TracedWithout(c: Config, floating: seq<Write>, times: seq<int>, clock: int, i: nat)
    requires Traced(c, floating, times, clock) && i < |floating|
    ensures Traced(c, floating[..i] + floating[i + 1..], times, clock)
  {
    hide TracedWrite;
  }

  /** A step keeps the release times shown, and leaves the store level with the service if and
      only if it is not a landing of a request that is behind. */
  lemma GoodStepExactly(c: Config, s: System, e: Event)
    requires Good(c, s) && ValidConfig(c)
    ensures var s' := Step(c, s, e); Whole(s') && Kept(c, s, s') && (Level(c, s') <==> LandsFresh(s, e))
  {
    hide Whole, LevelOf, Traced, Issued, Released, Restorable, MappingsFit, Fresh, Shown;
    WholeStep(c, s, e);
    if e.Land? {
      if e.request < |s.floating| {
        assert WriteOk(s.floating[e.request]) && TracedWrite(c, s.floating[e.request], s.times, s.clock) by {
          InFlight(c, s, e.request);
        }
        LandedLevelExactly(c, s, s.floating[e.request]);
        TracedWithout(c, s.floating, s.times, s.clock, e.request);
      }
    } else if e.Lapse? || e.Stop? {
    } else {
      GoodAt(c, s, e.now);
      var t := At(s, e.now);
      if e.Issue? {
        GoodIssued(c, t, e);
      } else if e.Release? {
        GoodReleased(c, t, e);
      } else {
        GoodRestarted(c, t, e);
      }
    }
  }

  lemma InFlight(c: Config, s: System, i: nat)
    requires Whole(s) && Traced(c, s.floating, s.times, s.clock) && i < |s.floating|
    ensures WriteOk(s.floating[i]) && TracedWrite(c, s.floating[i], s.times, s.clock)
  {
  }

  lemma GoodRestarted(c: Config, s: System, e: Event)
    requires Good(c, s) && e.Restart? && e.now <= s.clock
    ensures var s' := Restarted(c, s, e.now, e.newProcess); Level(c, s') && Kept(c, s, s')
  {
    hide LevelOf, TracedWrite, Restorable, MappingsFit, Shown;
    LevelAdopted(c, s.core, Stored(s), s.times, s.clock, e.now);
    TracedLater(c, s.floating, s.times, s.clock, Shown(s.times, Stored(s)), s.clock);
    if s.snapshot.None? {
      EmptyLevel(c, s, e.now);
    }
  }

  lemma EmptyLevel(c: Config, s: System, now: int)
    requires Level(c, s) && s.snapshot.None?
    ensures LevelOf(c, EMPTY, EMPTY, s.times, s.clock)
  {
  }

  // ---------------------------------------------------------------------------------------
  // Over whole runs

  /** No request of the run lands behind what the service has shown. */
  ghost predicate AllFresh(c: Config, clock: int, es: seq<Event>) {
    forall i :: 0 <= i < |es| ==> LandsFresh(Run(c, clock, es[..i]), es[i])
  }

  ghost predicate AllLevel(c: Config, clock: int, es: seq<Event>) {
    forall i :: 0 <= i <= |es| ==> Level(c, Run(c, clock, es[..i]))
  }

  lemma StartGood(c: Config, clock: int)
    ensures Good(c, Start(clock))
  {
  }

  lemma RunNext(c: Config, clock: int, es: seq<Event>, i: nat)
    requires i < |es|
    ensures Run(c, clock, es[..i + 1]) == Step(c, Run(c, clock, es[..i]), es[i])
  {
    assert es[..i + 1][..i] == es[..i];
  }

  lemma {:induction false} GoodRun(c: Config, clock: int, es: seq<Event>, m: nat)
    requires ValidConfig(c) && m <= |es| && forall i :: 0 <= i < m ==> LandsFresh(Run(c, clock, es[..i]), es[i])
    ensures Good(c, Run(c, clock, es[..m]))
  {
    hide Step, LandsFresh, Level, Whole, Traced;
    if m == 0 {
      StartGood(c, clock);
    } else {
      GoodRun(c, clock, es, m - 1);
      RunNext(c, clock, es, m - 1);
      GoodStepExactly(c, Run(c, clock, es[..m - 1]), es[m - 1]);
    }
  }

  /** The store is never behind what the service has shown, at any point of the run, if and only
      if no request lands behind it. */
  lemma LevelExactly(c: Config, clock: int, es: seq<Event>)
    requires ValidConfig(c)
    ensures AllLevel(c, clock, es) <==> AllFresh(c, clock, es)
  {
    hide Step, LandsFresh, Level, Whole, Traced, Run;
    if AllFresh(c, clock, es) {
      forall i: nat | i <= |es|
        ensures Level(c, Run(c, clock, es[..i]))
      {
        GoodRun(c, clock, es, i);
      }
    }
    if AllLevel(c, clock, es) {
      FreshFrom(c, clock, es, |es|);
    }
  }

  lemma {:induction false} FreshFrom(c: Config, clock: int, es: seq<Event>, m: nat)
    requires ValidConfig(c) && AllLevel(c, clock, es) && m <= |es|
    ensures forall i :: 0 <= i < m ==> LandsFresh(Run(c, clock, es[..i]), es[i])
  {
    hide Step, LandsFresh, Level, Whole, Traced, Run;
    if m > 0 {
      FreshFrom(c, clock, es, m - 1);
      GoodRun(c, clock, es, m - 1);
      RunNext(c, clock, es, m - 1);
      GoodStepExactly(c, Run(c, clock, es[..m - 1]), es[m - 1]);
    }
  }

  /** The times shown only ever grow. */
  lemma {:induction false} TimesGrow(c: Config, clock: int, es: seq<Event>, m: nat, n: nat)
    requires ValidConfig(c) && m <= n <= |es| && AllFresh(c, clock, es)
    ensures Run(c, clock, es[..m]).times <= Run(c, clock, es[..n]).times
    ensures Run(c, clock, es[..m]).clock <= Run(c, clock, es[..n]).clock
    decreases n
  {
    hide Step, LandsFresh, Level, Whole, Traced, Run;
    if m < n {
      TimesGrow(c, clock, es, m, n - 1);
      GoodRun(c, clock, es, n - 1);
      RunNext(c, clock, es, n - 1);
      GoodStepExactly(c, Run(c, clock, es[..n - 1]), es[n - 1]);
    }
  }

  /** What a release at `at` means for its number, to the service and to a restart. */
  ghost predicate Stands(c: Config, l: Ledger, n: nat, at: int, clock: int) {
    && (TimeOf(l, n).Some? ==> TimeOf(l, n).value == at)
    && forall later :: later >= clock ==>
         EligibilityOf(l, c.window, n, later).status == if later > Over(at, c.window) then Expired else Eligible
  }

  lemma TimedStands(c: Config, l: Ledger, times: seq<int>, clock: int, n: nat)
    requires 0 < n <= |times| <= l.released && Timed(c, l, times, clock)
    ensures Stands(c, l, n, times[n - 1], clock)
  {
    assert TimedAt(c, l, times, clock, n);
  }

  /** Over any run in which no request lands behind what was shown, whatever was ever shown as
      released stands: the same release time, and the same end, to the service and to every
      later restart; through lost and failed saves, recoveries, lapsed leases and restarts. */
  lemma ReleasesStand(c: Config, clock: int, es: seq<Event>, m: nat, n: nat)
    requires ValidConfig(c) && AllFresh(c, clock, es) && m <= |es| && 0 < n <= Run(c, clock, es[..m]).core.released
    ensures var s, s' := Run(c, clock, es[..m]), Run(c, clock, es);
            && n <= |s.times| && s.times <= s'.times && TimeOf(s.core, n) in {None, Some(s.times[n - 1])}
            && n <= s'.core.released && Stands(c, s'.core, n, s.times[n - 1], s'.clock)
            && Stands(c, Stored(s'), n, s.times[n - 1], s'.clock)
  {
    hide Run, Step, LandsFresh, Stands, Whole, Traced;
    GoodRun(c, clock, es, m);
    GoodRun(c, clock, es, |es|);
    assert es[..|es|] == es;
    TimesGrow(c, clock, es, m, |es|);
    var s, s' := Run(c, clock, es[..m]), Run(c, clock, es);
    assert TimedAt(c, s.core, s.times, s.clock, n);
    TimedStands(c, s'.core, s'.times, s'.clock, n);
    TimedStands(c, Stored(s'), s'.times, s'.clock, n);
  }

  lemma AdmittedTime(l: Ledger, p: GrantPolicy, ttl: int, t: NumberToken, now: int, grantJti: (Jti, nat, int) -> Jti)
    requires AnswerQuery(l, p, ttl, t, now, grantJti).Admitted?
    ensures 0 < t.number <= l.released && TimeOf(l, t.number).Some?
    ensures EligibilityOf(l, p.grantWindow, t.number, now).releasedAt == TimeOf(l, t.number)
  {
  }

  /** In such a run, any two queries that admit a number hand out the same grant, on any clock
      readings. */
  lemma SameGrantAlways(c: Config, clock: int, es: seq<Event>, m: nat, p: GrantPolicy, ttl: int, t: NumberToken, n1: int, n2: int,
                        grantJti: (Jti, nat, int) -> Jti)
    requires ValidConfig(c) && AllFresh(c, clock, es) && m <= |es| && c.window == p.grantWindow
    requires AnswerQuery(Run(c, clock, es[..m]).core, p, ttl, t, n1, grantJti).Admitted?
    requires AnswerQuery(Run(c, clock, es).core, p, ttl, t, n2, grantJti).Admitted?
    ensures AnswerQuery(Run(c, clock, es[..m]).core, p, ttl, t, n1, grantJti).grant
            == AnswerQuery(Run(c, clock, es).core, p, ttl, t, n2, grantJti).grant
  {
    hide Run, AllFresh, AnswerQuery;
    var a, b := Run(c, clock, es[..m]).core, Run(c, clock, es).core;
    AdmittedTime(a, p, ttl, t, n1, grantJti);
    AdmittedTime(b, p, ttl, t, n2, grantJti);
    ReleasesStand(c, clock, es, m, t.number);
    SameGrantEveryTime(a, b, p, ttl, t, n1, n2, grantJti);
  }

  // ---------------------------------------------------------------------------------------
  // Each number goes to one identity

  ghost predicate Mapped(s: System, id: Jti)
    requires id in s.issuances
  {
    s.issuances[id].expiresAt > s.issuances[id].issuedAt && (id, s.issuances[id].number) in s.given
  }

  /** The numbers given are 1, 2, 3, ... in order, the stored counter is the next one, and each
      mapping is of a number given. */
  ghost predicate Ascending(s: System) {
    && (forall i :: 0 <= i < |s.given| ==> s.given[i].1 == i + 1) && Stored(s).next == |s.given| + 1
    && forall id :: id in s.issuances ==> Mapped(s, id)
  }

  /** And a service that issues counts on from where the store stands. */
  ghost predicate Numbered(s: System) { Ascending(s) && (s.running && !s.uncertain ==> s.core.next == Stored(s).next) }

  /** The issue commits a new number and the service learns of it. */
  predicate Commits(s: System, e: Event)
    requires e.Issue?
  {
    && s.running && !s.uncertain && ValidRequest(s, e.identity, e.expiresAt, e.now) && e.identity !in s.issuances
    && (e.delivery.Answered? || (e.delivery.Lost? && e.delivery.landed && e.delivery.readBack))
  }

  /** What keeps the count: an issue's clock is not behind the last release by more than the
      leeway; a landing save carries the stored counter; a landing transaction carries the next
      number, and there is no service that would give that number out again. */
  ghost predicate Counts(s: System, e: Event) {
    match e
    case Issue(_, _, now, _) => Commits(s, e) ==> Restorable(s.core, now)
    case Land(i) =>
      i < |s.floating| ==>
        (match s.floating[i]
         case Save(ledger, _, _) => ledger.next == Stored(s).next
         case Transaction(_, identity, issuance) =>
           identity in s.issuances || (issuance.number == Stored(s).next && (!s.running || s.uncertain)))
    case _ => true
  }

  lemma TransactionRestorable(s: System, identity: Jti, issuedAt: int, expiresAt: int, now: int)
    requires Sound(s.core)
    ensures Restorable(TransactionOf(s, identity, issuedAt, expiresAt).ledger, now) <==> Restorable(s.core, now)
  {
    NextSound(s.core, s.core.next + 1);
  }

  lemma AscendingFrame(s: System, s': System)
    requires Ascending(s) && s'.given == s.given
    requires forall id :: id in s'.issuances ==> id in s.issuances && s'.issuances[id] == s.issuances[id]
    ensures Ascending(s') <==> Stored(s').next == Stored(s).next
  {
    forall id | id in s'.issuances
      ensures Mapped(s', id)
    {
      assert Mapped(s, id);
    }
  }

  /** A transaction that takes effect gives the next number or breaks the count. */
  lemma AscendingLanded(s: System, w: Write)
    requires Ascending(s) && WriteOk(w) && w.Transaction? && w.identity !in s.issuances
    ensures Ascending(Landed(s, w)) <==> w.issuance.number == Stored(s).next
  {
    var t := Landed(s, w);
    assert t.given[|s.given|] == (w.identity, w.issuance.number);
    forall id | id in t.issuances
      ensures Mapped(t, id)
    {
      if id != w.identity {
        assert Mapped(s, id);
        var i :| 0 <= i < |s.given| && s.given[i] == (id, s.issuances[id].number);
        assert t.given[i] == s.given[i];
      }
    }
  }

  lemma NumberedIssued(c: Config, s: System, e: Event)
    requires Whole(s) && Numbered(s) && e.Issue?
    ensures Numbered(Issued(c, s, e.identity, e.expiresAt, e.now, e.delivery).0) <==> Counts(s, e)
  {
    hide Sound, Ascending, WriteOk, Restorable;
    var s' := Issued(c, s, e.identity, e.expiresAt, e.now, e.delivery).0;
    if s.running && !s.uncertain && ValidRequest(s, e.identity, e.expiresAt, e.now) && !e.delivery.NotSent? {
      var w := TransactionOf(s, e.identity, Seconds(e.now), Seconds(e.expiresAt));
      TransactionOk(s, e.identity, Seconds(e.now), Seconds(e.expiresAt));
      TransactionRestorable(s, e.identity, Seconds(e.now), Seconds(e.expiresAt), e.now);
      PrunedFacts(c, w.ledger, e.now);
      PrunedFacts(c, Stored(s), e.now);
      if e.identity !in s.issuances && (e.delivery.Answered? || e.delivery.landed) {
        AscendingLanded(s, w);
        AscendingFrame(Landed(s, w), s');
      } else {
        AscendingFrame(s, s');
      }
    } else {
      AscendingFrame(s, s');
    }
  }

  lemma NumberedReleased(c: Config, s: System, e: Event)
    requires Whole(s) && ValidConfig(c) && Numbered(s) && e.Release?
    ensures Numbered(Released(c, s, e.budgets, e.now, e.answered, e.landed))
  {
    hide Ascending, QueueLedger.Release;
    PrunedFacts(c, s.core, e.now);
    if s.running && QueueLedger.Release(s.core, c.step, c.window, e.budgets, e.now).Some? {
      if BatchSize(s.core, c.step, e.budgets) > 0 {
        SaveOk(c, s.core, e.budgets, e.now);
      } else {
        NothingReleased(c, s.core, e.budgets, e.now);
      }
    }
    AscendingFrame(s, Released(c, s, e.budgets, e.now, e.answered, e.landed));
  }

  lemma NumberedLanded(c: Config, s: System, e: Event)
    requires Whole(s) && Numbered(s) && e.Land?
    ensures Numbered(Step(c, s, e)) <==> Counts(s, e)
  {
    hide Ascending, WriteOk;
    if e.request < |s.floating| {
      var w := s.floating[e.request];
      var s' := Step(c, s, e);
      assert WriteOk(w);
      if w.Transaction? && w.identity !in s.issuances {
        AscendingLanded(s, w);
        NextNumber(w);
        var t := Landed(s, w);
        AscendingSame(t, s');
      } else {
        AscendingFrame(s, s');
      }
    }
  }

  lemma NextNumber(w: Write)
    requires WriteOk(w) && w.Transaction?
    ensures w.ledger.next == w.issuance.number + 1
  {
  }

  lemma AscendingSame(s: System, s': System)
    requires s'.given == s.given && s'.issuances == s.issuances && Stored(s').next == Stored(s).next
    ensures Ascending(s') <==> Ascending(s)
  {
    assert forall id :: id in s.issuances ==> Mapped(s, id) == Mapped(s', id);
  }

  lemma NumberedRestarted(c: Config, s: System, e: Event)
    requires Whole(s) && Numbered(s) && e.Restart?
    ensures Numbered(Restarted(c, s, e.now, e.newProcess))
  {
    hide Sound, Ascending, Restorable, MappingsFit;
    PrunedFacts(c, Stored(s), e.now);
    AscendingFrame(s, Restarted(c, s, e.now, e.newProcess));
  }

  lemma NumberedAt(s: System, now: int)
    requires Whole(s) && Numbered(s)
    ensures Whole(At(s, now)) && Numbered(At(s, now))
  {
    AscendingSame(s, At(s, now));
  }

  /** A step keeps the count if and only if it is not one of those that lose it. */
  lemma NumberedStepExactly(c: Config, s: System, e: Event)
    requires Whole(s) && ValidConfig(c) && Numbered(s)
    ensures Numbered(Step(c, s, e)) <==> Counts(s, e)
  {
    hide Whole, Ascending, Restorable, Issued, Released, Restarted;
    if e.Land? {
      NumberedLanded(c, s, e);
    } else if e.Lapse? || e.Stop? {
      AscendingFrame(s, Step(c, s, e));
    } else {
      NumberedAt(s, e.now);
      if e.Issue? {
        NumberedIssued(c, At(s, e.now), e);
      } else if e.Release? {
        NumberedReleased(c, At(s, e.now), e);
      } else {
        NumberedRestarted(c, At(s, e.now), e);
      }
    }
  }

  ghost predicate AllCount(c: Config, clock: int, es: seq<Event>) {
    forall i :: 0 <= i < |es| ==> Counts(Run(c, clock, es[..i]), es[i])
  }

  ghost predicate AllNumbered(c: Config, clock: int, es: seq<Event>) {
    forall i :: 0 <= i <= |es| ==> Numbered(Run(c, clock, es[..i]))
  }

  lemma {:induction false} WholeRun(c: Config, clock: int, es: seq<Event>, m: nat)
    requires ValidConfig(c) && m <= |es|
    ensures Whole(Run(c, clock, es[..m]))
  {
    hide Step, Whole;
    if m == 0 {
      StartGood(c, clock);
    } else {
      WholeRun(c, clock, es, m - 1);
      RunNext(c, clock, es, m - 1);
      WholeStep(c, Run(c, clock, es[..m - 1]), es[m - 1]);
    }
  }

  lemma {:induction false} NumberedRun(c: Config, clock: int, es: seq<Event>, m: nat)
    requires ValidConfig(c) && AllCount(c, clock, es) && m <= |es|
    ensures Numbered(Run(c, clock, es[..m]))
  {
    hide Step, Whole, Counts;
    if m > 0 {
      hide Numbered;
      NumberedRun(c, clock, es, m - 1);
      WholeRun(c, clock, es, m - 1);
      RunNext(c, clock, es, m - 1);
      NumberedStepExactly(c, Run(c, clock, es[..m - 1]), es[m - 1]);
    }
  }

  lemma {:induction false} CountsFrom(c: Config, clock: int, es: seq<Event>, m: nat)
    requires ValidConfig(c) && AllNumbered(c, clock, es) && m <= |es|
    ensures forall i :: 0 <= i < m ==> Counts(Run(c, clock, es[..i]), es[i])
  {
    hide Step, Whole, Counts, Numbered, Run;
    if m > 0 {
      CountsFrom(c, clock, es, m - 1);
      WholeRun(c, clock, es, m - 1);
      RunNext(c, clock, es, m - 1);
      NumberedStepExactly(c, Run(c, clock, es[..m - 1]), es[m - 1]);
    }
  }

  /** Service and store agree on the next number, and the numbers given are 1, 2, 3, ..., at every
      point of the run, if and only if every issue and every late landing keeps the count. */
  lemma NumberedExactly(c: Config, clock: int, es: seq<Event>)
    requires ValidConfig(c)
    ensures AllNumbered(c, clock, es) <==> AllCount(c, clock, es)
  {
    hide Counts, Numbered, Run;
    if AllCount(c, clock, es) {
      forall i: nat | i <= |es|
        ensures Numbered(Run(c, clock, es[..i]))
      {
        NumberedRun(c, clock, es, i);
      }
    }
    if AllNumbered(c, clock, es) {
      CountsFrom(c, clock, es, |es|);
    }
  }

  /** In such a run no number is ever given twice, to one identity or to two: across lost
      answers, late landings, lapsed leases and restarts. */
  lemma EveryNumberOnce(c: Config, clock: int, es: seq<Event>, i: nat, j: nat)
    requires ValidConfig(c) && AllCount(c, clock, es)
    requires i < |Run(c, clock, es).given| && j < |Run(c, clock, es).given|
    requires Run(c, clock, es).given[i].1 == Run(c, clock, es).given[j].1
    ensures i == j && Run(c, clock, es).given[i].1 == i + 1
  {
    hide Run, AllCount;
    assert es[..|es|] == es;
    NumberedRun(c, clock, es, |es|);
  }

  /** A fresh issue leaves service and store at one count exactly if its clock holds. */
  lemma CountKeptExactly(c: Config, s: System, e: Event)
    requires Whole(s) && ValidConfig(c) && Numbered(s) && e.Issue? && Commits(s, e)
    ensures var s' := Issued(c, s, e.identity, e.expiresAt, e.now, e.delivery).0;
            && !s'.uncertain && s'.given == s.given + [(e.identity, s.core.next)]
            && (s'.core.next == Stored(s').next <==> Restorable(s.core, e.now))
  {
    hide Ascending, Restorable;
    var w := TransactionOf(s, e.identity, Seconds(e.now), Seconds(e.expiresAt));
    TransactionOk(s, e.identity, Seconds(e.now), Seconds(e.expiresAt));
    TransactionRestorable(s, e.identity, Seconds(e.now), Seconds(e.expiresAt), e.now);
    PrunedFacts(c, w.ledger, e.now);
  }

  /** A service whose count is behind the store's gives a number out again at its next fresh issue. */
  lemma LostCountRepeats(c: Config, s: System, e: Event)
    requires Whole(s) && Ascending(s) && s.core.next < Stored(s).next && e.Issue? && Commits(s, e)
    ensures var s' := Issued(c, s, e.identity, e.expiresAt, e.now, e.delivery).0;
            && s.core.next > 0 && s.given[s.core.next - 1].1 == s.core.next
            && s'.given == s.given + [(e.identity, s.core.next)]
  {
  }

  /** An answer is given only of a stored mapping below the stored counter, and as long as the
      mapping stands, asking again gives the same answer. */
  lemma AnswersAreStored(c: Config, s: System, e: Event, again: Event)
    requires e.Issue? && Issued(c, s, e.identity, e.expiresAt, e.now, e.delivery).1.Told?
    requires again.Issue? && again.identity == e.identity && Seconds(again.expiresAt) == Seconds(e.expiresAt)
    ensures var (s', told) := Issued(c, s, e.identity, e.expiresAt, e.now, e.delivery);
            && e.identity in s'.issuances && s'.issuances[e.identity] == told.issuance && told.issuance.number < Stored(s').next
            && (ValidRequest(s', again.identity, again.expiresAt, again.now) && Restorable(Stored(s'), again.now)
                && (again.delivery.Answered? || (again.delivery.Lost? && again.delivery.readBack)) ==>
                  var (s2, told2) := Issued(c, s', again.identity, again.expiresAt, again.now, again.delivery);
                  told2 == told && s2.given == s'.given && s2.issuances == s'.issuances)
  {
    hide Restorable, Pruned, Shown;
  }

  /** A restart finds everything in order, on any clock that holds. */
  lemma RestartStarts(c: Config, s: System, now: int, newProcess: bool)
    requires Whole(s) && Numbered(s) && Restorable(Stored(s), now)
    ensures var s' := Restarted(c, s, now, newProcess); s'.running && s'.core == Pruned(Stored(s), c.window, now)
  {
    forall id | id in s.issuances
      ensures 0 < s.issuances[id].number < Stored(s).next && s.issuances[id].expiresAt > s.issuances[id].issuedAt
    {
      assert Mapped(s, id);
    }
    forall a, b | a in s.issuances && b in s.issuances && s.issuances[a].number == s.issuances[b].number
      ensures a == b
    {
      assert Mapped(s, a) && Mapped(s, b);
    }
    assert s.snapshot.None? ==> s.given == [] && s.issuances == map[];
    assert Pruned(EMPTY, c.window, now) == EMPTY;
  }

  // ---------------------------------------------------------------------------------------
  // The runs outside the conditions

  /** A run that gives number 1, and leaves it unreleased. */
  lemma FirstIssue(a: Jti, t: int)
    requires a != [] && t == 1000 * TICKS
    ensures var first := Ledger(0, 2, 0, []);
            Run(Config(1, 300), t, [Restart(t, true), Issue(a, 2 * t, t, Answered)])
            == System(first, true, false, Some(first), map[a := Issuance(1, 1000, 2000)], [], [(a, 1)], [], t)
  {
    var c, e1, e2 := Config(1, 300), Restart(t, true), Issue(a, 2 * t, t, Answered);
    assert [e1, e2][..1] == [e1] && [e1][..0] == [];
    assert Run(c, t, []) == Start(t);
    assert Run(c, t, [e1]) == Step(c, Start(t), e1) == Start(t).(running := true);
    assert Run(c, t, [e1, e2]) == Step(c, Start(t).(running := true), e2);
    assert TransactionOf(Start(t).(running := true), a, 1000, 2000).ledger == Ledger(0, 2, 0, []);
    assert Sound(Ledger(0, 2, 0, []));
  }

  /** Releasing number 1 at `now`. */
  lemma FirstRelease(now: int)
    requires now >= 0
    ensures QueueLedger.Release(Ledger(0, 2, 0, []), 1, 300, Budgets(1, 1), now)
            == Some(Ledger(1, 2, 0, [Batch(1, 1, Normalized(now))]))
    ensures Sound(Ledger(1, 2, 0, [Batch(1, 1, Normalized(now))]))
    ensures TimeOf(Ledger(1, 2, 0, [Batch(1, 1, Normalized(now))]), 1) == Some(Normalized(now))
  {
    var first, second := Ledger(0, 2, 0, []), Ledger(1, 2, 0, [Batch(1, 1, Normalized(now))]);
    assert Extended(first, 1, now) == second;
    assert Continues(second, 0);
  }

  lemma RunMore(c: Config, clock: int, es: seq<Event>, e: Event)
    ensures Run(c, clock, es + [e]) == Step(c, Run(c, clock, es), e)
  {
    assert (es + [e])[..|es|] == es;
  }

  /** The states those runs go through: `a` has number 1, at second 1000. */
  function WithFirst(a: Jti, core: Ledger, snapshot: Ledger, floating: seq<Write>, times: seq<int>, clock: int): System {
    System(core, true, false, Some(snapshot), map[a := Issuance(1, 1000, 2000)], floating, [(a, 1)], times, clock)
  }

  function FirstOut(at: int): Ledger { Ledger(1, 2, 0, [Batch(1, 1, at)]) }

  lemma FrameStep(a: Jti, floating: seq<Write>, clock: int, now: int, answered: bool)
    requires 0 <= clock <= now && Normalized(now) == now
    ensures var first := Ledger(0, 2, 0, []);
            Step(Config(1, 300), WithFirst(a, first, first, floating, [], clock), Event.Release(Budgets(1, 1), now, answered, answered))
            == if answered then WithFirst(a, FirstOut(now), FirstOut(now), floating, [now], now)
               else WithFirst(a, first, first, floating + [Save(FirstOut(now), 0, now)], [], now)
  {
    FirstRelease(now);
    var first := Ledger(0, 2, 0, []);
    assert Pruned(first, 300, now) == first;
    assert TimeOf(FirstOut(now), 0 + 1 + 0) == Some(now);
    assert Shown([], FirstOut(now)) == [now];
  }

  lemma LandStep(a: Jti, core: Ledger, snapshot: Ledger, w: Write, times: seq<int>, clock: int)
    requires w.Save?
    ensures Step(Config(1, 300), WithFirst(a, core, snapshot, [w], times, clock), Land(0))
            == WithFirst(a, core, w.ledger, [], times, clock)
  {
  }

  lemma RestartStep(a: Jti, core: Ledger, at: int, times: seq<int>, now: int)
    requires 0 <= at <= now <= at + 300 * TICKS && Normalized(at) == at && |times| == 1
    ensures var s' := Step(Config(1, 300), WithFirst(a, core, FirstOut(at), [], times, now), Restart(now, true));
            s'.running && s'.core == FirstOut(at)
  {
    FirstRelease(at);
    assert MappingsFit(WithFirst(a, core, FirstOut(at), [], times, now), FirstOut(at));
    assert Restorable(FirstOut(at), now);
    assert Pruned(FirstOut(at), 300, now) == FirstOut(at);
  }

  /** A save that lands late moves a release.  A frame's save times out and is rolled back, a
      later frame releases the number again and shows it, then the first save lands: after a
      restart the number has the first frame's time. */
  lemma LateSaveRetimes(a: Jti, t: int)
    requires a != [] && t == 1000 * TICKS
    ensures var c, u := Config(1, 300), t + 100 * TICKS;
            var es := [Restart(t, true), Issue(a, 2 * t, t, Answered), Event.Release(Budgets(1, 1), t, false, false),
                       Event.Release(Budgets(1, 1), u, true, true)];
            && TimeOf(Run(c, t, es).core, 1) == Some(u)
            && !LandsFresh(Run(c, t, es), Land(0))
            && Run(c, t, es + [Land(0)] + [Restart(u, true)]).running
            && TimeOf(Run(c, t, es + [Land(0)] + [Restart(u, true)]).core, 1) == Some(t)
  {
    hide Run, Step, TimeOf;
    var c, u, first := Config(1, 300), t + 100 * TICKS, Ledger(0, 2, 0, []);
    var e1, e2, e3, e4 := Restart(t, true), Issue(a, 2 * t, t, Answered), Event.Release(Budgets(1, 1), t, false, false),
                          Event.Release(Budgets(1, 1), u, true, true);
    SecondsOfWhole(1000);
    SecondsOfWhole(1100);
    FirstIssue(a, t);
    RunMore(c, t, [e1, e2], e3);
    RunMore(c, t, [e1, e2, e3], e4);
    assert [e1, e2] + [e3] == [e1, e2, e3] && [e1, e2, e3] + [e4] == [e1, e2, e3, e4];
    FrameStep(a, [], t, t, false);
    var w := Save(FirstOut(t), 0, t);
    assert [] + [w] == [w];
    FrameStep(a, [w], t, u, true);
    assert WithFirst(a, FirstOut(u), FirstOut(u), [w], [u], u).times[0] != w.at;
    RunMore(c, t, [e1, e2, e3, e4], Land(0));
    RunMore(c, t, [e1, e2, e3, e4] + [Land(0)], Restart(u, true));
    LandStep(a, FirstOut(u), FirstOut(u), w, [u], u);
    RestartStep(a, FirstOut(u), t, [u], u);
    FirstRelease(t);
    FirstRelease(u);
  }

  /** The issue whose request times out before it lands. */
  lemma LostIssueStep(a: Jti, t: int)
    requires a != [] && t == 1000 * TICKS
    ensures var c, w := Config(1, 300), Transaction(Ledger(0, 2, 0, []), a, Issuance(1, 1000, 2000));
            Run(c, t, [Restart(t, true), Issue(a, 2 * t, t, Lost(false, false)), Restart(t, true)])
            == Start(t).(running := true, floating := [w])
  {
    var c, e1, e2, e3 := Config(1, 300), Restart(t, true), Issue(a, 2 * t, t, Lost(false, false)), Restart(t, true);
    assert [e1, e2, e3][..2] == [e1, e2] && [e1, e2][..1] == [e1] && [e1][..0] == [];
    assert Run(c, t, []) == Start(t);
    assert Run(c, t, [e1]) == Step(c, Start(t), e1) == Start(t).(running := true);
    var w := Transaction(Ledger(0, 2, 0, []), a, Issuance(1, 1000, 2000));
    assert TransactionOf(Start(t).(running := true), a, 1000, 2000) == w;
    assert Run(c, t, [e1, e2]) == Step(c, Start(t).(running := true), e2);
    assert Run(c, t, [e1, e2]) == Start(t).(running := true, floating := [w], uncertain := true);
    assert Run(c, t, [e1, e2, e3]) == Step(c, Run(c, t, [e1, e2]), e3);
  }

  /** An issue answered by a service that has issued nothing. */
  lemma FreshIssueStep(c: Config, s: System, b: Jti, t: int)
    requires b != [] && t == 1000 * TICKS && s.core == EMPTY && s.running && !s.uncertain && b !in s.issuances && s.clock == t
    ensures var s' := Step(c, s, Issue(b, 2 * t, t, Answered));
            s'.given == s.given + [(b, 1)] && s'.floating == s.floating && s'.issuances == s.issuances[b := Issuance(1, 1000, 2000)]
  {
    assert TransactionOf(s, b, 1000, 2000).issuance == Issuance(1, 1000, 2000);
  }

  lemma LandTransactionStep(c: Config, s: System, w: Write)
    requires s.floating == [w] && w.Transaction? && w.identity !in s.issuances
    ensures var s' := Step(c, s, Land(0));
            && s'.given == s.given + [(w.identity, w.issuance.number)] && s'.core == s.core && s'.running == s.running
            && s'.uncertain == s.uncertain && s'.issuances == s.issuances[w.identity := w.issuance] && s'.clock == s.clock
  {
  }

  /** A transaction that lands late gives a number twice.  The issue of `a` times out, a new
      process gives `b` number 1, and before or after that the transaction of `a` lands: its
      compare is on the mapping of `a` alone. */
  lemma LateIssueTwice(a: Jti, b: Jti, t: int)
    requires a != [] && b != [] && a != b && t == 1000 * TICKS
    ensures var c := Config(1, 300);
            var es := [Restart(t, true), Issue(a, 2 * t, t, Lost(false, false)), Restart(t, true)];
            && Run(c, t, es + [Issue(b, 2 * t, t, Answered)] + [Land(0)]).given == [(b, 1), (a, 1)]
            && Run(c, t, es + [Land(0)] + [Issue(b, 2 * t, t, Answered)]).given == [(a, 1), (b, 1)]
  {
    hide Run, Step;
    var c := Config(1, 300);
    var es := [Restart(t, true), Issue(a, 2 * t, t, Lost(false, false)), Restart(t, true)];
    var eb := Issue(b, 2 * t, t, Answered);
    LostIssueStep(a, t);
    var w := Transaction(Ledger(0, 2, 0, []), a, Issuance(1, 1000, 2000));
    RunMore(c, t, es, eb);
    RunMore(c, t, es + [eb], Land(0));
    FreshIssueStep(c, Run(c, t, es), b, t);
    LandTransactionStep(c, Run(c, t, es + [eb]), w);
    RunMore(c, t, es, Land(0));
    RunMore(c, t, es + [Land(0)], eb);
    LandTransactionStep(c, Run(c, t, es), w);
    FreshIssueStep(c, Run(c, t, es + [Land(0)]), b, t);
  }

  lemma BehindStep(a: Jti, b: Jti, t: int) returns (s2: System)
    requires a != [] && b != [] && a != b && t == 1000 * TICKS
    ensures var s1 := WithFirst(a, FirstOut(t), FirstOut(t), [], [t], t);
            && Issued(Config(1, 300), s1, b, 2 * t, t - 61 * TICKS, Answered) == (s2, Throws)
            && s2.core == s1.core && s2.running && !s2.uncertain && s2.given == [(a, 1), (b, 2)] && s2.issuances.Keys == {a, b}
  {
    var s1 := WithFirst(a, FirstOut(t), FirstOut(t), [], [t], t);
    var ledger := FirstOut(t).(next := 3);
    s2 := Landed(s1, Transaction(ledger, b, Issuance(2, 939, 2000)));
    assert ledger.batches[0].releasedAt > t - 61 * TICKS + LEEWAY;
    assert TransactionOf(s1, b, 939, 2000) == Transaction(ledger, b, Issuance(2, 939, 2000));
  }

  lemma AfterStep(s2: System, b: Jti, d: Jti, t: int)
    requires d != [] && t == 1000 * TICKS && s2.core == FirstOut(t) && s2.running && !s2.uncertain && d !in s2.issuances
    ensures var (s3, told) := Issued(Config(1, 300), s2, d, 2 * t, t, Answered);
            s3.given == s2.given + [(d, 2)] && told == Told(Issuance(2, 1000, 2000))
  {
    var ledger := FirstOut(t).(next := 3);
    assert Continues(ledger, 0);
    assert Sound(ledger);
    assert TransactionOf(s2, d, 1000, 2000) == Transaction(ledger, d, Issuance(2, 1000, 2000));
  }

  /** An issue on a clock 61 seconds behind the last release commits its number and then fails,
      and the next identity is given the same number. */
  lemma TwoIdentitiesOneNumber(a: Jti, b: Jti, d: Jti)
    requires a != [] && b != [] && d != [] && a != b && b != d && a != d
    ensures var c, t := Config(1, 300), 1000 * TICKS;
            var s1 := Run(c, t, [Restart(t, true), Issue(a, 2 * t, t, Answered), Event.Release(Budgets(1, 1), t, true, true)]);
            var (s2, told) := Issued(c, s1, b, 2 * t, t - 61 * TICKS, Answered);
            var (s3, toldNext) := Issued(c, s2, d, 2 * t, t, Answered);
            told == Throws && s3.given == [(a, 1), (b, 2), (d, 2)] && toldNext == Told(Issuance(2, 1000, 2000))
  {
    hide Run, Step;
    var c, t := Config(1, 300), 1000 * TICKS;
    var e1, e2, e3 := Restart(t, true), Issue(a, 2 * t, t, Answered), Event.Release(Budgets(1, 1), t, true, true);
    SecondsOfWhole(1000);
    FirstIssue(a, t);
    RunMore(c, t, [e1, e2], e3);
    assert [e1, e2] + [e3] == [e1, e2, e3];
    FrameStep(a, [], t, t, true);
    var s1 := WithFirst(a, FirstOut(t), FirstOut(t), [], [t], t);
    var s2 := BehindStep(a, b, t);
    hide Issued;
    AfterStep(s2, b, d, t);
  }
}
