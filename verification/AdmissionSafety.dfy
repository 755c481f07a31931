/** Every interleaving of the gateways' calls, lost responses included, behaves as atomic steps
    on the record, and no pair of credentials is ever consumed twice. */
module AdmissionSafety {
  import opened Basics
  import opened Clock
  import opened Credentials
  import opened AdmissionRecords
  import opened AdmissionCluster

  // ---------------------------------------------------------------------------------------
  // The invariant

  /** A loaded entry that still has its revision is still the entry. */
  ghost predicate LoadedOk(s: System, key: Jti, l: Loaded) {
    l.Found? ==>
      && l.modRevision <= s.revision
      && (key in s.kv && s.kv[key].modRevision == l.modRevision ==> s.kv[key].record == l.record)
  }

  ghost predicate WriteOk(c: Config, s: System, call: Call, loaded: Loaded, replacement: Record, answer: Answer) {
    && LoadedOk(s, IdentityOf(call), loaded)
    && Decide(c.ttl, RecordOf(loaded), call) == Write(replacement, answer)
  }

  ghost predicate Holds(q: ReserveRequest, v: Reservation) {
    && v.identity == q.identity && v.grant == q.grant && v.owner == q.owner
    && v.consumeUntil == Normalized(q.consumeUntil)
  }

  ghost predicate CallOk(s: System, a: Attempt) {
    a.mutation.Some? ==>
      && !a.mutation.value.CallReserve? && Holds(a.request, a.mutation.value.reservation)
      && a.gateway < |s.clocks| && a.request.now <= a.mutation.value.now <= s.clocks[a.gateway]
  }

  ghost predicate PhaseOk(c: Config, s: System, a: Attempt) {
    match a.phase
    case Loading(_, _) => true
    case Leasing(_, loaded, replacement, answer) => WriteOk(c, s, CurrentCall(a), loaded, replacement, answer)
    case Putting(_, loaded, replacement, answer, _) => WriteOk(c, s, CurrentCall(a), loaded, replacement, answer)
    case Done(answer) => answer.Granted? ==> Holds(a.request, answer.reservation)
  }

  /** The request was made by its gateway for credentials both verifiers accepted. */
  ghost predicate RequestOk(c: Config, s: System, owner: Owner, a: Attempt) {
    && a.gateway < |s.clocks| && a.request.now <= s.clocks[a.gateway] && a.request.owner == owner
    && a.request.consumeUntil == Window(c, a.request.identity, a.request.grant)
    && a.request.now <= a.request.consumeUntil
  }

  ghost predicate AttemptOk(c: Config, s: System, owner: Owner) {
    owner in s.attempts ==>
      RequestOk(c, s, owner, s.attempts[owner]) && CallOk(s, s.attempts[owner]) && PhaseOk(c, s, s.attempts[owner])
  }

  /** A put that may still land is the last one its attempt will ever send. */
  ghost predicate FloatingOk(c: Config, s: System, p: Put) {
    && OwnerOf(p.call) in s.attempts
    && s.attempts[OwnerOf(p.call)].phase.Done? && !s.attempts[OwnerOf(p.call)].phase.answer.Granted?
    && p.call == CurrentCall(s.attempts[OwnerOf(p.call)])
    && exists answer :: WriteOk(c, s, p.call, p.loaded, p.replacement, answer)
  }

  ghost predicate EntryOk(c: Config, s: System, key: Jti) {
    key in s.kv ==>
      var r := s.kv[key].record;
      && s.kv[key].modRevision <= s.revision && r.owner in s.attempts
      && s.attempts[r.owner].request.identity == key && s.attempts[r.owner].request.grant == r.grant
      && r.consumeUntil == Until(c, key, r.grant)
  }

  ghost predicate Ops(c: Config, s: System) {
    && (forall owner :: AttemptOk(c, s, owner))
    && (forall p :: p in s.floating ==> FloatingOk(c, s, p))
    && (forall key :: EntryOk(c, s, key))
  }

  function LogUntil(c: Config, s: System, n: nat): int
    requires n < |s.log|
  {
    Until(c, s.log[n].identity, s.log[n].grant)
  }

  /** Nobody can be told that the pair is free again before its window is over everywhere. */
  ghost predicate Shielded(c: Config, s: System, n: nat)
    requires n < |s.log|
  {
    var key, u := s.log[n].identity, LogUntil(c, s, n);
    || Past(s.clocks, u)
    || (key in s.kv && s.kv[key].record.owner in s.attempts
        && var r := s.kv[key].record;
           if r.state.Consumed? then r.consumeUntil >= u
           else r.leaseExpiresAt > u && Normalized(s.attempts[r.owner].request.now) > u)
  }

  /** If the pair is reserved again after its consumption, no commit made in time is left. */
  ghost predicate Spent(c: Config, s: System, n: nat)
    requires n < |s.log|
  {
    var key, u := s.log[n].identity, LogUntil(c, s, n);
    key in s.kv && s.kv[key].record.state.Reserved? && s.kv[key].record.grant == s.log[n].grant
    && s.kv[key].record.owner in s.attempts ==>
      && Past(s.clocks, u)
      && var m := s.attempts[s.kv[key].record.owner].mutation;
         m.Some? && m.value.CallCommit? ==> Normalized(m.value.now) > u
  }

  ghost predicate Recorded(s: System, identity: Jti, grant: Jti, fencing: nat) {
    exists n :: 0 <= n < |s.log| && s.log[n].identity == identity && s.log[n].grant == grant && s.log[n].fencing == fencing
  }

  ghost predicate ConsumedRecorded(s: System, key: Jti) {
    key in s.kv && s.kv[key].record.state.Consumed? ==> Recorded(s, key, s.kv[key].record.grant, s.kv[key].record.fencing)
  }

  ghost predicate AppliedRecorded(s: System, owner: Owner) {
    owner in s.attempts && s.attempts[owner].phase == Done(Applied) && CurrentCall(s.attempts[owner]).CallCommit? ==>
      var v := s.attempts[owner].mutation.value.reservation;
      Recorded(s, v.identity, v.grant, v.fencing)
  }

  ghost predicate SamePair(s: System, m: nat, n: nat) {
    m < |s.log| && n < |s.log| && s.log[m].identity == s.log[n].identity && s.log[m].grant == s.log[n].grant
  }

  ghost predicate Ledger(c: Config, s: System) {
    && (forall n :: 0 <= n < |s.log| ==> Shielded(c, s, n))
    && (forall n :: 0 <= n < |s.log| ==> Spent(c, s, n))
    && (forall key :: ConsumedRecorded(s, key))
    && (forall owner :: AppliedRecorded(s, owner))
    && (forall m, n :: SamePair(s, m, n) ==> m == n)
  }

  ghost predicate Inv(c: Config, s: System) { ValidTtl(c.ttl) && Ops(c, s) && Ledger(c, s) }

  // ---------------------------------------------------------------------------------------
  // Every step is atomic

  function RecordAt(s: System, key: Jti): Option<Record> { if key in s.kv then Some(s.kv[key].record) else None }

  /** A put lands as the atomic step of its call on the record as it is at that moment. */
  lemma LandedAtomic(c: Config, s: System, p: Put, answer: Answer)
    requires WriteOk(c, s, p.call, p.loaded, p.replacement, answer) && Compare(s.kv, IdentityOf(p.call), p.loaded)
    ensures var key := IdentityOf(p.call);
            && RecordAt(s, key) == RecordOf(p.loaded)
            && Atomic(c.ttl, RecordAt(s, key), p.call) == (RecordAt(Landed(s, p), key), answer)
  {
    DecideIsAtomic(c.ttl, RecordOf(p.loaded), p.call);
  }

  /** The identity whose record an event may touch, and the call it may touch it for. */
  ghost predicate Concerns(s: System, e: Event, key: Jti, call: Call) {
    && IdentityOf(call) == key
    && match e
       case Reply(owner, _) => owner in s.attempts && call == CurrentCall(s.attempts[owner])
       case Land(p) => call == p.call
       case _ => false
  }

  /** Refinement: a step changes no record, or exactly one, and that one as the atomic store
      would for the call concerned; and whenever a call returns an answer other than
      `Unavailable`, the atomic store gives that answer for the record of that moment. */
  lemma EveryStepIsAtomic(c: Config, s: System, e: Event, key: Jti)
    requires Ops(c, s) && !e.Expire?
    ensures var s' := Step(c, s, e);
            || RecordAt(s', key) == RecordAt(s, key)
            || exists call :: Concerns(s, e, key, call) && Atomic(c.ttl, RecordAt(s, key), call).0 == RecordAt(s', key)
    ensures e.Reply? && Enabled(c, s, e) ==>
              var s' := Step(c, s, e);
              var call := CurrentCall(s.attempts[e.owner]);
              var phase := s'.attempts[e.owner].phase;
              phase.Done? && phase.answer != Unavailable ==>
                Atomic(c.ttl, RecordAt(s, IdentityOf(call)), call) == (RecordAt(s', IdentityOf(call)), phase.answer)
  {
    hide Decide, Atomic;
    if Enabled(c, s, e) {
      match e
      case Reply(owner, id) =>
        var a := s.attempts[owner];
        var call := CurrentCall(a);
        assert AttemptOk(c, s, owner);
        assert Concerns(s, e, IdentityOf(call), call);
        DecideIsAtomic(c.ttl, RecordAt(s, IdentityOf(call)), call);
        if a.phase.Putting? && Compare(s.kv, IdentityOf(call), a.phase.loaded) {
          LandedAtomic(c, s, PutOf(a), a.phase.answer);
        }
      case Land(p) =>
        assert FloatingOk(c, s, p);
        var answer :| WriteOk(c, s, p.call, p.loaded, p.replacement, answer);
        assert Concerns(s, e, IdentityOf(p.call), p.call);
        if Compare(s.kv, IdentityOf(p.call), p.loaded) {
          LandedAtomic(c, s, p, answer);
        }
      case _ =>
    }
  }

  // ---------------------------------------------------------------------------------------
  // Steps that write no record

  ghost predicate Later(s: System, s': System) {
    && |s'.clocks| == |s.clocks| && (forall g :: 0 <= g < |s.clocks| ==> s.clocks[g] <= s'.clocks[g])
  }

  lemma PastLater(s: System, s': System, u: int)
    requires Later(s, s') && Past(s.clocks, u)
    ensures Past(s'.clocks, u)
  {
    forall g | 0 <= g < |s'.clocks|
      ensures Normalized(s'.clocks[g]) > u
    {
      NormalizedFacts(s.clocks[g], s'.clocks[g]);
    }
  }

  /** Only attempt `o` moves, and it was neither finished nor unknown to its floating puts. */
  ghost predicate OnlyAttempt(s: System, s': System, o: Owner) {
    && s'.kv == s.kv && s'.revision == s.revision && s'.log == s.log && s'.clocks == s.clocks
    && o in s'.attempts && s'.attempts.Keys == s.attempts.Keys + {o}
    && (forall owner :: owner in s.attempts && owner != o ==> s'.attempts[owner] == s.attempts[owner])
    && (o in s.attempts ==>
          && s'.attempts[o].request == s.attempts[o].request
          && !(s.attempts[o].phase.Done? && !s.attempts[o].phase.answer.Granted?))
  }

  lemma OpsOnlyAttempt(c: Config, s: System, s': System, o: Owner)
    requires Ops(c, s) && OnlyAttempt(s, s', o) && AttemptOk(c, s', o)
    requires forall p :: p in s'.floating ==> p in s.floating || FloatingOk(c, s', p)
    ensures Ops(c, s')
  {
    forall owner
      ensures AttemptOk(c, s', owner)
    {
      assert AttemptOk(c, s, owner);
      if owner != o && owner in s'.attempts {
        assert PhaseOk(c, s', s'.attempts[owner]);
      }
    }
    forall p | p in s'.floating
      ensures FloatingOk(c, s', p)
    {
      if p in s.floating {
        assert FloatingOk(c, s, p);
        var answer :| WriteOk(c, s, p.call, p.loaded, p.replacement, answer);
        assert WriteOk(c, s', p.call, p.loaded, p.replacement, answer);
      }
    }
    forall key
      ensures EntryOk(c, s', key)
    {
      assert EntryOk(c, s, key);
    }
  }

  lemma LedgerOnlyAttempt(c: Config, s: System, s': System, o: Owner)
    requires Ops(c, s) && Ledger(c, s) && OnlyAttempt(s, s', o) && AppliedRecorded(s', o)
    requires o in s.attempts ==>
               || s'.attempts[o].mutation == s.attempts[o].mutation
               || (s.attempts[o].gateway < |s.clocks| && s'.attempts[o].mutation.Some?
                   && (s'.attempts[o].mutation.value.CallCommit? ==>
                         s'.attempts[o].mutation.value.now == s.clocks[s.attempts[o].gateway]))
    ensures Ledger(c, s')
  {
    forall n | 0 <= n < |s'.log|
      ensures Shielded(c, s', n)
    {
      assert Shielded(c, s, n) && EntryOk(c, s, s.log[n].identity);
    }
    forall n | 0 <= n < |s'.log|
      ensures Spent(c, s', n)
    {
      assert Spent(c, s, n) && EntryOk(c, s, s.log[n].identity);
    }
    forall key
      ensures ConsumedRecorded(s', key)
    {
      assert ConsumedRecorded(s, key);
      if key in s.kv && s.kv[key].record.state.Consumed? {
        RecordedStays(s, s', key, s.kv[key].record.grant, s.kv[key].record.fencing);
      }
    }
    forall owner
      ensures AppliedRecorded(s', owner)
    {
      assert AppliedRecorded(s, owner);
    }
    PairsKept(c, s, s');
  }

  lemma RecordedStays(s: System, s': System, identity: Jti, grant: Jti, fencing: nat)
    requires Recorded(s, identity, grant, fencing) && s.log <= s'.log
    ensures Recorded(s', identity, grant, fencing)
  {
    var n :| 0 <= n < |s.log| && s.log[n].identity == identity && s.log[n].grant == grant && s.log[n].fencing == fencing;
    assert s'.log[n] == s.log[n];
  }

  lemma PairsKept(c: Config, s: System, s': System)
    requires Ledger(c, s) && s'.log == s.log
    ensures forall m, n :: SamePair(s', m, n) ==> m == n
  {
    forall m: nat, n: nat | SamePair(s', m, n)
      ensures m == n
    {
      assert SamePair(s, m, n);
    }
  }

  /** Time passes, or a put is never heard of again. */
  lemma InvLater(c: Config, s: System, s': System)
    requires Inv(c, s) && Later(s, s') && s'.floating <= s.floating
    requires s' == s.(clocks := s'.clocks, floating := s'.floating, time := s'.time)
    ensures Inv(c, s')
  {
    forall owner
      ensures AttemptOk(c, s', owner)
    {
      assert AttemptOk(c, s, owner);
    }
    forall p | p in s'.floating
      ensures FloatingOk(c, s', p)
    {
      assert FloatingOk(c, s, p);
      var answer :| WriteOk(c, s, p.call, p.loaded, p.replacement, answer);
      assert WriteOk(c, s', p.call, p.loaded, p.replacement, answer);
    }
    forall key
      ensures EntryOk(c, s', key)
    {
      assert EntryOk(c, s, key);
    }
    LedgerLater(c, s, s');
  }

  lemma LedgerLater(c: Config, s: System, s': System)
    requires Ledger(c, s) && Later(s, s') && s'.kv == s.kv && s'.attempts == s.attempts && s'.log == s.log
    ensures Ledger(c, s')
  {
    forall n | 0 <= n < |s'.log|
      ensures Shielded(c, s', n) && Spent(c, s', n)
    {
      assert Shielded(c, s, n) && Spent(c, s, n);
      if Past(s.clocks, LogUntil(c, s, n)) {
        PastLater(s, s', LogUntil(c, s, n));
      }
    }
    forall key
      ensures ConsumedRecorded(s', key)
    {
      assert ConsumedRecorded(s, key);
      if key in s.kv && s.kv[key].record.state.Consumed? {
        RecordedStays(s, s', key, s.kv[key].record.grant, s.kv[key].record.fencing);
      }
    }
    forall owner
      ensures AppliedRecorded(s', owner)
    {
      assert AppliedRecorded(s, owner);
      if owner in s.attempts && s.attempts[owner].phase == Done(Applied) && CurrentCall(s.attempts[owner]).CallCommit? {
        var v := s.attempts[owner].mutation.value.reservation;
        RecordedStays(s, s', v.identity, v.grant, v.fencing);
      }
    }
    PairsKept(c, s, s');
  }

  // ---------------------------------------------------------------------------------------
  // A put that lands

  /** The put is the latest one of its attempt's current call, and its comparison holds. */
  ghost predicate Landable(c: Config, s: System, p: Put) {
    && (exists answer :: WriteOk(c, s, p.call, p.loaded, p.replacement, answer))
    && OwnerOf(p.call) in s.attempts && p.call == CurrentCall(s.attempts[OwnerOf(p.call)])
    && AttemptOk(c, s, OwnerOf(p.call)) && EntryOk(c, s, IdentityOf(p.call))
    && Compare(s.kv, IdentityOf(p.call), p.loaded)
  }

  /** What the replacement is, call by call. */
  lemma ReplacementFacts(c: Config, s: System, p: Put)
    requires Landable(c, s, p) && ValidTtl(c.ttl)
    ensures var key, q, r := IdentityOf(p.call), s.attempts[OwnerOf(p.call)].request, p.replacement;
            && r.owner == q.owner == OwnerOf(p.call) && r.grant == q.grant && q.identity == key
            && r.consumeUntil == Until(c, key, r.grant) && Normalized(q.now) <= r.consumeUntil
    ensures p.call.CallReserve? ==>
              var now := Normalized(p.call.request.now);
              && s.attempts[OwnerOf(p.call)].mutation.None? && p.replacement.state.Reserved?
              && p.replacement.leaseExpiresAt > now && p.call.request == s.attempts[OwnerOf(p.call)].request
              && (IdentityOf(p.call) in s.kv ==> !Blocks(s.kv[IdentityOf(p.call)].record, now))
    ensures !p.call.CallReserve? ==>
              && IdentityOf(p.call) in s.kv && s.kv[IdentityOf(p.call)].record.state.Reserved?
              && s.kv[IdentityOf(p.call)].record.owner == p.replacement.owner
              && s.kv[IdentityOf(p.call)].record.grant == p.replacement.grant
    ensures p.call.CallCommit? ==>
              && p.replacement.state.Consumed? && Normalized(p.call.now) <= p.replacement.consumeUntil
    ensures p.call.CallRelease? ==>
              && p.replacement.state.Reserved?
              && p.replacement.leaseExpiresAt >= Normalized(s.attempts[OwnerOf(p.call)].request.now)
  {
    var answer :| WriteOk(c, s, p.call, p.loaded, p.replacement, answer);
    var a := s.attempts[OwnerOf(p.call)];
    NormalizedFacts(a.request.now, a.request.consumeUntil);
    NormalizedFacts(a.request.consumeUntil, a.request.consumeUntil);
    if a.mutation.Some? {
      NormalizedFacts(a.request.now, a.mutation.value.now);
    }
  }

  lemma LandedOps(c: Config, s: System, p: Put)
    requires Ops(c, s) && Landable(c, s, p) && ValidTtl(c.ttl)
    ensures Ops(c, Landed(s, p))
  {
    var s' := Landed(s, p);
    ReplacementFacts(c, s, p);
    hide Decide;
    forall owner
      ensures AttemptOk(c, s', owner)
    {
      assert AttemptOk(c, s, owner);
      if owner in s.attempts {
        LandedPhase(c, s, p, s.attempts[owner]);
      }
    }
    forall f | f in s'.floating
      ensures FloatingOk(c, s', f)
    {
      assert FloatingOk(c, s, f);
      var answer :| WriteOk(c, s, f.call, f.loaded, f.replacement, answer);
      assert WriteOk(c, s', f.call, f.loaded, f.replacement, answer);
    }
    forall key
      ensures EntryOk(c, s', key)
    {
      assert EntryOk(c, s, key);
    }
  }

  lemma LandedPhase(c: Config, s: System, p: Put, a: Attempt)
    requires PhaseOk(c, s, a)
    ensures PhaseOk(c, Landed(s, p), a)
  {
    hide Decide;
  }

  lemma ShieldLands(c: Config, s: System, p: Put, n: nat)
    requires Landable(c, s, p) && ValidTtl(c.ttl) && n < |s.log| && Shielded(c, s, n) && Spent(c, s, n)
    ensures Shielded(c, Landed(s, p), n) && Spent(c, Landed(s, p), n)
  {
    hide Normalized, Window, WriteOk;
    ReplacementFacts(c, s, p);
    var s' := Landed(s, p);
    assert s'.log[n] == s.log[n];
  }

  /** The new entry of the ledger is shielded by the record that made it, and its pair is new:
      a commit in time is impossible once the pair has been spent. */
  lemma CommitLands(c: Config, s: System, p: Put)
    requires Ledger(c, s) && Landable(c, s, p) && ValidTtl(c.ttl) && p.call.CallCommit?
    ensures var s' := Landed(s, p);
            && |s'.log| == |s.log| + 1 && Shielded(c, s', |s.log|) && Spent(c, s', |s.log|)
            && Recorded(s', IdentityOf(p.call), p.replacement.grant, p.replacement.fencing)
            && forall m :: 0 <= m < |s.log| ==> !SamePair(s', m, |s.log|)
  {
    hide Normalized, Window, WriteOk;
    ReplacementFacts(c, s, p);
    var s' := Landed(s, p);
    assert s'.log[|s.log|].identity == IdentityOf(p.call);
    forall m | 0 <= m < |s.log|
      ensures !SamePair(s', m, |s.log|)
    {
      assert s'.log[m] == s.log[m];
      assert Spent(c, s, m);
    }
  }

  lemma LandedLedger(c: Config, s: System, p: Put)
    requires Ledger(c, s) && Landable(c, s, p) && ValidTtl(c.ttl)
    ensures Ledger(c, Landed(s, p))
  {
    hide Normalized, Window, WriteOk, Shielded, Spent;
    var s' := Landed(s, p);
    ReplacementFacts(c, s, p);
    if p.call.CallCommit? {
      CommitLands(c, s, p);
    }
    assert s.log <= s'.log;
    forall n | 0 <= n < |s'.log|
      ensures Shielded(c, s', n) && Spent(c, s', n)
    {
      if n < |s.log| {
        ShieldLands(c, s, p, n);
      }
    }
    forall key
      ensures ConsumedRecorded(s', key)
    {
      assert ConsumedRecorded(s, key);
      if key in s.kv && s.kv[key].record.state.Consumed? {
        RecordedStays(s, s', key, s.kv[key].record.grant, s.kv[key].record.fencing);
      }
    }
    forall owner
      ensures AppliedRecorded(s', owner)
    {
      assert AppliedRecorded(s, owner);
      if owner in s.attempts && s.attempts[owner].phase == Done(Applied) && CurrentCall(s.attempts[owner]).CallCommit? {
        var v := s.attempts[owner].mutation.value.reservation;
        RecordedStays(s, s', v.identity, v.grant, v.fencing);
      }
    }
    forall m: nat, n: nat | SamePair(s', m, n)
      ensures m == n
    {
      assert SamePair(s', n, m);
      if m < |s.log| && n < |s.log| {
        assert SamePair(s, m, n);
      }
    }
  }

  // ---------------------------------------------------------------------------------------
  // Every event

  /** A key that goes is past its retention on every gateway's clock. */
  ghost predicate Timely(c: Config, s: System, e: Event) {
    e.Expire? && Enabled(c, s, e) ==> Past(s.clocks, s.kv[e.identity].record.consumeUntil)
  }

  lemma InvExpire(c: Config, s: System, identity: Jti)
    requires Inv(c, s) && Enabled(c, s, Expire(identity)) && Timely(c, s, Expire(identity))
    ensures Inv(c, Step(c, s, Expire(identity)))
  {
    var s' := Step(c, s, Expire(identity));
    forall owner
      ensures AttemptOk(c, s', owner)
    {
      assert AttemptOk(c, s, owner);
    }
    forall f | f in s'.floating
      ensures FloatingOk(c, s', f)
    {
      assert FloatingOk(c, s, f);
      var answer :| WriteOk(c, s, f.call, f.loaded, f.replacement, answer);
      assert WriteOk(c, s', f.call, f.loaded, f.replacement, answer);
    }
    forall key
      ensures EntryOk(c, s', key)
    {
      assert EntryOk(c, s, key);
    }
    LedgerExpire(c, s, identity);
  }

  /** A key may go: whatever it shielded is past on every clock. */
  lemma LedgerExpire(c: Config, s: System, identity: Jti)
    requires Ops(c, s) && Ledger(c, s) && Enabled(c, s, Expire(identity)) && Timely(c, s, Expire(identity))
    ensures Ledger(c, Step(c, s, Expire(identity)))
  {
    var s' := Step(c, s, Expire(identity));
    forall n | 0 <= n < |s'.log|
      ensures Shielded(c, s', n) && Spent(c, s', n)
    {
      assert Shielded(c, s, n) && Spent(c, s, n);
      if s.log[n].identity == identity {
        var r := s.kv[identity].record;
        assert EntryOk(c, s, identity) && AttemptOk(c, s, r.owner);
        var q := s.attempts[r.owner].request;
        NormalizedFacts(q.now, q.consumeUntil);
        assert LogUntil(c, s, n) <= r.consumeUntil || Past(s.clocks, LogUntil(c, s, n));
      }
    }
    forall key
      ensures ConsumedRecorded(s', key)
    {
      assert ConsumedRecorded(s, key);
      if key in s'.kv && s.kv[key].record.state.Consumed? {
        RecordedStays(s, s', key, s.kv[key].record.grant, s.kv[key].record.fencing);
      }
    }
    forall owner
      ensures AppliedRecorded(s', owner)
    {
      assert AppliedRecorded(s, owner);
      if owner in s.attempts && s.attempts[owner].phase == Done(Applied) && CurrentCall(s.attempts[owner]).CallCommit? {
        var v := s.attempts[owner].mutation.value.reservation;
        RecordedStays(s, s', v.identity, v.grant, v.fencing);
      }
    }
    PairsKept(c, s, s');
  }

  /** Accepted credentials are within their window. */
  lemma AcceptedInWindow(c: Config, identity: Jti, grant: Jti, now: int)
    requires Accepts(c, identity, grant, now)
    ensures now <= Window(c, identity, grant)
  {
  }

  lemma InvBegin(c: Config, s: System, e: Event)
    requires Inv(c, s) && e.Begin? && Enabled(c, s, e)
    ensures Inv(c, Step(c, s, e))
  {
    hide Ledger, Accepts, ValidCall;
    AcceptedInWindow(c, e.identity, e.grant, s.clocks[e.gateway]);
    var s' := Step(c, s, e);
    OpsOnlyAttempt(c, s, s', e.owner);
    LedgerOnlyAttempt(c, s, s', e.owner);
  }

  lemma InvMutate(c: Config, s: System, e: Event)
    requires Inv(c, s) && e.Mutate? && Enabled(c, s, e)
    ensures Inv(c, Step(c, s, e))
  {
    hide Ledger, ValidCall;
    assert AttemptOk(c, s, e.owner);
    var s' := Step(c, s, e);
    OpsOnlyAttempt(c, s, s', e.owner);
    LedgerOnlyAttempt(c, s, s', e.owner);
  }

  lemma InvSilence(c: Config, s: System, e: Event)
    requires Inv(c, s) && e.Silence? && Enabled(c, s, e)
    ensures Inv(c, Step(c, s, e))
  {
    hide Ledger, Decide;
    assert AttemptOk(c, s, e.owner);
    var s' := Step(c, s, e);
    var a := s.attempts[e.owner];
    if a.phase.Putting? {
      assert WriteOk(c, s', CurrentCall(a), a.phase.loaded, a.phase.replacement, a.phase.answer);
      assert FloatingOk(c, s', PutOf(a));
    }
    OpsOnlyAttempt(c, s, s', e.owner);
    LedgerOnlyAttempt(c, s, s', e.owner);
  }

  /** What a decision made on the current record may end the call with. */
  lemma SaidIsTrue(c: Config, s: System, a: Attempt, loaded: Loaded)
    requires EntryOk(c, s, IdentityOf(CurrentCall(a))) && ConsumedRecorded(s, IdentityOf(CurrentCall(a)))
    requires RecordOf(loaded) == RecordAt(s, IdentityOf(CurrentCall(a)))
    requires a.request.owner in s.attempts && s.attempts[a.request.owner] == a
    requires a.request.consumeUntil == Window(c, a.request.identity, a.request.grant)
    requires Decide(c.ttl, RecordOf(loaded), CurrentCall(a)).Say?
    requires CallOk(s, a)
    ensures var answer := Decide(c.ttl, RecordOf(loaded), CurrentCall(a)).answer;
            && (answer.Granted? ==> Holds(a.request, answer.reservation))
            && (answer.Applied? && CurrentCall(a).CallCommit? ==>
                  var v := a.mutation.value.reservation; Recorded(s, v.identity, v.grant, v.fencing))
  {
  }

  lemma InvLoad(c: Config, s: System, e: Event)
    requires Inv(c, s) && e.Reply? && Enabled(c, s, e) && s.attempts[e.owner].phase.Loading?
    ensures Inv(c, Step(c, s, e))
  {
    hide Decide, Recorded, RetentionTtl;
    var s' := Step(c, s, e);
    var a := s.attempts[e.owner];
    var key := IdentityOf(CurrentCall(a));
    var loaded := if key in s.kv then Found(s.kv[key].record, s.kv[key].modRevision, s.kv[key].lease) else Absent;
    assert AttemptOk(c, s, e.owner) && EntryOk(c, s, key) && ConsumedRecorded(s, key);
    if Decide(c.ttl, RecordOf(loaded), CurrentCall(a)).Say? {
      SaidIsTrue(c, s, a, loaded);
    }
    assert AttemptOk(c, s', e.owner);
    if s'.attempts[e.owner].phase == Done(Applied) && CurrentCall(a).CallCommit? {
      var v := a.mutation.value.reservation;
      RecordedStays(s, s', v.identity, v.grant, v.fencing);
    }
    OpsOnlyAttempt(c, s, s', e.owner);
    LedgerOnlyAttempt(c, s, s', e.owner);
  }

  lemma InvLease(c: Config, s: System, e: Event)
    requires Inv(c, s) && e.Reply? && Enabled(c, s, e) && s.attempts[e.owner].phase.Leasing?
    ensures Inv(c, Step(c, s, e))
  {
    hide Decide, Ledger;
    var s' := Step(c, s, e);
    assert AttemptOk(c, s, e.owner);
    OpsOnlyAttempt(c, s, s', e.owner);
    LedgerOnlyAttempt(c, s, s', e.owner);
  }

  lemma InvPut(c: Config, s: System, e: Event)
    requires Inv(c, s) && e.Reply? && Enabled(c, s, e) && s.attempts[e.owner].phase.Putting?
    ensures Inv(c, Step(c, s, e))
  {
    var s' := Step(c, s, e);
    var a := s.attempts[e.owner];
    var p := PutOf(a);
    var s1 := Landed(s, p);
    assert AttemptOk(c, s, e.owner) && EntryOk(c, s, IdentityOf(p.call));
    assert s1.attempts == s.attempts && s1.clocks == s.clocks && (Compare(s.kv, IdentityOf(p.call), p.loaded) || s1 == s);
    hide Decide, Ledger, Ops, Landed, Normalized, Window;
    assert WriteOk(c, s, p.call, p.loaded, p.replacement, a.phase.answer);
    if Compare(s.kv, IdentityOf(p.call), p.loaded) {
      assert Landable(c, s, p);
      LandedOps(c, s, p);
      LandedLedger(c, s, p);
      PutAnswer(c, s, p, a.phase.answer);
    }
    OpsOnlyAttempt(c, s1, s', e.owner);
    LedgerOnlyAttempt(c, s1, s', e.owner);
  }

  lemma PutAnswer(c: Config, s: System, p: Put, answer: Answer)
    requires Landable(c, s, p) && WriteOk(c, s, p.call, p.loaded, p.replacement, answer) && Ledger(c, s) && ValidTtl(c.ttl)
    ensures answer.Granted? ==> Holds(s.attempts[OwnerOf(p.call)].request, answer.reservation)
    ensures p.call.CallCommit? ==>
              Recorded(Landed(s, p), p.call.reservation.identity, p.call.reservation.grant, p.call.reservation.fencing)
  {
    if p.call.CallCommit? {
      CommitLands(c, s, p);
    }
  }

  lemma InvLand(c: Config, s: System, p: Put)
    requires Inv(c, s) && p in s.floating
    ensures Inv(c, Step(c, s, Land(p)))
  {
    var s1 := Landed(s, p);
    assert Compare(s.kv, IdentityOf(p.call), p.loaded) || s1 == s;
    hide Decide, Ledger, Landed;
    assert FloatingOk(c, s, p) && AttemptOk(c, s, OwnerOf(p.call)) && EntryOk(c, s, IdentityOf(p.call));
    if Compare(s.kv, IdentityOf(p.call), p.loaded) {
      LandedOps(c, s, p);
      LandedLedger(c, s, p);
    }
    assert Step(c, s, Land(p)) == s1.(floating := s.floating - {p});
    InvLater(c, s1, Step(c, s, Land(p)));
  }

  lemma InvStep(c: Config, s: System, e: Event)
    requires Inv(c, s) && Timely(c, s, e)
    ensures Inv(c, Step(c, s, e))
  {
    hide Inv, Answered, Landed;
    if Enabled(c, s, e) {
      match e
      case Tick(g, now) => InvLater(c, s, Step(c, s, e));
      case Pass(now) => InvLater(c, s, Step(c, s, e));
      case Begin(_, _, _, _) => InvBegin(c, s, e);
      case Mutate(_, _) => InvMutate(c, s, e);
      case Reply(owner, _) =>
        var phase := s.attempts[owner].phase;
        if phase.Loading? {
          InvLoad(c, s, e);
        } else if phase.Leasing? {
          InvLease(c, s, e);
        } else {
          InvPut(c, s, e);
        }
      case Silence(_) => InvSilence(c, s, e);
      case Land(p) => InvLand(c, s, p);
      case Expire(identity) => InvExpire(c, s, identity);
    }
  }

  /** Over the whole run, no key goes while a gateway could still accept what it keeps out. */
  ghost predicate AllTimely(c: Config, clocks: seq<int>, es: seq<Event>) {
    forall i :: 0 <= i < |es| ==> Timely(c, Run(c, clocks, es[..i]), es[i])
  }

  lemma TimelyPrefix(c: Config, clocks: seq<int>, es: seq<Event>)
    requires AllTimely(c, clocks, es) && es != []
    ensures AllTimely(c, clocks, es[..|es| - 1]) && Timely(c, Run(c, clocks, es[..|es| - 1]), es[|es| - 1])
  {
    var before := es[..|es| - 1];
    assert forall i :: 0 <= i < |before| ==> before[..i] == es[..i] && before[i] == es[i];
  }

  lemma {:induction false} Reachable(c: Config, clocks: seq<int>, es: seq<Event>)
    requires ValidTtl(c.ttl) && AllTimely(c, clocks, es)
    ensures Inv(c, Run(c, clocks, es))
  {
    if es == [] {
    } else {
      hide Inv, Step, Timely;
      TimelyPrefix(c, clocks, es);
      Reachable(c, clocks, es[..|es| - 1]);
      InvStep(c, Run(c, clocks, es[..|es| - 1]), es[|es| - 1]);
    }
  }

  // ---------------------------------------------------------------------------------------
  // What every run guarantees

  /** Under any interleaving and any lost response, a pair of credentials that both verifiers
      accept is consumed at most once, as long as no key goes too early. */
  lemma ConsumedAtMostOnce(c: Config, clocks: seq<int>, es: seq<Event>, m: nat, n: nat)
    requires ValidTtl(c.ttl) && AllTimely(c, clocks, es)
    requires var log := Run(c, clocks, es).log;
             && m < |log| && n < |log| && log[m].identity == log[n].identity && log[m].grant == log[n].grant
    ensures m == n
  {
    hide Run;
    Reachable(c, clocks, es);
    assert SamePair(Run(c, clocks, es), m, n);
  }

  /** The attempt's commit was answered `Applied`. */
  ghost predicate Admitted(s: System, owner: Owner, identity: Jti, grant: Jti, fencing: nat) {
    && owner in s.attempts && s.attempts[owner].phase == Done(Applied)
    && s.attempts[owner].mutation.Some? && s.attempts[owner].mutation.value.CallCommit?
    && var v := s.attempts[owner].mutation.value.reservation;
       v.identity == identity && v.grant == grant && v.fencing == fencing
  }

  /** At most one fencing value of a pair is ever told `Applied`, and it is the consumed one. */
  lemma OneFencingApplied(c: Config, clocks: seq<int>, es: seq<Event>, a: Owner, b: Owner, identity: Jti, grant: Jti, f: nat, g: nat)
    requires ValidTtl(c.ttl) && AllTimely(c, clocks, es)
    requires Admitted(Run(c, clocks, es), a, identity, grant, f) && Admitted(Run(c, clocks, es), b, identity, grant, g)
    ensures f == g && Recorded(Run(c, clocks, es), identity, grant, f)
  {
    hide Run;
    var s := Run(c, clocks, es);
    Reachable(c, clocks, es);
    assert AppliedRecorded(s, a) && AppliedRecorded(s, b);
    var m :| 0 <= m < |s.log| && s.log[m].identity == identity && s.log[m].grant == grant && s.log[m].fencing == f;
    var n :| 0 <= n < |s.log| && s.log[n].identity == identity && s.log[n].grant == grant && s.log[n].fencing == g;
    assert SamePair(s, m, n);
  }

  /** What a clock that steps back can do, exactly.  A consumed record is taken over by another
      grant after its window, and given back at the reading `released`.  A gateway whose clock is
      still inside the first window is granted the first grant again if and only if that reading
      is not past its own; then it can consume it a second time.  On clocks that do not step back
      it never is. */
  lemma ClockStepsBack(ttl: int, r: Record, q2: ReserveRequest, released: int, q3: ReserveRequest, commit: int)
    requires r.state.Consumed? && r.fencing + 1 < FENCING_MAX && q2.grant != r.grant && q3.grant == r.grant
    requires Normalized(q3.now) <= r.consumeUntil < Normalized(q2.now)
    ensures var (r2, v2) := Atomic(ttl, Some(r), CallReserve(q2));
            && v2.Granted?
            && var (r3, given) := Atomic(ttl, r2, CallRelease(v2.reservation, released));
               var (r4, v3) := Atomic(ttl, r3, CallReserve(q3));
               && given == Applied && (v3.Granted? <==> Normalized(released) <= Normalized(q3.now))
               && (released >= q2.now ==> !v3.Granted?)
               && (v3.Granted? && Normalized(commit) < Normalized(q3.now) + ttl * TICKS
                   && Normalized(commit) <= Normalized(q3.consumeUntil) ==>
                     var (r5, again) := Atomic(ttl, r4, CallCommit(v3.reservation, commit));
                     again == Applied && r5.Some? && r5.value.state.Consumed? && r5.value.grant == r.grant
                     && v3.reservation.fencing == r.fencing + 2)
  {
    NormalizedFacts(q2.now, released);
  }
}
