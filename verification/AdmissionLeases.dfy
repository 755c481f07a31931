/** How long etcd keeps a record.  A lease runs on etcd's clock, for a number of seconds computed
    from the reading of the gateway that asked for it; whether the record outlives what it keeps
    out depends on how the gateways' clocks stand to that reading. */
module AdmissionLeases {
  import opened Clock
  import opened Credentials
  import opened AdmissionRecords
  import opened AdmissionCluster
  import opened AdmissionSafety

  /** The lease was asked for to keep this pair out: it runs out one second after the window does
      on a clock that is as far ahead of etcd's as the reading was. */
  ghost predicate LeaseFor(c: Config, s: System, id: nat, identity: Jti, grant: Jti) {
    id in s.leases && s.leases[id].deadline + s.leases[id].lead == Until(c, identity, grant) + TICKS
  }

  ghost predicate PhaseLeased(c: Config, s: System, a: Attempt) {
    match a.phase
    case Loading(_, lease) => lease.Some? ==> a.mutation.None? && LeaseFor(c, s, lease.value, a.request.identity, a.request.grant)
    case Leasing(_, _, replacement, _) =>
      a.mutation.None? && replacement.grant == a.request.grant && RetentionTtl(a.request.now, a.request.consumeUntil).Some?
    case Putting(_, _, replacement, _, lease) => LeaseFor(c, s, lease, IdentityOf(CurrentCall(a)), replacement.grant)
    case _ => true
  }

  ghost predicate AttemptLeased(c: Config, s: System, owner: Owner) {
    owner in s.attempts ==> PhaseLeased(c, s, s.attempts[owner])
  }

  ghost predicate EntryLeased(c: Config, s: System, key: Jti) {
    key in s.kv ==> LeaseFor(c, s, s.kv[key].lease, key, s.kv[key].record.grant)
  }

  ghost predicate AllLeased(c: Config, s: System) {
    && (forall owner :: AttemptLeased(c, s, owner)) && (forall key :: EntryLeased(c, s, key))
    && (forall p :: p in s.floating ==> LeaseFor(c, s, p.lease, IdentityOf(p.call), p.replacement.grant))
  }

  ghost predicate KeepsLeases(s: System, s': System) {
    forall id :: id in s.leases ==> id in s'.leases && s'.leases[id] == s.leases[id]
  }

  lemma LeasedFrame(c: Config, s: System, s': System, o: Owner)
    requires AllLeased(c, s) && KeepsLeases(s, s') && AttemptLeased(c, s', o)
    requires forall owner :: owner in s'.attempts && owner != o ==> owner in s.attempts && s'.attempts[owner] == s.attempts[owner]
    requires forall key :: key in s'.kv ==> (key in s.kv && s'.kv[key] == s.kv[key]) || EntryLeased(c, s', key)
    requires forall p :: p in s'.floating ==> p in s.floating || LeaseFor(c, s', p.lease, IdentityOf(p.call), p.replacement.grant)
    ensures AllLeased(c, s')
  {
    forall owner
      ensures AttemptLeased(c, s', owner)
    {
      assert AttemptLeased(c, s, owner);
    }
    forall key
      ensures EntryLeased(c, s', key)
    {
      assert EntryLeased(c, s, key);
    }
  }

  /** The lease granted for a reserve is one for its pair. */
  lemma GrantedFor(c: Config, s: System, a: Attempt, id: nat)
    requires a.mutation.None? && id != 0 && RetentionTtl(a.request.now, a.request.consumeUntil).Some?
    requires a.request.consumeUntil == Window(c, a.request.identity, a.request.grant)
    ensures LeaseFor(c, Leased(s, CurrentCall(a), id), id, a.request.identity, a.request.grant)
  {
    var q := a.request;
    var d := Seconds(q.consumeUntil) - Seconds(q.now);
    assert Normalized(q.consumeUntil) - Normalized(q.now) == d * TICKS;
    SecondsOfWhole(d);
  }

  /** What a decision to write keeps of the pair. */
  lemma WritesItsPair(c: Config, s: System, call: Call, loaded: Loaded, replacement: Record, answer: Answer)
    requires WriteOk(c, s, call, loaded, replacement, answer)
    ensures call.CallReserve? ==> replacement.grant == call.request.grant
    ensures !call.CallReserve? ==> loaded.Found? && replacement.grant == loaded.record.grant
  {
  }

  lemma LeaseStays(c: Config, s: System, s': System, id: nat, identity: Jti, grant: Jti)
    requires LeaseFor(c, s, id, identity, grant) && KeepsLeases(s, s')
    ensures LeaseFor(c, s', id, identity, grant)
  {
  }

  lemma LeasedReply(c: Config, s: System, e: Event)
    requires Ops(c, s) && AllLeased(c, s) && e.Reply? && Enabled(c, s, e)
    ensures AllLeased(c, Step(c, s, e))
  {
    var a := s.attempts[e.owner];
    var s' := Step(c, s, e);
    var key := IdentityOf(CurrentCall(a));
    assert AttemptOk(c, s, e.owner) && AttemptLeased(c, s, e.owner) && EntryLeased(c, s, key);
    hide Ops, AllLeased, Normalized, Window;
    match a.phase
    case Loading(_, _) =>
      LeasedFrame(c, s, s', e.owner);
    case Leasing(_, _, _, _) => LeasingReply(c, s, e);
    case Putting(_, loaded, replacement, answer, lease) =>
      WritesItsPair(c, s, CurrentCall(a), loaded, replacement, answer);
      LeasedFrame(c, s, s', e.owner);
  }

  lemma LeasingReply(c: Config, s: System, e: Event)
    requires Ops(c, s) && AllLeased(c, s) && e.Reply? && Enabled(c, s, e) && s.attempts[e.owner].phase.Leasing?
    ensures AllLeased(c, Step(c, s, e))
  {
    var a := s.attempts[e.owner];
    assert AttemptOk(c, s, e.owner) && AttemptLeased(c, s, e.owner);
    var s' := Step(c, s, e);
    hide Ops, AllLeased, LeaseFor, Until, Decide;
    if e.id != 0 {
      GrantedFor(c, s, a, e.id);
      LeaseStays(c, Leased(s, CurrentCall(a), e.id), s', e.id, a.request.identity, a.request.grant);
    }
    LeasedFrame(c, s, s', e.owner);
  }

  lemma LeasedStep(c: Config, s: System, e: Event)
    requires Ops(c, s) && AllLeased(c, s)
    ensures AllLeased(c, Step(c, s, e))
  {
    if Enabled(c, s, e) {
      var s' := Step(c, s, e);
      match e
      case Reply(_, _) => LeasedReply(c, s, e);
      case Silence(owner) =>
        assert AttemptLeased(c, s, owner);
        hide Ops, AllLeased, LeaseFor, Decide;
        LeasedFrame(c, s, s', owner);
      case Begin(_, owner, _, _) =>
        hide Ops, AllLeased, LeaseFor, Accepts, ValidCall;
        LeasedFrame(c, s, s', owner);
      case Mutate(owner, _) =>
        hide Ops, AllLeased, LeaseFor, ValidCall;
        LeasedFrame(c, s, s', owner);
      case _ => LeasedQuiet(c, s, e);
    }
  }

  lemma LeasedQuiet(c: Config, s: System, e: Event)
    requires AllLeased(c, s) && Enabled(c, s, e) && (e.Tick? || e.Pass? || e.Land? || e.Expire?)
    ensures AllLeased(c, Step(c, s, e))
  {
    var o: Owner := [];
    assert AttemptLeased(c, s, o);
    LeasedFrame(c, s, Step(c, s, e), o);
  }

  // ---------------------------------------------------------------------------------------
  // Skew

  /** No gateway's clock is behind the reading the lease was asked for with, both measured
      against etcd's clock. */
  predicate NoneBehind(s: System, lease: Lease) {
    forall g :: 0 <= g < |s.clocks| ==> s.clocks[g] - s.time >= lease.lead
  }

  lemma PastUntil(clock: int, until: int)
    requires Normalized(until) == until
    ensures clock >= until + TICKS ==> Normalized(clock) > until
    ensures until >= 0 ==> (Normalized(clock) > until <==> clock >= until + TICKS)
  {
    if clock >= until + TICKS {
      SecondsMonotone(until + TICKS, clock);
      SecondsOfWhole(Seconds(until) + 1);
    }
  }

  /** A lease that runs out while no gateway is behind it has outlived its record; and at the
      moment it runs out that is the exact condition. */
  lemma OutlivesExactly(c: Config, s: System, identity: Jti)
    requires Enabled(c, s, Expire(identity)) && EntryLeased(c, s, identity) && EntryOk(c, s, identity)
    ensures var entry := s.kv[identity];
            var lease := s.leases[entry.lease];
            && (NoneBehind(s, lease) ==> Past(s.clocks, entry.record.consumeUntil))
            && (s.time == lease.deadline && entry.record.consumeUntil >= 0 ==>
                  (NoneBehind(s, lease) <==> Past(s.clocks, entry.record.consumeUntil)))
  {
    var entry := s.kv[identity];
    var until := entry.record.consumeUntil;
    NormalizedFacts(Window(c, identity, entry.record.grant), Window(c, identity, entry.record.grant));
    forall g | 0 <= g < |s.clocks|
      ensures s.clocks[g] >= until + TICKS ==> Normalized(s.clocks[g]) > until
      ensures until >= 0 && Normalized(s.clocks[g]) > until ==> s.clocks[g] >= until + TICKS
    {
      PastUntil(s.clocks[g], until);
    }
  }

  /** Every key of the run goes while no gateway is behind the reading behind its lease. */
  ghost predicate InStep(c: Config, clocks: seq<int>, es: seq<Event>) {
    forall i :: 0 <= i < |es| ==> StepInStep(c, Run(c, clocks, es[..i]), es[i])
  }

  ghost predicate StepInStep(c: Config, s: System, e: Event) {
    e.Expire? && Enabled(c, s, e) ==> NoneBehind(s, s.leases[s.kv[e.identity].lease])
  }

  lemma InStepPrefix(c: Config, clocks: seq<int>, es: seq<Event>)
    requires InStep(c, clocks, es) && es != []
    ensures InStep(c, clocks, es[..|es| - 1]) && StepInStep(c, Run(c, clocks, es[..|es| - 1]), es[|es| - 1])
  {
    var before := es[..|es| - 1];
    assert forall i :: 0 <= i < |before| ==> before[..i] == es[..i] && before[i] == es[i];
  }

  lemma {:induction false} InStepIsTimely(c: Config, clocks: seq<int>, es: seq<Event>)
    requires ValidTtl(c.ttl) && InStep(c, clocks, es)
    ensures AllTimely(c, clocks, es) && AllLeased(c, Run(c, clocks, es))
  {
    hide Inv, Step, StepInStep, Timely, AllLeased;
    if es == [] {
      StartLeased(c, clocks);
    } else {
      var before := es[..|es| - 1];
      InStepPrefix(c, clocks, es);
      InStepIsTimely(c, clocks, before);
      Reachable(c, clocks, before);
      var s := Run(c, clocks, before);
      InvOps(c, s);
      LeasedStep(c, s, es[|es| - 1]);
      InStepTimely(c, s, es[|es| - 1]);
      assert forall i :: 0 <= i < |es| ==> es[..i] == if i < |before| then before[..i] else before;
    }
  }

  lemma StartLeased(c: Config, clocks: seq<int>)
    ensures AllLeased(c, Initial(clocks))
  {
  }

  lemma InvOps(c: Config, s: System)
    requires Inv(c, s)
    ensures Ops(c, s)
  {
  }

  lemma InStepTimely(c: Config, s: System, e: Event)
    requires Ops(c, s) && AllLeased(c, s) && StepInStep(c, s, e)
    ensures Timely(c, s, e)
  {
    if e.Expire? && Enabled(c, s, e) {
      assert EntryLeased(c, s, e.identity) && EntryOk(c, s, e.identity);
      OutlivesExactly(c, s, e.identity);
    }
  }

  /** With no gateway behind, a pair is consumed at most once, whatever leases run out. */
  lemma ConsumedOnceInStep(c: Config, clocks: seq<int>, es: seq<Event>, m: nat, n: nat)
    requires ValidTtl(c.ttl) && InStep(c, clocks, es)
    requires var log := Run(c, clocks, es).log;
             && m < |log| && n < |log| && log[m].identity == log[n].identity && log[m].grant == log[n].grant
    ensures m == n
  {
    hide Run;
    InStepIsTimely(c, clocks, es);
    ConsumedAtMostOnce(c, clocks, es, m, n);
  }
}
