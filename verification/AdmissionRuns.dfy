/** Runs of the cluster in full: what a reserve, a commit and a release of one gateway do when
    nothing interferes, and from these the runs that the conditions of the theorems exclude. */
module AdmissionRuns {
  import opened Basics
  import opened Clock
  import opened Credentials
  import opened AdmissionRecords
  import opened AdmissionCluster
  import opened AdmissionSafety
  import opened AdmissionLeases

  function Continue(c: Config, s: System, es: seq<Event>): System
    decreases |es|
  {
    if es == [] then s else Continue(c, Step(c, s, es[0]), es[1..])
  }

  lemma {:induction false} RunOn(c: Config, clocks: seq<int>, es: seq<Event>, more: seq<Event>)
    ensures Run(c, clocks, es + more) == Continue(c, Run(c, clocks, es), more)
    decreases |more|
  {
    hide Step;
    if more == [] {
      assert es + more == es;
    } else {
      assert es + more == es + [more[0]] + more[1..];
      assert (es + [more[0]])[..|es|] == es;
      RunOn(c, clocks, es + [more[0]], more[1..]);
    }
  }

  lemma {:induction false} ContinueOn(c: Config, s: System, es: seq<Event>, more: seq<Event>)
    ensures Continue(c, s, es + more) == Continue(c, Continue(c, s, es), more)
    decreases |es|
  {
    hide Step;
    if es == [] {
      assert es + more == more;
    } else {
      assert (es + more)[0] == es[0] && (es + more)[1..] == es[1..] + more;
      ContinueOn(c, Step(c, s, es[0]), es[1..], more);
    }
  }

  lemma ContinueNext(c: Config, s: System, e: Event, es: seq<Event>)
    ensures Continue(c, s, [e] + es) == Continue(c, Step(c, s, e), es)
  {
    hide Step;
    assert ([e] + es)[1..] == es;
  }

  lemma Three(c: Config, s: System, e1: Event, e2: Event, e3: Event)
    ensures Continue(c, s, [e1, e2]) == Step(c, Step(c, s, e1), e2)
    ensures Continue(c, s, [e1, e2, e3]) == Step(c, Step(c, Step(c, s, e1), e2), e3)
  {
    hide Step, Continue;
    var s1 := Step(c, s, e1);
    var s2 := Step(c, s1, e2);
    ContinueNext(c, s, e1, [e2]);
    ContinueNext(c, s1, e2, []);
    ContinueNext(c, s, e1, [e2, e3]);
    ContinueNext(c, s1, e2, [e3]);
    ContinueNext(c, s2, e3, []);
    assert [e1] + [e2] == [e1, e2] && [e2] + [] == [e2] && [e1] + [e2, e3] == [e1, e2, e3] && [e2] + [e3] == [e2, e3] && [e3] + [] == [e3];
    Nothing(c, s2);
    Nothing(c, Step(c, s2, e3));
  }

  lemma Nothing(c: Config, s: System)
    ensures Continue(c, s, []) == s
  {
  }

  // ---------------------------------------------------------------------------------------
  // One call, undisturbed

  function ReserveEvents(g: nat, owner: Owner, lease: nat, identity: Jti, grant: Jti): seq<Event> {
    [Begin(g, owner, identity, grant)] + [Reply(owner, 0), Reply(owner, lease), Reply(owner, 0)]
  }

  function LoadedAt(s: System, key: Jti): Loaded {
    if key in s.kv then Found(s.kv[key].record, s.kv[key].modRevision, s.kv[key].lease) else Absent
  }

  /** The gateway may ask, and would be granted the identity's record. */
  predicate Grants(c: Config, s: System, g: nat, owner: Owner, lease: nat, identity: Jti, grant: Jti) {
    && Enabled(c, s, Begin(g, owner, identity, grant)) && lease != 0 && lease !in s.leases
    && var q := RequestOf(c, identity, grant, owner, s.clocks[g]);
       RetentionTtl(q.now, q.consumeUntil).Some? && Decide(c.ttl, RecordAt(s, identity), CallReserve(q)).Write?
  }

  /** The state after an undisturbed reserve. */
  function Reserved(c: Config, s: System, g: nat, owner: Owner, lease: nat, identity: Jti, grant: Jti): System
    requires Grants(c, s, g, owner, lease, identity, grant)
  {
    var q := RequestOf(c, identity, grant, owner, s.clocks[g]);
    var w := Decide(c.ttl, RecordAt(s, identity), CallReserve(q));
    Leased(s, CallReserve(q), lease).(kv := s.kv[identity := Entry(w.replacement, s.revision + 1, lease)], revision := s.revision + 1,
                                      attempts := s.attempts[owner := Attempt(g, q, None, Done(w.answer))])
  }

  /** The load of a reserve that will write. */
  lemma LoadStep(c: Config, s: System, owner: Owner, w: Decision)
    requires owner in s.attempts && s.attempts[owner].phase == START && s.attempts[owner].mutation.None?
    requires var q := s.attempts[owner].request;
             w == Decide(c.ttl, RecordAt(s, q.identity), CallReserve(q)) && w.Write? && RetentionTtl(q.now, q.consumeUntil).Some?
    ensures Step(c, s, Reply(owner, 0))
            == WithPhase(s, owner, Leasing(0, LoadedAt(s, s.attempts[owner].request.identity), w.replacement, w.answer))
  {
    hide Decide, RetentionTtl;
  }

  lemma LeaseStep(c: Config, s: System, owner: Owner, lease: nat)
    requires owner in s.attempts && s.attempts[owner].phase.Leasing? && lease != 0 && lease !in s.leases
    ensures var a := s.attempts[owner];
            Step(c, s, Reply(owner, lease))
            == WithPhase(Leased(s, CurrentCall(a), lease), owner,
                         Putting(a.phase.attempt, a.phase.loaded, a.phase.replacement, a.phase.answer, lease))
  {
    hide Leased;
  }

  /** The rounds of a reserve that has begun. */
  lemma ReserveRounds(c: Config, s: System, owner: Owner, lease: nat, w: Decision)
    requires owner in s.attempts && s.attempts[owner].phase == START && s.attempts[owner].mutation.None?
    requires lease != 0 && lease !in s.leases
    requires var q := s.attempts[owner].request;
             w == Decide(c.ttl, RecordAt(s, q.identity), CallReserve(q)) && w.Write? && RetentionTtl(q.now, q.consumeUntil).Some?
    ensures var a := s.attempts[owner];
            Continue(c, s, [Reply(owner, 0), Reply(owner, lease), Reply(owner, 0)])
            == Leased(s, CallReserve(a.request), lease).(
                  kv := s.kv[a.request.identity := Entry(w.replacement, s.revision + 1, lease)], revision := s.revision + 1,
                  attempts := s.attempts[owner := a.(phase := Done(w.answer))])
  {
    hide Step, Decide, RetentionTtl, Continue;
    var a := s.attempts[owner];
    LoadStep(c, s, owner, w);
    var s2 := Step(c, s, Reply(owner, 0));
    LeaseStep(c, s2, owner, lease);
    var s3 := Step(c, s2, Reply(owner, lease));
    Three(c, s, Reply(owner, 0), Reply(owner, lease), Reply(owner, 0));
    PutStep(c, s3, owner, Leased(s, CallReserve(a.request), lease).(
                  kv := s.kv[a.request.identity := Entry(w.replacement, s.revision + 1, lease)], revision := s.revision + 1,
                  attempts := s.attempts[owner := a.(phase := Done(w.answer))]));
  }

  lemma ReserveSteps(c: Config, s: System, g: nat, owner: Owner, lease: nat, identity: Jti, grant: Jti)
    requires Grants(c, s, g, owner, lease, identity, grant)
    ensures Continue(c, s, ReserveEvents(g, owner, lease, identity, grant)) == Reserved(c, s, g, owner, lease, identity, grant)
  {
    hide Accepts, ValidCall, Decide, RetentionTtl, Continue;
    var q := RequestOf(c, identity, grant, owner, s.clocks[g]);
    var w := Decide(c.ttl, RecordAt(s, identity), CallReserve(q));
    var s1 := Step(c, s, Begin(g, owner, identity, grant));
    assert s1 == s.(attempts := s.attempts[owner := Attempt(g, q, None, START)]);
    ReserveRounds(c, s1, owner, lease, w);
    ContinueNext(c, s, Begin(g, owner, identity, grant), [Reply(owner, 0), Reply(owner, lease), Reply(owner, 0)]);
  }

  /** A put whose record has not been touched lands and is answered. */
  lemma PutStep(c: Config, s: System, owner: Owner, after: System)
    requires owner in s.attempts && s.attempts[owner].phase.Putting?
    requires var a := s.attempts[owner];
             var key := IdentityOf(CurrentCall(a));
             && Compare(s.kv, key, a.phase.loaded)
             && after == s.(kv := s.kv[key := Entry(a.phase.replacement, s.revision + 1, a.phase.lease)], revision := s.revision + 1,
                            attempts := s.attempts[owner := a.(phase := Done(a.phase.answer))],
                            log := if CurrentCall(a).CallCommit?
                                   then s.log + [Consumption(key, a.phase.replacement.grant, a.phase.replacement.fencing, a.phase.replacement.owner)]
                                   else s.log)
    ensures Step(c, s, Reply(owner, 0)) == after
  {
  }

  function MutateEvents(owner: Owner, commit: bool): seq<Event> { [Mutate(owner, commit), Reply(owner, 0), Reply(owner, 0)] }

  /** The holder may commit or release, and the record lets it. */
  predicate Writes(c: Config, s: System, owner: Owner, commit: bool) {
    && Enabled(c, s, Mutate(owner, commit)) && IdentityOf(MutationOf(s, owner, commit)) in s.kv
    && Decide(c.ttl, RecordAt(s, IdentityOf(MutationOf(s, owner, commit))), MutationOf(s, owner, commit)).Write?
  }

  function Mutated(c: Config, s: System, owner: Owner, commit: bool): System
    requires Writes(c, s, owner, commit)
  {
    var call := MutationOf(s, owner, commit);
    var key := IdentityOf(call);
    var w := Decide(c.ttl, RecordAt(s, key), call);
    s.(kv := s.kv[key := Entry(w.replacement, s.revision + 1, s.kv[key].lease)], revision := s.revision + 1,
       attempts := s.attempts[owner := s.attempts[owner].(mutation := Some(call), phase := Done(w.answer))],
       log := if commit then s.log + [Consumption(key, w.replacement.grant, w.replacement.fencing, w.replacement.owner)] else s.log)
  }

  lemma MutateSteps(c: Config, s: System, owner: Owner, commit: bool)
    requires Writes(c, s, owner, commit)
    ensures Continue(c, s, MutateEvents(owner, commit)) == Mutated(c, s, owner, commit)
  {
    hide ValidCall, Decide, RetentionTtl;
    var call := MutationOf(s, owner, commit);
    var key := IdentityOf(call);
    var w := Decide(c.ttl, RecordAt(s, key), call);
    var a := s.attempts[owner];
    var s1 := Step(c, s, Mutate(owner, commit));
    assert s1 == s.(attempts := s.attempts[owner := a.(mutation := Some(call), phase := START)]);
    var s2 := Step(c, s1, Reply(owner, 0));
    assert s2 == s.(attempts := s.attempts[owner := a.(mutation := Some(call),
                                                       phase := Putting(0, LoadedAt(s, key), w.replacement, w.answer, s.kv[key].lease))]);
    Three(c, s, Mutate(owner, commit), Reply(owner, 0), Reply(owner, 0));
    PutStep(c, s2, owner, Mutated(c, s, owner, commit));
  }

  /** A commit that finds the pair consumed under its fencing value is told it was applied. */
  lemma ToldApplied(c: Config, s: System, owner: Owner)
    requires Enabled(c, s, Mutate(owner, true))
    requires var v := s.attempts[owner].phase.answer.reservation;
             v.identity in s.kv && s.kv[v.identity].record.state.Consumed?
             && s.kv[v.identity].record.grant == v.grant && s.kv[v.identity].record.fencing == v.fencing
    ensures var v := s.attempts[owner].phase.answer.reservation;
            var s' := Continue(c, s, [Mutate(owner, true), Reply(owner, 0)]);
            && Admitted(s', owner, v.identity, v.grant, v.fencing)
            && forall o :: o in s.attempts && o != owner ==> o in s'.attempts && s'.attempts[o] == s.attempts[o]
  {
    hide ValidCall;
    var s1 := Step(c, s, Mutate(owner, true));
    Three(c, s, Mutate(owner, true), Reply(owner, 0), Reply(owner, 0));
  }

  // ---------------------------------------------------------------------------------------
  // A pair consumed, undisturbed

  function ConsumeEvents(g: nat, owner: Owner, lease: nat, identity: Jti, grant: Jti): seq<Event> {
    ReserveEvents(g, owner, lease, identity, grant) + MutateEvents(owner, true)
  }

  function FencingAt(s: System, key: Jti): nat { if key in s.kv then s.kv[key].record.fencing else 0 }

  /** What else an undisturbed call leaves alone. */
  ghost predicate OnlyOwner(s: System, s': System, owner: Owner, lease: nat) {
    && s'.clocks == s.clocks && s'.time == s.time && s'.leases.Keys == s.leases.Keys + {lease}
    && owner in s'.attempts && s'.attempts.Keys == s.attempts.Keys + {owner}
    && forall o :: o in s.attempts && o != owner ==> s'.attempts[o] == s.attempts[o]
  }

  lemma InTime(c: Config, s: System, g: nat, owner: Owner, identity: Jti, grant: Jti)
    requires ValidTtl(c.ttl) && Enabled(c, s, Begin(g, owner, identity, grant))
    ensures var q := RequestOf(c, identity, grant, owner, s.clocks[g]);
            && Normalized(q.now) <= Normalized(q.consumeUntil)
            && forall f: nat :: f > 0 ==> ValidReservation(ReservationFrom(q, NewRecord(c.ttl, q, f)))
  {
    var q := RequestOf(c, identity, grant, owner, s.clocks[g]);
    NormalizedFacts(q.now, q.consumeUntil);
    NormalizedFacts(q.consumeUntil, q.consumeUntil);
    SecondsOfWhole(Seconds(q.now) + c.ttl);
    assert Normalized(q.now) + c.ttl * TICKS == (Seconds(q.now) + c.ttl) * TICKS;
  }

  /** What an undisturbed reserve hands out. */
  lemma ReserveGrants(c: Config, s: System, g: nat, owner: Owner, lease: nat, identity: Jti, grant: Jti)
    requires ValidTtl(c.ttl) && Grants(c, s, g, owner, lease, identity, grant)
    ensures var s' := Continue(c, s, ReserveEvents(g, owner, lease, identity, grant));
            var q := RequestOf(c, identity, grant, owner, s.clocks[g]);
            var r := NewRecord(c.ttl, q, FencingAt(s, identity) + 1);
            && OnlyOwner(s, s', owner, lease) && s'.log == s.log
            && s'.attempts[owner] == Attempt(g, q, None, Done(Granted(ReservationFrom(q, r))))
            && identity in s'.kv && s'.kv[identity].record == r && s'.kv[identity].lease == lease
            && s'.leases == Leased(s, CallReserve(q), lease).leases
            && Enabled(c, s', Mutate(owner, true)) && Enabled(c, s', Mutate(owner, false))
  {
    hide Continue, RetentionTtl, Accepts, Enabled;
    ReserveSteps(c, s, g, owner, lease, identity, grant);
    MayMutate(c, s, Continue(c, s, ReserveEvents(g, owner, lease, identity, grant)), g, owner, identity, grant, FencingAt(s, identity) + 1);
  }

  lemma MayMutate(c: Config, s: System, s': System, g: nat, owner: Owner, identity: Jti, grant: Jti, f: nat)
    requires ValidTtl(c.ttl) && Enabled(c, s, Begin(g, owner, identity, grant)) && s'.clocks == s.clocks && f > 0
    requires var q := RequestOf(c, identity, grant, owner, s.clocks[g]);
             owner in s'.attempts
             && s'.attempts[owner] == Attempt(g, q, None, Done(Granted(ReservationFrom(q, NewRecord(c.ttl, q, f)))))
    ensures Enabled(c, s', Mutate(owner, true)) && Enabled(c, s', Mutate(owner, false))
  {
    InTime(c, s, g, owner, identity, grant);
  }

  lemma ConsumeSteps(c: Config, s: System, g: nat, owner: Owner, lease: nat, identity: Jti, grant: Jti)
    requires ValidTtl(c.ttl) && Grants(c, s, g, owner, lease, identity, grant)
    ensures var s' := Continue(c, s, ConsumeEvents(g, owner, lease, identity, grant));
            var f := FencingAt(s, identity) + 1;
            && OnlyOwner(s, s', owner, lease) && s'.log == s.log + [Consumption(identity, grant, f, owner)]
            && Admitted(s', owner, identity, grant, f)
            && identity in s'.kv && s'.kv[identity].lease == lease
            && s'.kv[identity].record.state.Consumed? && s'.kv[identity].record.grant == grant && s'.kv[identity].record.fencing == f
            && s'.leases == Leased(s, CallReserve(RequestOf(c, identity, grant, owner, s.clocks[g])), lease).leases
  {
    hide Continue, Accepts, ValidCall, RetentionTtl;
    ReserveGrants(c, s, g, owner, lease, identity, grant);
    InTime(c, s, g, owner, identity, grant);
    var s1 := Continue(c, s, ReserveEvents(g, owner, lease, identity, grant));
    ContinueOn(c, s, ReserveEvents(g, owner, lease, identity, grant), MutateEvents(owner, true));
    NormalizedFacts(Window(c, identity, grant), Window(c, identity, grant));
    MutateSteps(c, s1, owner, true);
  }

  /** The converse of at-most-once: once its key has gone, a consumed pair that a gateway still
      accepts can be consumed again. */
  lemma AgainIfAccepted(c: Config, s: System, n: nat, g: nat, owner: Owner, lease: nat)
    requires ValidTtl(c.ttl) && n < |s.log| && s.log[n].identity !in s.kv
    requires lease != 0 && lease !in s.leases && Enabled(c, s, Begin(g, owner, s.log[n].identity, s.log[n].grant))
    requires RetentionTtl(s.clocks[g], Window(c, s.log[n].identity, s.log[n].grant)).Some?
    ensures var s' := Continue(c, s, ConsumeEvents(g, owner, lease, s.log[n].identity, s.log[n].grant));
            |s'.log| == |s.log| + 1 && SamePair(s', n, |s.log|)
  {
    ConsumeSteps(c, s, g, owner, lease, s.log[n].identity, s.log[n].grant);
  }

  // ---------------------------------------------------------------------------------------
  // A gateway that is behind

  /** Etcd and two gateways let `d` go by. */
  function Wait(x: int, y: int, d: int): seq<Event> { [Pass(d), Tick(0, x + d), Tick(1, y + d)] }

  lemma WaitSteps(c: Config, s: System, x: int, y: int, d: int)
    requires |s.clocks| == 2 && s.clocks[0] <= x + d && s.clocks[1] <= y + d && s.time <= d
    ensures Continue(c, s, Wait(x, y, d)) == s.(time := d, clocks := [x + d, y + d])
  {
    assert s.clocks[0 := x + d][1 := y + d] == [x + d, y + d];
    Three(c, s, Pass(d), Tick(0, x + d), Tick(1, y + d));
  }

  lemma GoneStep(c: Config, s: System, identity: Jti)
    requires Enabled(c, s, Expire(identity))
    ensures Continue(c, s, [Expire(identity)])
            == s.(kv := s.kv - {identity}, expired := s.expired + {identity}, gone := s.gone + [Expiry(identity, s.clocks)])
  {
    ContinueNext(c, s, Expire(identity), []);
    Nothing(c, Step(c, s, Expire(identity)));
    assert [Expire(identity)] + [] == [Expire(identity)];
  }

  lemma OutOfStep(c: Config, clocks: seq<int>, es: seq<Event>, identity: Jti, grant: Jti, a: Owner, b: Owner)
    requires ValidTtl(c.ttl) && Run(c, clocks, es).log == [Consumption(identity, grant, 1, a), Consumption(identity, grant, 1, b)]
    ensures !InStep(c, clocks, es)
  {
    hide Run, InStep;
    if InStep(c, clocks, es) {
      ConsumedOnceInStep(c, clocks, es, 0, 1);
    }
  }

  /** Two gateways, the second's clock behind: the first consumes a pair, the lease runs out
      after exactly the seconds asked for, and the second, which still accepts the pair,
      consumes it again. */
  lemma SkewedGateway(c: Config, x: int, y: int, a: Owner, b: Owner, identity: Jti, grant: Jti) returns (es: seq<Event>)
    requires ValidTtl(c.ttl) && a != b && RetentionTtl(x, Window(c, identity, grant)).Some?
    requires Enabled(c, Initial([x, y]), Begin(0, a, identity, grant))
    requires var d := RetentionTtl(x, Window(c, identity, grant)).value * TICKS;
             && Accepts(c, identity, grant, y + d) && ValidCall(CallReserve(RequestOf(c, identity, grant, b, y + d)))
             && RetentionTtl(y + d, Window(c, identity, grant)).Some?
    ensures Run(c, [x, y], es).log == [Consumption(identity, grant, 1, a), Consumption(identity, grant, 1, b)]
    ensures !InStep(c, [x, y], es)
  {
    hide Continue, Accepts, ValidCall, RetentionTtl, InStep, Run;
    var d := RetentionTtl(x, Window(c, identity, grant)).value * TICKS;
    var s0 := Initial([x, y]);
    ConsumeSteps(c, s0, 0, a, 1, identity, grant);
    var s1 := Continue(c, s0, ConsumeEvents(0, a, 1, identity, grant));
    assert s1.leases[1].deadline == d;
    LongEnough(x, Window(c, identity, grant));
    WaitSteps(c, s1, x, y, d);
    var s2 := Continue(c, s1, Wait(x, y, d));
    GoneStep(c, s2, identity);
    var s3 := Continue(c, s2, [Expire(identity)]);
    ConsumeSteps(c, s3, 1, b, 2, identity, grant);
    es := ConsumeEvents(0, a, 1, identity, grant) + Wait(x, y, d) + [Expire(identity)] + ConsumeEvents(1, b, 2, identity, grant);
    ContinueOn(c, s0, ConsumeEvents(0, a, 1, identity, grant), Wait(x, y, d));
    ContinueOn(c, s0, ConsumeEvents(0, a, 1, identity, grant) + Wait(x, y, d), [Expire(identity)]);
    ContinueOn(c, s0, ConsumeEvents(0, a, 1, identity, grant) + Wait(x, y, d) + [Expire(identity)], ConsumeEvents(1, b, 2, identity, grant));
    RunOn(c, [x, y], [], es);
    Started(c, [x, y]);
    assert [] + es == es;
    OutOfStep(c, [x, y], es, identity, grant, a, b);
  }

  lemma LongEnough(now: int, until: int)
    requires RetentionTtl(now, until).Some?
    ensures RetentionTtl(now, until).value > 0
  {
  }

  // ---------------------------------------------------------------------------------------
  // Two winners

  /** The identity's record can be taken over at time `t`, and its fencing value is `f`. */
  ghost predicate Free(s: System, identity: Jti, t: int, f: nat) {
    && FencingAt(s, identity) == f
    && (identity in s.kv ==> s.kv[identity].record.state.Reserved? && s.kv[identity].record.leaseExpiresAt <= t)
  }

  function SpendEvents(g: nat, owner: Owner, lease: nat, identity: Jti, grant: Jti): seq<Event> {
    ReserveEvents(g, owner, lease, identity, grant) + MutateEvents(owner, false)
  }

  /** The gateway accepts the pair and may make a lease for it. */
  predicate Open(c: Config, s: System, g: nat, identity: Jti, grant: Jti) {
    g < |s.clocks| && Accepts(c, identity, grant, s.clocks[g]) && RetentionTtl(s.clocks[g], Window(c, identity, grant)).Some?
  }

  predicate Spare(c: Config, s: System, g: nat, owner: Owner, identity: Jti, grant: Jti)
    requires g < |s.clocks|
  {
    owner !in s.attempts && ValidCall(CallReserve(RequestOf(c, identity, grant, owner, s.clocks[g])))
  }

  lemma FreeGrants(c: Config, s: System, g: nat, owner: Owner, lease: nat, identity: Jti, grant: Jti, f: nat)
    requires Open(c, s, g, identity, grant) && Spare(c, s, g, owner, identity, grant) && lease != 0 && lease !in s.leases
    requires Free(s, identity, Normalized(s.clocks[g]), f) && f < FENCING_MAX
    ensures Grants(c, s, g, owner, lease, identity, grant)
  {
  }

  /** A reservation made and given back takes one fencing value. */
  lemma SpendSteps(c: Config, s: System, g: nat, owner: Owner, lease: nat, identity: Jti, grant: Jti, f: nat)
    requires ValidTtl(c.ttl) && Open(c, s, g, identity, grant) && Spare(c, s, g, owner, identity, grant) && lease != 0 && lease !in s.leases
    requires Free(s, identity, Normalized(s.clocks[g]), f) && f < FENCING_MAX
    ensures var s' := Continue(c, s, SpendEvents(g, owner, lease, identity, grant));
            OnlyOwner(s, s', owner, lease) && Free(s', identity, Normalized(s.clocks[g]), f + 1)
  {
    hide Continue, Accepts, ValidCall, RetentionTtl;
    FreeGrants(c, s, g, owner, lease, identity, grant, f);
    ReserveGrants(c, s, g, owner, lease, identity, grant);
    var s1 := Continue(c, s, ReserveEvents(g, owner, lease, identity, grant));
    ContinueOn(c, s, ReserveEvents(g, owner, lease, identity, grant), MutateEvents(owner, false));
    MutateSteps(c, s1, owner, false);
  }

  ghost predicate Distinct<T(!new)>(xs: seq<T>) { forall i, j :: 0 <= i < j < |xs| ==> xs[i] != xs[j] }

  /** With enough spare names the fencing value can be raised to any other. */
  lemma {:induction false} RaiseFencing(c: Config, s: System, g: nat, identity: Jti, grant: Jti, owners: seq<Owner>, leases: seq<nat>, f: nat)
    returns (es: seq<Event>)
    requires ValidTtl(c.ttl) && Open(c, s, g, identity, grant) && |owners| == |leases| && f + |owners| <= FENCING_MAX
    requires Distinct(owners) && forall i :: 0 <= i < |owners| ==> Spare(c, s, g, owners[i], identity, grant)
    requires Distinct(leases) && forall i :: 0 <= i < |leases| ==> leases[i] != 0 && leases[i] !in s.leases
    requires Free(s, identity, Normalized(s.clocks[g]), f)
    ensures var s' := Continue(c, s, es);
            && Free(s', identity, Normalized(s.clocks[g]), f + |owners|) && s'.clocks == s.clocks
            && (forall o :: o in s.attempts ==> o in s'.attempts && s'.attempts[o] == s.attempts[o])
            && (forall o :: o in s'.attempts ==> o in s.attempts || o in owners)
            && (forall id :: id in s'.leases ==> id in s.leases || id in leases)
    ensures forall e :: e in es ==> !e.Expire?
    decreases |owners|
  {
    hide Continue, Accepts, ValidCall, RetentionTtl, Free;
    if owners == [] {
      es := [];
      Nothing(c, s);
    } else {
      SpendSteps(c, s, g, owners[0], leases[0], identity, grant, f);
      var first := SpendEvents(g, owners[0], leases[0], identity, grant);
      var s1 := Continue(c, s, first);
      var rest := RaiseFencing(c, s1, g, identity, grant, owners[1..], leases[1..], f + 1);
      ContinueOn(c, s, first, rest);
      es := first + rest;
    }
  }

  lemma AdmittedStays(s: System, s': System, o: Owner, identity: Jti, grant: Jti, f: nat)
    requires Admitted(s, o, identity, grant, f) && o in s'.attempts && s'.attempts[o] == s.attempts[o]
    ensures Admitted(s', o, identity, grant, f)
  {
  }

  /** `d` takes the fencing value that `a` holds, and both commit. */
  lemma BothTold(c: Config, s: System, a: Owner, d: Owner, g: nat, lease: nat, identity: Jti, grant: Jti, f: nat)
    requires ValidTtl(c.ttl) && Open(c, s, g, identity, grant) && Spare(c, s, g, d, identity, grant) && lease != 0 && lease !in s.leases
    requires Free(s, identity, Normalized(s.clocks[g]), f) && f < FENCING_MAX && Enabled(c, s, Mutate(a, true))
    requires var v := s.attempts[a].phase.answer.reservation; v.identity == identity && v.grant == grant && v.fencing == f + 1
    ensures var s' := Continue(c, s, ConsumeEvents(g, d, lease, identity, grant) + [Mutate(a, true), Reply(a, 0)]);
            a != d && Admitted(s', a, identity, grant, f + 1) && Admitted(s', d, identity, grant, f + 1)
  {
    FreeGrants(c, s, g, d, lease, identity, grant, f);
    hide Continue, Accepts, ValidCall, RetentionTtl, Admitted, Grants;
    ConsumeSteps(c, s, g, d, lease, identity, grant);
    var consume := ConsumeEvents(g, d, lease, identity, grant);
    var s1 := Continue(c, s, consume);
    ToldApplied(c, s1, a);
    ContinueOn(c, s, consume, [Mutate(a, true), Reply(a, 0)]);
    AdmittedStays(s1, Continue(c, s, consume + [Mutate(a, true), Reply(a, 0)]), d, identity, grant, f + 1);
  }

  /** Others' calls leave a reservation usable and a name spare. */
  lemma StillReady(c: Config, s: System, s1: System, g: nat, a: Owner, d: Owner, identity: Jti, grant: Jti, owners: seq<Owner>)
    requires Open(c, s, g, identity, grant) && Spare(c, s, g, d, identity, grant) && d !in owners && Enabled(c, s, Mutate(a, true))
    requires s1.clocks == s.clocks && (forall o :: o in s.attempts ==> o in s1.attempts && s1.attempts[o] == s.attempts[o])
    requires forall o :: o in s1.attempts ==> o in s.attempts || o in owners
    ensures Open(c, s1, g, identity, grant) && Spare(c, s1, g, d, identity, grant) && Enabled(c, s1, Mutate(a, true))
  {
    hide Accepts, ValidCall, RetentionTtl;
  }

  /** Two winners.  Once the key has gone, somebody holds an unused reservation of the pair from
      before, and a gateway still accepts the pair: its fencing value can be given out again, and
      both holders are then told `Applied`. */
  lemma TwoWinnersPossible(c: Config, s: System, a: Owner, d: Owner, g: nat, identity: Jti, grant: Jti, owners: seq<Owner>, leases: seq<nat>)
    returns (es: seq<Event>)
    requires ValidTtl(c.ttl) && identity !in s.kv && Open(c, s, g, identity, grant) && Enabled(c, s, Mutate(a, true))
    requires var v := s.attempts[a].phase.answer.reservation;
             v.identity == identity && v.grant == grant && v.fencing == |owners| + 1 <= FENCING_MAX
    requires Distinct(owners + [d]) && forall i :: 0 <= i < |owners + [d]| ==> Spare(c, s, g, (owners + [d])[i], identity, grant)
    requires |leases| == |owners| + 1 && Distinct(leases) && forall i :: 0 <= i < |leases| ==> leases[i] != 0 && leases[i] !in s.leases
    ensures var s' := Continue(c, s, es);
            a != d && Admitted(s', a, identity, grant, |owners| + 1) && Admitted(s', d, identity, grant, |owners| + 1)
    ensures forall e :: e in es ==> !e.Expire?
  {
    var k := |owners|;
    assert Free(s, identity, Normalized(s.clocks[g]), 0);
    assert forall i :: 0 <= i < k ==> (owners + [d])[i] == owners[i];
    assert (owners + [d])[k] == d;
    hide Continue, Open, Spare, Free, Enabled, Admitted, ConsumeEvents;
    var raise := RaiseFencing(c, s, g, identity, grant, owners, leases[..k], 0);
    var s1 := Continue(c, s, raise);
    StillReady(c, s, s1, g, a, d, identity, grant, owners);
    BothTold(c, s1, a, d, g, leases[k], identity, grant, k);
    var tail := ConsumeEvents(g, d, leases[k], identity, grant) + [Mutate(a, true), Reply(a, 0)];
    es := raise + tail;
    ConsumeQuietly(g, d, leases[k], identity, grant, a);
    ContinueOn(c, s, raise, tail);
  }

  lemma ConsumeQuietly(g: nat, d: Owner, lease: nat, identity: Jti, grant: Jti, a: Owner)
    ensures forall e :: e in ConsumeEvents(g, d, lease, identity, grant) + [Mutate(a, true), Reply(a, 0)] ==> !e.Expire?
  {
  }

  lemma OneExpiry(c: Config, clocks: seq<int>, before: seq<Event>, identity: Jti, after: seq<Event>)
    requires StepInStep(c, Run(c, clocks, before), Expire(identity))
    requires (forall e :: e in before ==> !e.Expire?) && forall e :: e in after ==> !e.Expire?
    ensures InStep(c, clocks, before + [Expire(identity)] + after)
  {
    var es := before + [Expire(identity)] + after;
    forall i | 0 <= i < |es|
      ensures StepInStep(c, Run(c, clocks, es[..i]), es[i])
    {
      if i < |before| {
        assert es[i] in before;
      } else if i == |before| {
        assert es[..i] == before && es[i] == Expire(identity);
      } else {
        assert es[i] in after;
      }
    }
  }

  /** An unused reservation of the pair, made at gateway 0 with the first fencing value. */
  ghost predicate Unused(c: Config, s: System, a: Owner, identity: Jti, grant: Jti) {
    && Enabled(c, s, Mutate(a, true)) && s.attempts[a].gateway == 0
    && var v := s.attempts[a].phase.answer.reservation; v.identity == identity && v.grant == grant && v.fencing == 1
  }

  ghost predicate Waits(c: Config, s: System, y: int, a: Owner, identity: Jti, grant: Jti) {
    && s.clocks == [y, y] && s.time == c.ttl * TICKS && Free(s, identity, Normalized(y), 1)
    && s.attempts.Keys == {a} && s.leases.Keys == {1} && Unused(c, s, a, identity, grant)
  }

  ghost predicate Ending(c: Config, s: System, z: int, a: Owner, b: Owner, identity: Jti, grant: Jti) {
    && s.clocks == [z, z] && StepInStep(c, s, Expire(identity)) && Enabled(c, s, Expire(identity))
    && s.attempts.Keys == {a, b} && s.leases.Keys == {1, 2} && Unused(c, s, a, identity, grant)
  }

  /** `a` reserves, and lets its reservation lapse. */
  lemma HolderWaits(c: Config, x: int, a: Owner, identity: Jti, grant: Jti) returns (es: seq<Event>, s: System)
    requires ValidTtl(c.ttl) && x >= 0
    requires Open(c, Initial([x, x]), 0, identity, grant) && Spare(c, Initial([x, x]), 0, a, identity, grant)
    ensures s == Continue(c, Initial([x, x]), es) && forall e :: e in es ==> !e.Expire?
    ensures Waits(c, s, x + c.ttl * TICKS, a, identity, grant)
  {
    hide Continue, Accepts, ValidCall, RetentionTtl;
    var s0 := Initial([x, x]);
    FreeGrants(c, s0, 0, a, 1, identity, grant, 0);
    ReserveGrants(c, s0, 0, a, 1, identity, grant);
    var r := ReserveEvents(0, a, 1, identity, grant);
    var s1 := Continue(c, s0, r);
    WaitSteps(c, s1, x, x, c.ttl * TICKS);
    ContinueOn(c, s0, r, Wait(x, x, c.ttl * TICKS));
    es := r + Wait(x, x, c.ttl * TICKS);
    s := Continue(c, s0, es);
    LapseTime(x, c.ttl);
    StillMay(c, s1, s, a);
  }

  /** `b` takes the record over for a grant whose window ends first; its lease runs out. */
  lemma OtherGrantEnds(c: Config, s: System, x: int, a: Owner, b: Owner, identity: Jti, g1: Jti, g2: Jti) returns (es: seq<Event>, s': System)
    requires ValidTtl(c.ttl) && a != b && x >= 0
    requires Waits(c, s, x + c.ttl * TICKS, a, identity, g1)
    requires Open(c, s, 1, identity, g2) && Spare(c, s, 1, b, identity, g2)
    ensures s' == Continue(c, s, es) && forall e :: e in es ==> !e.Expire?
    ensures var y := x + c.ttl * TICKS;
            Ending(c, s', y + RetentionTtl(y, Window(c, identity, g2)).value * TICKS, a, b, identity, g1)
  {
    hide Continue, Accepts, ValidCall, RetentionTtl;
    var y := x + c.ttl * TICKS;
    var d := c.ttl * TICKS + RetentionTtl(y, Window(c, identity, g2)).value * TICKS;
    LongEnough(y, Window(c, identity, g2));
    FreeGrants(c, s, 1, b, 2, identity, g2, 1);
    ReserveGrants(c, s, 1, b, 2, identity, g2);
    var r := ReserveEvents(1, b, 2, identity, g2);
    var s1 := Continue(c, s, r);
    WaitSteps(c, s1, x, x, d);
    ContinueOn(c, s, r, Wait(x, x, d));
    es := r + Wait(x, x, d);
    s' := Continue(c, s, es);
    NotAhead(y);
    assert s'.leases[2] == Lease(d, Normalized(y) - c.ttl * TICKS);
    StillMay(c, s, s', a);
  }

  /** A whole run to two winners, on clocks that are in step all along.  `a` reserves with one
      grant and lets its reservation lapse; `b` reserves with another grant, whose window ends
      first, so the key goes then; `d` reserves with the first grant. */
  lemma TwoWinnersRun(c: Config, x: int, a: Owner, b: Owner, d: Owner, identity: Jti, g1: Jti, g2: Jti) returns (es: seq<Event>)
    requires ValidTtl(c.ttl) && a != b && b != d && a != d && x >= 0
    requires Open(c, Initial([x, x]), 0, identity, g1) && Spare(c, Initial([x, x]), 0, a, identity, g1)
    requires var y := x + c.ttl * TICKS;
             Open(c, Initial([y, y]), 1, identity, g2) && Spare(c, Initial([y, y]), 1, b, identity, g2)
    requires var y := x + c.ttl * TICKS;
             var z := y + RetentionTtl(y, Window(c, identity, g2)).value * TICKS;
             Open(c, Initial([z, z]), 1, identity, g1) && Spare(c, Initial([z, z]), 1, d, identity, g1)
    ensures InStep(c, [x, x], es) && AllTimely(c, [x, x], es)
    ensures Admitted(Run(c, [x, x], es), a, identity, g1, 1) && Admitted(Run(c, [x, x], es), d, identity, g1, 1)
  {
    hide Continue, Accepts, ValidCall, RetentionTtl, Run, Free, StepInStep, Admitted;
    var s0 := Initial([x, x]);
    var r1, s1 := HolderWaits(c, x, a, identity, g1);
    var r2, s2 := OtherGrantEnds(c, s1, x, a, b, identity, g1, g2);
    ContinueOn(c, s0, r1, r2);
    Started(c, [x, x]);
    RunOn(c, [x, x], [], r1 + r2);
    assert [] + (r1 + r2) == r1 + r2;
    GoneStep(c, s2, identity);
    var s3 := Continue(c, s2, [Expire(identity)]);
    LongEnough(x + c.ttl * TICKS, Window(c, identity, g2));
    StillMay(c, s2, s3, a);
    var after := TwoWinnersPossible(c, s3, a, d, 1, identity, g1, [], [3]);
    es := r1 + r2 + [Expire(identity)] + after;
    RunOn(c, [x, x], r1 + r2, [Expire(identity)]);
    RunOn(c, [x, x], r1 + r2 + [Expire(identity)], after);
    OneExpiry(c, [x, x], r1 + r2, identity, after);
    InStepIsTimely(c, [x, x], es);
  }

  lemma Started(c: Config, clocks: seq<int>)
    ensures Run(c, clocks, []) == Initial(clocks)
  {
  }

  lemma LapseTime(x: int, ttl: int)
    requires x >= 0 && ttl >= 0
    ensures Normalized(x + ttl * TICKS) == Normalized(x) + ttl * TICKS
  {
  }

  lemma StillMay(c: Config, s: System, s': System, a: Owner)
    requires Enabled(c, s, Mutate(a, true)) && a in s'.attempts && s'.attempts[a] == s.attempts[a]
    requires s.attempts[a].gateway < |s'.clocks| && s'.clocks[s.attempts[a].gateway] >= 0
    ensures Enabled(c, s', Mutate(a, true))
  {
    SecondsMonotone(0, s'.clocks[s.attempts[a].gateway]);
    NormalizedFacts(s'.clocks[s.attempts[a].gateway], s'.clocks[s.attempts[a].gateway]);
  }

  lemma NotAhead(t: int)
    ensures t >= 0 ==> Normalized(t) <= t
  {
    NormalizedFacts(t, t);
  }

  // ---------------------------------------------------------------------------------------
  // One deployment in which both happen

  function Named(digit: char): Jti { seq(JTI_SIZE, _ => digit) }

  /** One grant from second 1000 to 1600, any other from 900 to 1200. */
  function SampleGrant(jti: Jti): GrantToken {
    if jti == Named('1') then GrantToken(GRANT_VERSION, "q", jti, Named('0'), 1, "x", 1000, 1000, 1600)
    else GrantToken(GRANT_VERSION, "q", jti, Named('0'), 1, "x", 800, 900, 1200)
  }

  function Sample(): Config {
    Config(10, GrantPolicy("q", "x", 600), jti => IdentityClaims(jti, 1, 0, 2000 * TICKS), SampleGrant)
  }

  lemma SampleOpen(n: nat, digit: char, owner: char)
    requires 1000 <= n <= (if digit == '1' then 1660 else 1260) && (digit == '1' || digit == '2') && '!' <= owner <= '~'
    ensures var c, until := Sample(), if digit == '1' then 1660 else 1260;
            && Window(c, Named('0'), Named(digit)) == until * TICKS
            && RetentionTtl(n * TICKS, until * TICKS) == Some(until - n + 1)
            && Accepts(c, Named('0'), Named(digit), n * TICKS)
            && ValidCall(CallReserve(RequestOf(c, Named('0'), Named(digit), [owner], n * TICKS)))
  {
    assert Named('2')[0] != Named('1')[0];
    var until := if digit == '1' then 1660 else 1260;
    SecondsOfWhole(n);
    SecondsOfWhole(until);
  }

  /** A run in which one pair is consumed twice, with one clock a single second behind. */
  lemma SkewHappens() returns (es: seq<Event>)
    ensures var log := Run(Sample(), [1100 * TICKS, 1099 * TICKS], es).log;
            |log| == 2 && log[0].identity == log[1].identity && log[0].grant == log[1].grant && log[0].owner != log[1].owner
  {
    SampleOpen(1100, '1', 'a');
    SampleOpen(1660, '1', 'b');
    hide Run, Accepts, ValidCall, RetentionTtl, Window, InStep;
    es := SkewedGateway(Sample(), 1100 * TICKS, 1099 * TICKS, ['a'], ['b'], Named('0'), Named('1'));
  }

  /** A run in which two are told `Applied`, with all clocks in step. */
  lemma TwoWinnersHappen() returns (es: seq<Event>)
    ensures var clocks := [1100 * TICKS, 1100 * TICKS];
            && InStep(Sample(), clocks, es)
            && Admitted(Run(Sample(), clocks, es), ['a'], Named('0'), Named('1'), 1)
            && Admitted(Run(Sample(), clocks, es), ['d'], Named('0'), Named('1'), 1)
  {
    SampleOpen(1100, '1', 'a');
    SampleOpen(1110, '2', 'b');
    SampleOpen(1261, '1', 'd');
    hide Run, Accepts, ValidCall, RetentionTtl, Window, InStep, AllTimely, Admitted;
    es := TwoWinnersRun(Sample(), 1100 * TICKS, ['a'], ['b'], ['d'], Named('0'), Named('1'), Named('2'));
  }
}
