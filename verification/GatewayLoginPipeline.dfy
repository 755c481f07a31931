/** The pipeline as the program keeps it: tables and counters changed in place, phase by phase.
    Every method is proved to do what `LoginPipeline` says, so `LoginSafety` is about it. */
module GatewayLoginPipeline {
  import opened Basics
  import opened LoginPipeline
  import opened LoginSafety

  lemma {:induction false} SubmitsIdle(c: Config, f: Frame, s: State, ids: seq<nat>, i: nat)
    requires i <= |ids| && !Submits(c, f, s, ids[..i]).healthy
    ensures Submits(c, f, s, ids) == Submits(c, f, s, ids[..i])
    decreases |ids| - i
  {
    if i < |ids| {
      assert ids[..i + 1][..i] == ids[..i];
      SubmitsIdle(c, f, s, ids, i + 1);
    } else {
      assert ids[..i] == ids;
    }
  }

  lemma {:induction false} FlushAllIdle(c: Config, f: Frame, s: State, ids: seq<nat>, kind: Intent, i: nat)
    requires i <= |ids| && !FlushAll(c, f, s, ids[..i], kind).healthy
    ensures FlushAll(c, f, s, ids, kind) == FlushAll(c, f, s, ids[..i], kind)
    decreases |ids| - i
  {
    if i < |ids| {
      assert ids[..i + 1][..i] == ids[..i];
      FlushAllIdle(c, f, s, ids, kind, i + 1);
    } else {
      assert ids[..i] == ids;
    }
  }

  lemma {:induction false} FlushKindsIdle(c: Config, f: Frame, s: State, ids: seq<nat>, kinds: nat, total: nat)
    requires kinds <= total <= |PRIORITY| && !FlushKinds(c, f, s, ids, kinds).healthy
    ensures FlushKinds(c, f, s, ids, total) == FlushKinds(c, f, s, ids, kinds)
    decreases total - kinds
  {
    if kinds < total {
      var none: seq<nat> := [];
      assert ids[..0] == none;
      FlushAllIdle(c, f, FlushKinds(c, f, s, ids, kinds), ids, PRIORITY[kinds], 0);
      FlushKindsIdle(c, f, s, ids, kinds + 1, total);
    }
  }

  lemma HealthyBooks(c: Config, s: State)
    requires Healthy(c, s)
    ensures Books(c, s)
  {
  }

  lemma FlushNothing(c: Config, f: Frame, s: State, id: nat, kind: Intent)
    requires !s.healthy || id !in s.sessions || s.sessions[id].intent != kind
    ensures Flush(c, f, s, id, kind) == s
  {
  }

  lemma AttemptDropped(log: seq<Mutation>, x: Session)
    requires SessionOk(log, x) && x.activeAttempt.Some?
    ensures SessionOk(log, x.(activeAttempt := None)) && x.stage == Fetching && x.intent == Nothing && !x.closing
  {
  }

  lemma MessageCounted(log: seq<Mutation>, x: Session)
    requires SessionOk(log, x)
    ensures SessionOk(log, x.(attachAttempts := x.attachAttempts + 1))
  {
  }

  class GatewayLoginPipeline {
    const config: Config
    var sessions: map<nat, Session>
    var attempts: map<nat, nat>
    var fetchUsed: nat
    var healthy: bool
    var nextAttempt: nat
    var nextAdmission: nat
    /** The handles whose terminal flag is set. */
    var terminal: set<nat>
    ghost var log: seq<Mutation>
    ghost var granted: set<nat>

    ghost function View(): State
      reads this
    {
      State(sessions, attempts, fetchUsed, healthy, nextAttempt, nextAdmission, log, granted)
    }

    ghost predicate Flags()
      reads this
    {
      forall h :: h in terminal <==> Spent(log, h)
    }

    ghost predicate Valid()
      reads this
    {
      Inv(config, View()) && Flags()
    }

    constructor (config: Config)
      ensures this.config == config && View() == START && Valid()
    {
      this.config := config;
      sessions, attempts, fetchUsed, healthy := map[], map[], 0, true;
      nextAttempt, nextAdmission, terminal := 1, 1, {};
      log, granted := [], {};
      new;
      assert Reserving(sessions) == {};
    }

    /** One store call through a handle, unless the handle has been used. */
    method Mutate(h: nat, kind: MutationKind)
      requires Flags()
      modifies this`terminal, this`log
      ensures Flags() && log == Mutated(old(log), h, kind)
    {
      if h !in terminal {
        terminal := terminal + {h};
        log := log + [Mutation(h, kind)];
        assert log[|log| - 1].handle == h;
        assert forall g :: Spent(old(log), g) ==> Spent(log, g) by {
          forall g | Spent(old(log), g)
            ensures Spent(log, g)
          {
            var i :| 0 <= i < |old(log)| && old(log)[i].handle == g;
            assert log[i].handle == g;
          }
        }
      }
    }

    method ReleaseAdmission(id: nat)
      requires Flags() && id in sessions
      modifies this`sessions, this`terminal, this`log
      ensures Flags() && View() == ReleaseHandle(old(View()), id)
    {
      var x := sessions[id];
      if x.reservation.Some? {
        Mutate(x.reservation.value, Release);
        sessions := sessions[id := x.(reservation := None)];
      }
    }

    method ReleaseFetchReservation(id: nat)
      requires id in sessions && (sessions[id].fetchReserved ==> fetchUsed > 0)
      modifies this`sessions, this`fetchUsed
      ensures View() == ReleaseFetch(old(View()), id)
    {
      if sessions[id].fetchReserved {
        sessions := sessions[id := sessions[id].(fetchReserved := false)];
        fetchUsed := fetchUsed - 1;
      }
    }

    method CancelActive(id: nat)
      requires id in sessions
      modifies this`sessions, this`attempts
      ensures View() == CancelAttempt(old(View()), id)
    {
      var x := sessions[id];
      if x.activeAttempt.Some? {
        attempts := attempts - {x.activeAttempt.value};
        sessions := sessions[id := x.(activeAttempt := None)];
      }
    }

    method Drop(id: nat)
      requires Flags() && Budgets(config, View()) && id in sessions
      modifies this
      ensures Flags() && View() == Dropped(old(View()), id)
    {
      assert sessions[id].fetchReserved ==> id in Reserving(sessions);
      CancelActive(id);
      ReleaseFetchReservation(id);
      ReleaseAdmission(id);
    }

    /** Schedule a close or a decline. */
    method End(id: nat, intent: Intent)
      requires Flags() && Budgets(config, View()) && id in sessions
      modifies this
      ensures Flags() && View() == Ending(old(View()), id, intent)
    {
      Drop(id);
      sessions := sessions[id := sessions[id].(closing := true, intent := intent)];
    }

    method StopPipeline(f: Frame)
      requires Flags()
      modifies this
      ensures Flags() && View() == MarkUnhealthy(f, old(View()))
    {
      var ids := f.order(sessions.Keys);
      healthy, attempts := false, map[];
      var i := 0;
      while i < |ids|
        invariant i <= |ids| && Flags() && View() == Stop(old(View()), ids[..i])
      {
        assert ids[..i + 1][..i] == ids[..i];
        var id := ids[i];
        if id in sessions {
          sessions := sessions[id := sessions[id].(activeAttempt := None)];
          ReleaseAdmission(id);
        }
        i := i + 1;
      }
      assert ids[..i] == ids;
    }

    method ApplyEvent(e: EdgeEvent)
      requires Flags() && Healthy(config, View())
      modifies this
      ensures Flags() && View() == Lifecycle(config, old(View()), e)
    {
      hide Settled, Indexed, SessionOk, Dropped, Spent;
      match e {
        case Opened(id) =>
          if id !in sessions && |sessions| < config.connCapacity {
            sessions := sessions[id := FRESH];
          }
        case Closed(id) =>
          if id in sessions {
            Drop(id);
            sessions := sessions - {id};
          }
        case _ =>
      }
    }

    method PreapplyLifecycle(events: seq<EdgeEvent>)
      requires Valid() && healthy
      modifies this
      ensures View() == Lifecycles(config, old(View()), events) && Valid() && healthy
    {
      hide Settled, Indexed, SessionOk, Budgets, Lifecycle, Spent, AtRest;
      StillHealthy(config, View());
      var i := 0;
      while i < |events|
        invariant i <= |events| && Flags() && Healthy(config, View())
        invariant View() == Lifecycles(config, old(View()), events[..i])
      {
        assert events[..i + 1][..i] == events[..i];
        LifecycleOk(config, View(), events[i]);
        ApplyEvent(events[i]);
        i := i + 1;
      }
      assert events[..i] == events;
    }

    method HandleMessage(id: nat, verdict: Verdict)
      requires Flags() && Healthy(config, View()) && id in sessions && !sessions[id].closing && sessions[id].intent == Nothing
      modifies this
      ensures Flags() && View() == HandleAttach(config, old(View()), id, verdict)
    {
      if sessions[id].stage != Pending || fetchUsed >= config.fetchCapacity {
        End(id, Decline);
        return;
      }
      var h := nextAdmission;
      nextAdmission := nextAdmission + 1;
      if verdict != Reserved {
        End(id, Decline);
        return;
      }
      sessions := sessions[id := sessions[id].(reservation := Some(h), fetchReserved := true, intent := Accept, admission := Some(h))];
      fetchUsed := fetchUsed + 1;
      granted := granted + {h};
    }

    method ReceiveMessage(id: nat, established: bool, body: Body)
      requires Flags() && Healthy(config, View())
      modifies this
      ensures Flags() && View() == Receive(config, old(View()), id, established, body)
    {
      hide Settled, Indexed, SessionOk, Ending, HandleAttach, Spent;
      if id !in sessions || sessions[id].closing || sessions[id].intent != Nothing {
        return;
      }
      if established || sessions[id].stage != Pending {
        End(id, Close);
        return;
      }
      match body {
        case Oversized => End(id, Close);
        case NotAttach => End(id, Decline);
        case Attach(ingress) =>
          ghost var y := sessions[id].(attachAttempts := sessions[id].attachAttempts + 1);
          MessageCounted(log, sessions[id]);
          QuietPut(config, View(), Put(View(), id, y), id, y);
          sessions := sessions[id := sessions[id].(attachAttempts := sessions[id].attachAttempts + 1)];
          match ingress {
            case Allowed(verdict) => HandleMessage(id, verdict);
            case Throttled => End(id, Decline);
            case Abusive => End(id, Close);
            case Malformed => End(id, Decline);
          }
      }
    }

    method ProcessMessages(events: seq<EdgeEvent>)
      requires Valid() && healthy
      modifies this
      ensures View() == Messages(config, old(View()), events) && Valid() && healthy
    {
      hide Settled, Indexed, SessionOk, Budgets, Receive, Spent, AtRest;
      StillHealthy(config, View());
      var i := 0;
      while i < |events|
        invariant i <= |events| && Flags() && Healthy(config, View())
        invariant View() == Messages(config, old(View()), events[..i])
      {
        assert events[..i + 1][..i] == events[..i];
        if events[i].Received? {
          ReceiveOk(config, View(), events[i].id, events[i].established, events[i].body);
          ReceiveMessage(events[i].id, events[i].established, events[i].body);
        }
        i := i + 1;
      }
      assert events[..i] == events;
    }

    method ApplyHandoffExpiry(f: Frame)
      requires Valid() && healthy
      modifies this
      ensures View() == Expiries(old(View()), f.order(old(sessions.Keys)), f.now) && Valid() && healthy
    {
      hide Settled, Indexed, SessionOk, Ending, Spent, AtRest;
      StillHealthy(config, View());
      var ids := f.order(sessions.Keys);
      var i := 0;
      while i < |ids|
        invariant i <= |ids| && Flags() && Healthy(config, View())
        invariant View() == Expiries(old(View()), ids[..i], f.now)
      {
        assert ids[..i + 1][..i] == ids[..i];
        ExpireOk(config, View(), ids[i], f.now);
        var id := ids[i];
        if id in sessions && !sessions[id].closing && sessions[id].handoffDeadline.Some? && sessions[id].handoffDeadline.value <= f.now {
          End(id, Close);
        }
        i := i + 1;
      }
      assert ids[..i] == ids;
    }

    method RecordFetchFailure(id: nat, now: int)
      requires Flags() && AllBut(config, View(), id) && id in sessions
      modifies this
      ensures Flags() && View() == Failed(config, old(View()), id, now)
    {
      hide Settled, Indexed, SessionOk, Ending, Spent;
      var failures := sessions[id].failures + 1;
      ghost var y := sessions[id].(failures := failures);
      QuietPut(config, View(), Put(View(), id, y), id, y);
      sessions := sessions[id := sessions[id].(failures := failures)];
      if failures <= config.fetchRetryMax {
        sessions := sessions[id := sessions[id].(fetchDue := now + config.retryDelay(failures))];
        return;
      }
      End(id, Decline);
    }

    method DrainFetchCompletions(done: seq<Completion>, now: int)
      requires Valid() && healthy
      modifies this
      ensures View() == Completions(config, old(View()), done, now) && Valid() && healthy
    {
      var i := 0;
      while i < |done|
        invariant i <= |done| && Flags() && Healthy(config, View())
        invariant View() == Completions(config, old(View()), done[..i], now)
      {
        assert done[..i + 1][..i] == done[..i];
        CompleteOk(config, View(), done[i], now);
        FinishAttempt(done[i], now);
        i := i + 1;
      }
      assert done[..i] == done;
    }

    method FinishAttempt(done: Completion, now: int)
      requires Flags() && Healthy(config, View())
      modifies this
      ensures Flags() && View() == Complete(config, old(View()), done, now)
    {
      hide Settled, SessionOk, Ending, Spent, Failed, Books;
      if done.attempt !in attempts {
        return;
      }
      var id := attempts[done.attempt];
      ghost var before := View();
      HealthyBooks(config, before);
      CancelOk(config, before, id);
      attempts := attempts - {done.attempt};
      if id !in sessions || sessions[id].activeAttempt != Some(done.attempt) {
        return;
      }
      AttemptDropped(log, sessions[id]);
      sessions := sessions[id := sessions[id].(activeAttempt := None)];
      assert View() == CancelAttempt(before, id);
      OneSession(config, before, View(), id, sessions[id]);
      if sessions[id].closing {
        return;
      }
      match done.outcome {
        case FetchOk =>
          assert sessions[id].fetchReserved ==> id in Reserving(sessions);
          ReleaseFetchReservation(id);
          sessions := sessions[id := sessions[id].(intent := Handoff)];
        case NotEligible => End(id, Decline);
        case FetchUnavailable => RecordFetchFailure(id, now);
      }
    }

    method ApplyFetchTimeouts(f: Frame)
      requires Valid() && healthy
      modifies this
      ensures View() == TimeOuts(config, old(View()), f.order(old(sessions.Keys)), f.now) && Valid() && healthy
    {
      hide Settled, Indexed, SessionOk, Failed, Spent, AtRest, CancelAttempt;
      StillHealthy(config, View());
      var ids := f.order(sessions.Keys);
      var i := 0;
      while i < |ids|
        invariant i <= |ids| && Flags() && Healthy(config, View())
        invariant View() == TimeOuts(config, old(View()), ids[..i], f.now)
      {
        assert ids[..i + 1][..i] == ids[..i];
        TimeOutOk(config, View(), ids[i], f.now);
        var id := ids[i];
        if id in sessions && !sessions[id].closing && sessions[id].activeAttempt.Some? && sessions[id].attemptDeadline <= f.now {
          CancelOk(config, View(), id);
          AttemptDropped(log, sessions[id]);
          OneSession(config, View(), CancelAttempt(View(), id), id, sessions[id].(activeAttempt := None));
          CancelActive(id);
          RecordFetchFailure(id, f.now);
        }
        i := i + 1;
      }
      assert ids[..i] == ids;
    }

    method DriveFetchSubmissions(f: Frame)
      requires Valid() && healthy && Lists(f.order)
      modifies this
      ensures View() == Submits(config, f, old(View()), f.order(old(sessions.Keys))) && Valid()
    {
      var ids := f.order(sessions.Keys);
      var i := 0;
      while i < |ids|
        invariant i <= |ids| && Valid() && View() == Submits(config, f, old(View()), ids[..i])
      {
        if !healthy {
          SubmitsIdle(config, f, old(View()), ids, i);
          return;
        }
        assert ids[..i + 1][..i] == ids[..i];
        SubmitOk(config, f, View(), ids[i]);
        SubmitFetch(f, ids[i]);
        i := i + 1;
      }
      assert ids[..i] == ids;
    }

    method SubmitFetch(f: Frame, id: nat)
      requires Flags() && healthy
      modifies this
      ensures Flags() && View() == Submit(config, f, old(View()), id)
    {
      if id !in sessions {
        return;
      }
      var x := sessions[id];
      if x.closing || x.stage != Fetching || !x.fetchReserved || x.activeAttempt.Some? || x.intent != Nothing || x.fetchDue > f.now {
        return;
      }
      var a := nextAttempt;
      nextAttempt := nextAttempt + 1;
      match f.submit(a) {
        case Full =>
        case Stopped => StopPipeline(f);
        case Queued =>
          sessions := sessions[id := x.(activeAttempt := Some(a), attemptDeadline := f.now + config.fetchTimeout)];
          attempts := attempts[a := id];
      }
    }

    /** One kind of intent, over all sessions listed; stops at once if the pipeline does. */
    method FlushKind(f: Frame, ids: seq<nat>, kind: Intent)
      requires Valid() && Lists(f.order) && kind != Nothing
      modifies this
      ensures View() == FlushAll(config, f, old(View()), ids, kind) && Valid()
    {
      hide Inv, Flush;
      var i := 0;
      while i < |ids|
        invariant i <= |ids| && Valid() && View() == FlushAll(config, f, old(View()), ids[..i], kind)
      {
        if !healthy {
          FlushAllIdle(config, f, old(View()), ids, kind, i);
          return;
        }
        assert ids[..i + 1][..i] == ids[..i];
        FlushOk(config, f, View(), ids[i], kind);
        if ids[i] in sessions && sessions[ids[i]].intent == kind {
          FlushIntent(f, ids[i]);
        } else {
          FlushNothing(config, f, View(), ids[i], kind);
        }
        i := i + 1;
      }
      assert ids[..i] == ids;
    }

    method FlushIntents(f: Frame)
      requires Valid() && Lists(f.order)
      modifies this
      ensures View() == FlushKinds(config, f, old(View()), Ascending(old(sessions.Keys)), |PRIORITY|) && Valid()
    {
      hide Inv, FlushAll;
      var ids := Ascending(sessions.Keys);
      var k := 0;
      while k < |PRIORITY|
        invariant k <= |PRIORITY| && Valid() && View() == FlushKinds(config, f, old(View()), ids, k)
      {
        if !healthy {
          FlushKindsIdle(config, f, old(View()), ids, k, |PRIORITY|);
          return;
        }
        FlushKind(f, ids, PRIORITY[k]);
        k := k + 1;
      }
    }

    /** The branch for an accept without a reservation is never taken. */
    method FlushIntent(f: Frame, id: nat)
      requires Valid() && healthy && Lists(f.order) && id in sessions && sessions[id].intent != Nothing
      modifies this
      ensures Flags() && View() == Flush(config, f, old(View()), id, old(sessions[id].intent))
      ensures old(sessions[id].intent) == Accept ==> old(sessions[id].reservation.Some?)
    {
      var x := sessions[id];
      assert SessionOk(log, x);
      if x.intent == Accept {
        AcceptIntent(f, id);
      } else if x.intent == Handoff {
        HandoffIntent(f, id);
      } else {
        match f.deliver(id, x.intent) {
          case Full =>
          case Stopped =>
            sessions := sessions[id := x.(reservation := None)];
            StopPipeline(f);
          case Queued =>
            sessions := sessions[id := x.(closing := true, intent := Nothing,
                                          handoffDeadline := if x.intent == Close then None else x.handoffDeadline)];
        }
      }
    }

    method HandoffIntent(f: Frame, id: nat)
      requires Valid() && healthy && id in sessions && sessions[id].intent == Handoff
      modifies this
      ensures Flags() && View() == FlushHandoff(config, f, old(View()), id)
    {
      if !f.realmKnown {
        End(id, Close);
        return;
      }
      var x := sessions[id];
      match f.deliver(id, Handoff) {
        case Full =>
        case Stopped =>
          sessions := sessions[id := x.(reservation := None)];
          StopPipeline(f);
        case Queued =>
          sessions := sessions[id := x.(stage := HandedOff, handoffDeadline := Some(f.now + config.handoffGrace), intent := Nothing)];
      }
    }

    method AcceptIntent(f: Frame, id: nat)
      requires Valid() && healthy && id in sessions && sessions[id].intent == Accept && SessionOk(log, sessions[id])
      modifies this
      ensures Flags() && View() == FlushAccept(config, f, old(View()), id)
    {
      var x := sessions[id];
      var h := x.reservation.value;
      assert sessions[id].fetchReserved ==> id in Reserving(sessions);
      match f.deliver(id, Accept) {
        case Full =>
        case Stopped =>
          Mutate(h, Release);
          sessions := sessions[id := x.(reservation := None)];
          StopPipeline(f);
        case Queued =>
          var applied := h !in terminal && f.commit(h);
          Mutate(h, Commit(applied));
          sessions := sessions[id := x.(reservation := None)];
          if !applied {
            ReleaseFetchReservation(id);
            sessions := sessions[id := sessions[id].(closing := true, intent := Close)];
            return;
          }
          sessions := sessions[id := sessions[id].(stage := Fetching, fetchDue := f.now, intent := Nothing)];
      }
    }

    method AdvanceFrame(f: Frame) returns (connFree: nat, fetchFree: nat)
      requires Valid() && Lists(f.order)
      modifies this
      ensures View() == Advance(config, f, old(View())) && Valid()
      ensures connFree == config.connCapacity - |sessions| && fetchFree == config.fetchCapacity - |Reserving(sessions)|
    {
      if healthy {
        PreapplyLifecycle(f.events);
        ProcessMessages(f.events);
        ApplyHandoffExpiry(f);
        DrainFetchCompletions(f.completions, f.now);
        ApplyFetchTimeouts(f);
        DriveFetchSubmissions(f);
        FlushIntents(f);
      }
      connFree := config.connCapacity - |sessions|;
      fetchFree := config.fetchCapacity - fetchUsed;
    }
  }
}
