/** What the login pipeline keeps in every run: both budgets exact, attempts indexed both ways,
    every admission handle settled exactly once, and nobody handed off without a commit. */
module LoginSafety {
  import opened Basics
  import opened LoginPipeline

  // ---------------------------------------------------------------------------------------
  // The invariant

  ghost predicate SessionOk(log: seq<Mutation>, x: Session) {
    && (x.closing ==> !x.fetchReserved && x.activeAttempt.None? && (x.intent == Nothing || x.intent == Close || x.intent == Decline))
    && (x.intent == Close || x.intent == Decline ==> x.closing)
    && (x.reservation.Some? <==> x.intent == Accept)
    && (x.intent == Accept ==> x.stage == Pending && x.fetchReserved && x.admission == x.reservation)
    && (x.intent == Handoff ==> x.stage == Fetching && !x.fetchReserved)
    && (x.activeAttempt.Some? ==> x.stage == Fetching && x.fetchReserved && x.intent == Nothing)
    && (x.fetchReserved ==> x.intent == Accept || (x.stage == Fetching && x.intent == Nothing))
    && (x.stage == Pending && x.intent == Nothing && !x.closing ==> !x.fetchReserved)
    && (x.handoffDeadline.Some? ==> x.stage == HandedOff)
    && (x.stage != Pending ==> x.admission.Some? && Mutation(x.admission.value, Commit(true)) in log)
  }

  function Reserving(sessions: map<nat, Session>): set<nat> { set id | id in sessions && sessions[id].fetchReserved }

  /** The fetch budget in use is the number of sessions that hold a part of it. */
  ghost predicate Budgets(c: Config, s: State) {
    s.fetchUsed == |Reserving(s.sessions)| && s.fetchUsed <= c.fetchCapacity && |s.sessions| <= c.connCapacity
  }

  /** The attempt index is the exact inverse of the sessions' active attempts. */
  ghost predicate Indexed(s: State) {
    && (forall a :: a in s.attempts ==>
          a < s.nextAttempt && s.attempts[a] in s.sessions && s.sessions[s.attempts[a]].activeAttempt == Some(a))
    && (forall id :: id in s.sessions && s.sessions[id].activeAttempt.Some? ==>
          s.sessions[id].activeAttempt.value in s.attempts && s.attempts[s.sessions[id].activeAttempt.value] == id)
  }

  ghost predicate Holding(s: State, id: nat, h: nat) { id in s.sessions && s.sessions[id].reservation == Some(h) }

  /** Every handle granted is either held by one session and untouched, or settled once. */
  ghost predicate Settled(s: State) {
    && (forall id, h :: Holding(s, id, h) ==> h in s.granted && !Spent(s.log, h))
    && (forall i, j, h :: Holding(s, i, h) && Holding(s, j, h) ==> i == j)
    && (forall h :: h in s.granted ==> h < s.nextAdmission && (Spent(s.log, h) || exists id :: Holding(s, id, h)))
    && (forall i :: 0 <= i < |s.log| ==> s.log[i].handle in s.granted)
    && (forall i, j :: 0 <= i < j < |s.log| ==> s.log[i].handle != s.log[j].handle)
  }

  ghost predicate Healthy(c: Config, s: State) {
    && s.healthy && Budgets(c, s) && Indexed(s) && Settled(s)
    && forall id :: id in s.sessions ==> SessionOk(s.log, s.sessions[id])
  }

  /** After the pipeline has stopped nothing is held and nothing is pending. */
  ghost predicate AtRest(c: Config, s: State) {
    && !s.healthy && Budgets(c, s) && Settled(s) && s.attempts == map[]
    && (forall id :: id in s.sessions ==> s.sessions[id].activeAttempt.None? && s.sessions[id].reservation.None?)
    && forall id :: id in s.sessions && s.sessions[id].stage != Pending ==>
         s.sessions[id].admission.Some? && Mutation(s.sessions[id].admission.value, Commit(true)) in s.log
  }

  ghost predicate Inv(c: Config, s: State) { Healthy(c, s) || AtRest(c, s) }

  // ---------------------------------------------------------------------------------------
  // Changing one session

  lemma ReservingPut(s: State, id: nat, x: Session)
    ensures Reserving(s.sessions[id := x]) == if x.fetchReserved then Reserving(s.sessions) + {id} else Reserving(s.sessions) - {id}
  {
  }

  lemma BudgetsPut(c: Config, s: State, s': State, id: nat, x: Session)
    requires Budgets(c, s) && s'.sessions == s.sessions[id := x]
    requires s'.fetchUsed == s.fetchUsed + (if x.fetchReserved then 1 else 0)
                             - (if id in s.sessions && s.sessions[id].fetchReserved then 1 else 0)
    requires s'.fetchUsed <= c.fetchCapacity && |s'.sessions| <= c.connCapacity
    ensures Budgets(c, s')
  {
    ReservingPut(s, id, x);
    if id in s.sessions && s.sessions[id].fetchReserved {
      assert id in Reserving(s.sessions);
    }
  }

  /** A session that keeps its reservation. */
  lemma BudgetsKept(c: Config, s: State, s': State, id: nat, x: Session)
    requires Budgets(c, s) && id in s.sessions && s'.sessions == s.sessions[id := x] && s'.fetchUsed == s.fetchUsed
    requires x.fetchReserved == s.sessions[id].fetchReserved
    ensures Budgets(c, s')
  {
    assert s'.sessions.Keys == s.sessions.Keys;
    assert |s'.sessions| == |s'.sessions.Keys| && |s.sessions| == |s.sessions.Keys|;
    BudgetsPut(c, s, s', id, x);
  }

  /** A session that keeps its attempt, or gives it up and takes no other. */
  lemma IndexedPut(s: State, s': State, id: nat, x: Session)
    requires Indexed(s) && s'.sessions == s.sessions[id := x] && s'.nextAttempt >= s.nextAttempt
    requires if id in s.sessions && s.sessions[id].activeAttempt.Some? && x.activeAttempt.None?
             then s'.attempts == s.attempts - {s.sessions[id].activeAttempt.value}
             else s'.attempts == s.attempts && x.activeAttempt == (if id in s.sessions then s.sessions[id].activeAttempt else None)
    ensures Indexed(s')
  {
  }

  /** A session that keeps its handle. */
  lemma SettledPut(s: State, s': State, id: nat, x: Session)
    requires Settled(s) && s'.sessions == s.sessions[id := x] && s'.log == s.log && s'.granted == s.granted
    requires s'.nextAdmission >= s.nextAdmission
    requires x.reservation == (if id in s.sessions then s.sessions[id].reservation else None)
    ensures Settled(s')
  {
    forall i, h
      ensures Holding(s', i, h) <==> Holding(s, i, h)
    {
    }
  }

  /** A handle put to its one use. */
  lemma SettledSpend(s: State, s': State, id: nat, x: Session, kind: MutationKind)
    requires Settled(s) && id in s.sessions && s.sessions[id].reservation.Some? && x.reservation.None?
    requires s'.sessions == s.sessions[id := x] && s'.granted == s.granted && s'.nextAdmission == s.nextAdmission
    requires s'.log == Mutated(s.log, s.sessions[id].reservation.value, kind)
    ensures Settled(s') && s'.log == s.log + [Mutation(s.sessions[id].reservation.value, kind)]
  {
    var h := s.sessions[id].reservation.value;
    assert Holding(s, id, h);
    assert s'.log[|s.log|].handle == h;
    forall i, g | Holding(s', i, g)
      ensures g in s'.granted && !Spent(s'.log, g) && Holding(s, i, g)
    {
      assert Holding(s, i, g);
      assert i != id;
    }
    forall g | g in s'.granted
      ensures Spent(s'.log, g) || exists i :: Holding(s', i, g)
    {
      if Spent(s.log, g) {
        var i :| 0 <= i < |s.log| && s.log[i].handle == g;
        assert s'.log[i].handle == g;
      } else {
        var i :| Holding(s, i, g);
        assert i != id ==> Holding(s', i, g);
      }
    }
    forall i, j | 0 <= i < j < |s'.log|
      ensures s'.log[i].handle != s'.log[j].handle
    {
      if j == |s.log| {
        assert s'.log[i] == s.log[i];
        assert s.log[i].handle != h;
      }
    }
  }

  lemma OkLater(log: seq<Mutation>, log': seq<Mutation>, x: Session)
    requires SessionOk(log, x) && log <= log'
    ensures SessionOk(log', x)
  {
    if x.stage != Pending {
      var i :| 0 <= i < |log| && log[i] == Mutation(x.admission.value, Commit(true));
      assert log'[i] == log[i];
    }
  }

  // ---------------------------------------------------------------------------------------
  // Dropping a session and stopping the pipeline

  ghost predicate Admitted(log: seq<Mutation>, x: Session) {
    x.stage != Pending ==> x.admission.Some? && Mutation(x.admission.value, Commit(true)) in log
  }

  /** Everything but the state of session `id` itself. */
  ghost predicate AllBut(c: Config, s: State, id: nat) {
    && s.healthy && Budgets(c, s) && Indexed(s) && Settled(s)
    && forall other :: other in s.sessions && other != id ==> SessionOk(s.log, s.sessions[other])
  }

  function Emptied(x: Session): Session { x.(activeAttempt := None, fetchReserved := false, reservation := None) }

  /** `t` is `s` with session `id` replaced, and perhaps more of the log. */
  ghost predicate Moved(s: State, t: State, id: nat, x: Session) {
    && t.sessions == s.sessions[id := x] && s.log <= t.log
    && t.healthy == s.healthy && t.granted == s.granted && t.nextAttempt == s.nextAttempt && t.nextAdmission == s.nextAdmission
  }

  lemma MovedTwice(s: State, t: State, u: State, id: nat, x: Session, y: Session)
    requires Moved(s, t, id, x) && Moved(t, u, id, y)
    ensures Moved(s, u, id, y)
  {
  }

  lemma HandleReleased(s: State, id: nat)
    requires Settled(s) && id in s.sessions
    ensures var s' := ReleaseHandle(s, id);
            && Settled(s') && Moved(s, s', id, s.sessions[id].(reservation := None))
            && s'.attempts == s.attempts && s'.fetchUsed == s.fetchUsed
  {
    var x := s.sessions[id];
    if x.reservation.Some? {
      SettledSpend(s, ReleaseHandle(s, id), id, x.(reservation := None), Release);
    } else {
      assert s.sessions[id := x] == s.sessions;
    }
  }

  ghost predicate Books(c: Config, s: State) { Budgets(c, s) && Indexed(s) && Settled(s) }

  lemma CancelOk(c: Config, s: State, id: nat)
    requires Books(c, s) && id in s.sessions
    ensures var s' := CancelAttempt(s, id);
            && Books(c, s') && Moved(s, s', id, s.sessions[id].(activeAttempt := None))
            && s'.fetchUsed == s.fetchUsed && s'.log == s.log
  {
    var x := s.sessions[id].(activeAttempt := None);
    var s' := CancelAttempt(s, id);
    assert s'.sessions == s.sessions[id := x];
    hide Settled;
    BudgetsPut(c, s, s', id, x);
    IndexedPut(s, s', id, x);
    SettledPut(s, s', id, x);
  }

  lemma FetchReleased(c: Config, s: State, id: nat)
    requires Books(c, s) && id in s.sessions
    ensures var s' := ReleaseFetch(s, id);
            && Books(c, s') && Moved(s, s', id, s.sessions[id].(fetchReserved := false)) && s'.log == s.log
  {
    var x := s.sessions[id].(fetchReserved := false);
    var s' := ReleaseFetch(s, id);
    assert s'.sessions == s.sessions[id := x];
    hide Settled, Indexed;
    BudgetsPut(c, s, s', id, x);
    IndexedPut(s, s', id, x);
    SettledPut(s, s', id, x);
  }

  lemma HandleBooks(c: Config, s: State, id: nat)
    requires Books(c, s) && id in s.sessions
    ensures Books(c, ReleaseHandle(s, id))
  {
    hide Settled;
    HandleReleased(s, id);
    var s' := ReleaseHandle(s, id);
    var x := s.sessions[id].(reservation := None);
    BudgetsPut(c, s, s', id, x);
    IndexedPut(s, s', id, x);
  }

  lemma MovedThere(s: State, s': State, id: nat, x: Session)
    requires Moved(s, s', id, x)
    ensures id in s'.sessions && s'.sessions[id] == x
  {
  }

  lemma BooksSettled(c: Config, s: State)
    requires Books(c, s)
    ensures Settled(s)
  {
  }

  lemma DroppedOk(c: Config, s: State, id: nat)
    requires Books(c, s) && id in s.sessions
    ensures Books(c, Dropped(s, id)) && Moved(s, Dropped(s, id), id, Emptied(s.sessions[id]))
  {
    hide Books, CancelAttempt, ReleaseFetch, ReleaseHandle, Moved;
    var x := s.sessions[id];
    CancelOk(c, s, id);
    var s1 := CancelAttempt(s, id);
    MovedThere(s, s1, id, x.(activeAttempt := None));
    FetchReleased(c, s1, id);
    var s2 := ReleaseFetch(s1, id);
    MovedThere(s1, s2, id, x.(activeAttempt := None, fetchReserved := false));
    HandleBooks(c, s2, id);
    BooksSettled(c, s2);
    HandleReleased(s2, id);
    var s3 := ReleaseHandle(s2, id);
    MovedTwice(s, s1, s2, id, s1.sessions[id], s2.sessions[id]);
    MovedTwice(s, s2, s3, id, s2.sessions[id], Emptied(x));
  }

  /** Ending a session, whatever it was in the middle of, leaves it empty and the books right. */
  lemma EndingOk(c: Config, s: State, id: nat, intent: Intent)
    requires AllBut(c, s, id) && id in s.sessions && (intent == Close || intent == Decline)
    requires Admitted(s.log, s.sessions[id]) && (s.sessions[id].handoffDeadline.Some? ==> s.sessions[id].stage == HandedOff)
    ensures Healthy(c, Ending(s, id, intent))
  {
    hide Budgets, Indexed, Settled;
    var s1 := Dropped(s, id);
    var x := Emptied(s.sessions[id]).(closing := true, intent := intent);
    var s' := Ending(s, id, intent);
    DroppedOk(c, s, id);
    assert s'.sessions == s1.sessions[id := x];
    BudgetsKept(c, s1, s', id, x);
    IndexedPut(s1, s', id, x);
    SettledPut(s1, s', id, x);
    forall other | other in s'.sessions
      ensures SessionOk(s'.log, s'.sessions[other])
    {
      if other != id {
        OkLater(s.log, s'.log, s.sessions[other]);
      } else {
        AdmittedLater(s.log, s'.log, s.sessions[id]);
      }
    }
  }

  lemma AdmittedLater(log: seq<Mutation>, log': seq<Mutation>, x: Session)
    requires Admitted(log, x) && log <= log'
    ensures Admitted(log', x)
  {
    if x.stage != Pending {
      var i :| 0 <= i < |log| && log[i] == Mutation(x.admission.value, Commit(true));
      assert log'[i] == log[i];
    }
  }

  ghost predicate SameButHoldings(a: State, b: State) {
    && b.sessions.Keys == a.sessions.Keys && a.log <= b.log && b.fetchUsed == a.fetchUsed
    && forall id :: id in a.sessions ==>
         b.sessions[id] == a.sessions[id].(activeAttempt := b.sessions[id].activeAttempt, reservation := b.sessions[id].reservation)
  }

  lemma {:induction false} StopOk(s: State, ids: seq<nat>)
    requires Settled(s)
    ensures var s' := Stop(s, ids);
            && !s'.healthy && s'.attempts == map[] && Settled(s') && SameButHoldings(s, s')
            && forall id :: id in ids && id in s.sessions ==>
                 s'.sessions[id].activeAttempt.None? && s'.sessions[id].reservation.None?
  {
    hide Settled, ReleaseHandle;
    if ids == [] {
      SettledPutNothing(s, Stop(s, ids));
    } else {
      var rest, id := ids[..|ids| - 1], ids[|ids| - 1];
      StopOk(s, rest);
      var s1 := Stop(s, rest);
      if id in s1.sessions {
        var x := s1.sessions[id].(activeAttempt := None);
        var s2 := Put(s1, id, x);
        SettledPut(s1, s2, id, x);
        HandleReleased(s2, id);
      }
      assert ids == rest + [id];
    }
  }

  lemma SettledPutNothing(s: State, s': State)
    requires Settled(s) && s'.sessions == s.sessions && s'.log == s.log && s'.granted == s.granted && s'.nextAdmission >= s.nextAdmission
    ensures Settled(s')
  {
    forall i, h
      ensures Holding(s', i, h) <==> Holding(s, i, h)
    {
    }
  }

  /** Stopping settles every handle and leaves nothing pending. */
  lemma UnhealthyOk(c: Config, f: Frame, s: State)
    requires Lists(f.order) && Budgets(c, s) && Settled(s)
    requires forall id :: id in s.sessions ==> Admitted(s.log, s.sessions[id])
    ensures AtRest(c, MarkUnhealthy(f, s))
  {
    hide Settled;
    StopOk(s, f.order(s.sessions.Keys));
    var s' := MarkUnhealthy(f, s);
    assert Reserving(s'.sessions) == Reserving(s.sessions);
    assert |s'.sessions| == |s'.sessions.Keys| == |s.sessions.Keys| == |s.sessions|;
    forall id | id in s'.sessions
      ensures Admitted(s'.log, s'.sessions[id])
    {
      AdmittedLater(s.log, s'.log, s.sessions[id]);
    }
  }

  // ---------------------------------------------------------------------------------------
  // Phases that keep the pipeline healthy

  lemma OneSession(c: Config, s: State, s': State, id: nat, x: Session)
    requires AllBut(c, s, id) && Books(c, s') && s'.healthy && s.log <= s'.log
    requires s'.sessions == s.sessions[id := x] && SessionOk(s'.log, x)
    ensures Healthy(c, s')
  {
    assert Budgets(c, s') && Indexed(s') && Settled(s');
    hide Books, SessionOk;
    forall other | other in s'.sessions
      ensures SessionOk(s'.log, s'.sessions[other])
    {
      if other != id {
        OkLater(s.log, s'.log, s.sessions[other]);
      }
    }
  }

  /** A change of nothing that the books count. */
  lemma QuietPut(c: Config, s: State, s': State, id: nat, x: Session)
    requires AllBut(c, s, id) && id in s.sessions && s'.sessions == s.sessions[id := x]
    requires s'.log == s.log && s'.granted == s.granted && s'.attempts == s.attempts && s'.fetchUsed == s.fetchUsed && s'.healthy
    requires s'.nextAttempt >= s.nextAttempt && s'.nextAdmission >= s.nextAdmission
    requires x.fetchReserved == s.sessions[id].fetchReserved && x.activeAttempt == s.sessions[id].activeAttempt
    requires x.reservation == s.sessions[id].reservation
    ensures Books(c, s') && AllBut(c, s', id)
    ensures SessionOk(s.log, x) ==> Healthy(c, s')
  {
    hide SessionOk, Settled, Indexed;
    assert |s'.sessions.Keys| == |s.sessions.Keys|;
    assert |s'.sessions| == |s'.sessions.Keys| && |s.sessions| == |s.sessions.Keys|;
    BudgetsPut(c, s, s', id, x);
    IndexedPut(s, s', id, x);
    SettledPut(s, s', id, x);
  }

  lemma LifecycleOk(c: Config, s: State, e: EdgeEvent)
    requires Healthy(c, s)
    ensures Healthy(c, Lifecycle(c, s, e))
  {
    assert SessionOk(s.log, FRESH) && s.fetchUsed <= c.fetchCapacity;
    hide SessionOk, Budgets, Indexed, Settled;
    var s' := Lifecycle(c, s, e);
    match e
    case Opened(id) =>
      if s' != s {
        assert |s.sessions[id := FRESH]| == |s.sessions| + 1;
        BudgetsPut(c, s, s', id, FRESH);
        IndexedPut(s, s', id, FRESH);
        SettledPut(s, s', id, FRESH);
        OneSession(c, s, s', id, FRESH);
      }
    case Closed(id) =>
      if id in s.sessions {
        DroppedOk(c, s, id);
        Removed(c, Dropped(s, id), s', id);
        forall other | other in s'.sessions
          ensures SessionOk(s'.log, s'.sessions[other])
        {
          OkLater(s.log, s'.log, s.sessions[other]);
        }
      }
    case _ =>
  }

  /** A session that holds nothing may go. */
  lemma Removed(c: Config, s: State, s': State, id: nat)
    requires Books(c, s) && id in s.sessions && s.sessions[id] == Emptied(s.sessions[id])
    requires s' == s.(sessions := s.sessions - {id})
    ensures Books(c, s')
  {
    assert Reserving(s'.sessions) == Reserving(s.sessions);
    assert s'.sessions.Keys == s.sessions.Keys - {id};
    assert |s'.sessions| == |s'.sessions.Keys| && |s.sessions| == |s.sessions.Keys|;
    forall i, h
      ensures Holding(s', i, h) <==> Holding(s, i, h)
    {
    }
  }

  lemma SettledGrant(s: State, s': State, id: nat, x: Session)
    requires Settled(s) && id in s.sessions && s.sessions[id].reservation.None? && x.reservation == Some(s.nextAdmission)
    requires s'.sessions == s.sessions[id := x] && s'.log == s.log && s'.granted == s.granted + {s.nextAdmission}
    requires s'.nextAdmission == s.nextAdmission + 1
    ensures Settled(s')
  {
    var h := s.nextAdmission;
    assert Holding(s', id, h);
    forall i, g | Holding(s', i, g)
      ensures g in s'.granted && !Spent(s'.log, g) && (i == id <==> g == h)
    {
      if i != id {
        assert Holding(s, i, g);
      }
    }
    forall i, j, g | Holding(s', i, g) && Holding(s', j, g)
      ensures i == j
    {
      if i != id && j != id {
        assert Holding(s, i, g) && Holding(s, j, g);
      }
    }
    forall g | g in s'.granted
      ensures g < s'.nextAdmission && (Spent(s'.log, g) || exists i :: Holding(s', i, g))
    {
      if g in s.granted && !Spent(s.log, g) {
        var i :| Holding(s, i, g);
        assert Holding(s', i, g);
      }
    }
  }

  /** Budgets and index do not read the admission counter. */
  lemma OnlyCounted(c: Config, s: State, s': State)
    requires Budgets(c, s) && Indexed(s) && s' == s.(nextAdmission := s'.nextAdmission)
    ensures Budgets(c, s') && Indexed(s') && |s.sessions| <= c.connCapacity
  {
  }

  lemma AttachOk(c: Config, s: State, id: nat, verdict: Verdict)
    requires Healthy(c, s) && id in s.sessions && !s.sessions[id].closing && s.sessions[id].intent == Nothing
    ensures Healthy(c, HandleAttach(c, s, id, verdict))
  {
    hide Budgets, Indexed, Settled;
    var x := s.sessions[id];
    assert SessionOk(s.log, x);
    if x.stage != Pending || s.fetchUsed >= c.fetchCapacity {
      EndingOk(c, s, id, Decline);
    } else if verdict != Reserved {
      var s1 := s.(nextAdmission := s.nextAdmission + 1);
      SettledPutNothing(s, s1);
      OnlyCounted(c, s, s1);
      EndingOk(c, s1, id, Decline);
    } else {
      var s' := HandleAttach(c, s, id, verdict);
      var h := s.nextAdmission;
      var y := x.(reservation := Some(h), fetchReserved := true, intent := Accept, admission := Some(h));
      SettledGrant(s, s', id, y);
      assert s'.sessions.Keys == s.sessions.Keys;
      assert |s'.sessions| == |s'.sessions.Keys| && |s.sessions| == |s.sessions.Keys|;
      OnlyCounted(c, s, s);
      BudgetsPut(c, s, s', id, y);
      IndexedPut(s, s', id, y);
      OneSession(c, s, s', id, y);
    }
  }

  lemma ReceiveOk(c: Config, s: State, id: nat, established: bool, body: Body)
    requires Healthy(c, s)
    ensures Healthy(c, Receive(c, s, id, established, body))
  {
    hide Budgets, Indexed, Settled, Ending, HandleAttach;
    if id in s.sessions && !s.sessions[id].closing && s.sessions[id].intent == Nothing {
      var x := s.sessions[id];
      assert SessionOk(s.log, x);
      EndingOk(c, s, id, Close);
      EndingOk(c, s, id, Decline);
      if !established && x.stage == Pending && body.Attach? {
        var y := x.(attachAttempts := x.attachAttempts + 1);
        var s1 := Put(s, id, y);
        QuietPut(c, s, s1, id, y);
        EndingOk(c, s1, id, Close);
        EndingOk(c, s1, id, Decline);
        if body.ingress.Allowed? {
          AttachOk(c, s1, id, body.ingress.verdict);
        }
      }
    }
  }

  lemma ExpireOk(c: Config, s: State, id: nat, now: int)
    requires Healthy(c, s)
    ensures Healthy(c, Expire(s, id, now))
  {
    hide Budgets, Indexed, Settled, Ending;
    if id in s.sessions {
      assert SessionOk(s.log, s.sessions[id]);
      EndingOk(c, s, id, Close);
    }
  }

  lemma FailedOk(c: Config, s: State, id: nat, now: int)
    requires AllBut(c, s, id) && id in s.sessions && SessionOk(s.log, s.sessions[id])
    requires s.sessions[id].stage == Fetching && s.sessions[id].intent == Nothing && !s.sessions[id].closing
    ensures Healthy(c, Failed(c, s, id, now))
  {
    hide Budgets, Indexed, Settled, Ending;
    var x := s.sessions[id];
    var failures := x.failures + 1;
    var y := x.(failures := failures);
    var s1 := Put(s, id, y);
    QuietPut(c, s, s1, id, y);
    EndingOk(c, s1, id, Decline);
    var z := y.(fetchDue := now + c.retryDelay(failures));
    QuietPut(c, s1, Put(s1, id, z), id, z);
  }

  lemma CompleteOk(c: Config, s: State, done: Completion, now: int)
    requires Healthy(c, s)
    ensures Healthy(c, Complete(c, s, done, now))
  {
    hide Budgets, Settled, Ending, Failed, ReleaseFetch;
    if done.attempt in s.attempts {
      var id := s.attempts[done.attempt];
      var x := s.sessions[id];
      assert SessionOk(s.log, x) && x.activeAttempt == Some(done.attempt);
      var s2 := CancelAttempt(s, id);
      var y := x.(activeAttempt := None);
      CancelOk(c, s, id);
      OneSession(c, s, s2, id, y);
      match done.outcome
      case NotEligible => EndingOk(c, s2, id, Decline);
      case FetchUnavailable => FailedOk(c, s2, id, now);
      case FetchOk =>
        FetchReleased(c, s2, id);
        var s3 := ReleaseFetch(s2, id);
        var z := y.(fetchReserved := false);
        var w := z.(intent := Handoff);
        QuietPut(c, s3, Put(s3, id, w), id, w);
        OneSession(c, s3, Put(s3, id, w), id, w);
    }
  }

  lemma TimeOutOk(c: Config, s: State, id: nat, now: int)
    requires Healthy(c, s)
    ensures Healthy(c, TimeOut(c, s, id, now))
  {
    hide Budgets, Indexed, Settled, Failed, CancelAttempt;
    if id in s.sessions && s.sessions[id].activeAttempt.Some? {
      var x := s.sessions[id];
      assert SessionOk(s.log, x);
      CancelOk(c, s, id);
      OneSession(c, s, CancelAttempt(s, id), id, x.(activeAttempt := None));
      FailedOk(c, CancelAttempt(s, id), id, now);
    }
  }

  // ---------------------------------------------------------------------------------------
  // Phases that may stop the pipeline

  lemma StoppedOk(c: Config, f: Frame, s: State, s1: State)
    requires Healthy(c, s) && Lists(f.order)
    requires s1.sessions == s.sessions && s1.fetchUsed == s.fetchUsed && s1.log == s.log && s1.granted == s.granted
    requires s1.nextAdmission == s.nextAdmission
    ensures AtRest(c, MarkUnhealthy(f, s1))
  {
    hide Settled, MarkUnhealthy;
    SettledPutNothing(s, s1);
    forall id | id in s1.sessions
      ensures Admitted(s1.log, s1.sessions[id])
    {
      assert SessionOk(s.log, s.sessions[id]);
    }
    UnhealthyOk(c, f, s1);
  }

  lemma IndexedSubmit(s: State, s': State, id: nat, x: Session)
    requires Indexed(s) && id in s.sessions && s.sessions[id].activeAttempt.None? && x.activeAttempt == Some(s.nextAttempt)
    requires s'.sessions == s.sessions[id := x] && s'.attempts == s.attempts[s.nextAttempt := id] && s'.nextAttempt == s.nextAttempt + 1
    ensures Indexed(s')
  {
  }

  lemma StillHealthy(c: Config, s: State)
    requires Inv(c, s) && s.healthy
    ensures Healthy(c, s)
  {
  }

  lemma SubmitOk(c: Config, f: Frame, s: State, id: nat)
    requires Inv(c, s) && Lists(f.order)
    ensures Inv(c, Submit(c, f, s, id))
  {
    hide Budgets, Indexed, Settled, AtRest, MarkUnhealthy;
    if s.healthy && id in s.sessions {
      StillHealthy(c, s);
      var x := s.sessions[id];
      var a := s.nextAttempt;
      var s1 := s.(nextAttempt := a + 1);
      var s' := Submit(c, f, s, id);
      assert SessionOk(s.log, x);
      StoppedOk(c, f, s, s1);
      QuietPut(c, s, s1, id, x) by { assert s.sessions[id := x] == s.sessions; }
      var y := x.(activeAttempt := Some(a), attemptDeadline := f.now + c.fetchTimeout);
      if s' != s && f.submit(a) == Queued {
        assert s'.sessions == s.sessions[id := y] && s'.attempts == s.attempts[a := id];
        BudgetsKept(c, s, s', id, y);
        IndexedSubmit(s, s', id, y);
        SettledPut(s, s', id, y);
        OneSession(c, s, s', id, y);
      }
    }
  }

  lemma FlushAcceptOk(c: Config, f: Frame, s: State, id: nat)
    requires Healthy(c, s) && Lists(f.order) && id in s.sessions && s.sessions[id].intent == Accept
    ensures Inv(c, FlushAccept(c, f, s, id))
    ensures s.sessions[id].reservation.Some?
  {
    var x := s.sessions[id];
    assert SessionOk(s.log, x);
    var h := x.reservation.value;
    assert Holding(s, id, h) && !Spent(s.log, h);
    hide Budgets, Indexed, Settled, AtRest, MarkUnhealthy, ReleaseFetch;
    var y := x.(reservation := None);
    match f.deliver(id, Accept)
    case Full =>
    case Stopped =>
      var s1 := Put(s, id, y).(log := Mutated(s.log, h, Release));
      SettledSpend(s, s1, id, y, Release);
      SpentBooks(c, s, s1, id, y);
      forall other | other in s1.sessions
        ensures Admitted(s1.log, s1.sessions[other])
      {
        AdmittedLater(s.log, s1.log, s.sessions[other]) by { assert SessionOk(s.log, s.sessions[other]); }
      }
      UnhealthyOk(c, f, s1);
    case Queued =>
      var applied := f.commit(h);
      var s1 := Put(s, id, y).(log := Mutated(s.log, h, Commit(applied)));
      SettledSpend(s, s1, id, y, Commit(applied));
      SpentBooks(c, s, s1, id, y);
      assert s1.log[|s.log|] == Mutation(h, Commit(applied));
      CommitFlushed(c, f, s, s1, id, applied);
  }

  lemma SpentBooks(c: Config, s: State, s1: State, id: nat, y: Session)
    requires Books(c, s) && Settled(s1) && id in s.sessions && y == s.sessions[id].(reservation := None)
    requires s1.sessions == s.sessions[id := y] && s1.attempts == s.attempts && s1.fetchUsed == s.fetchUsed
    requires s1.nextAttempt == s.nextAttempt
    ensures Books(c, s1)
  {
    hide Settled;
    assert |s1.sessions.Keys| == |s.sessions.Keys|;
    assert |s1.sessions| == |s1.sessions.Keys| && |s.sessions| == |s.sessions.Keys|;
    BudgetsPut(c, s, s1, id, y);
    IndexedPut(s, s1, id, y);
  }

  /** The transport took the accept: go on fetching if and only if the commit was applied. */
  lemma CommitFlushed(c: Config, f: Frame, s: State, s1: State, id: nat, applied: bool)
    requires Healthy(c, s) && Books(c, s1) && id in s.sessions && s.sessions[id].intent == Accept && s1.healthy
    requires s1.sessions == s.sessions[id := s.sessions[id].(reservation := None)] && s.log <= s1.log
    requires s.sessions[id].reservation.Some? && Mutation(s.sessions[id].reservation.value, Commit(applied)) in s1.log
    ensures var s' := if applied then Put(s1, id, s1.sessions[id].(stage := Fetching, fetchDue := f.now, intent := Nothing))
                      else Put(ReleaseFetch(s1, id), id, ReleaseFetch(s1, id).sessions[id].(closing := true, intent := Close));
            Healthy(c, s')
  {
    hide Budgets, Indexed, Settled, ReleaseFetch;
    var x := s.sessions[id];
    assert SessionOk(s.log, x);
    assert AllBut(c, s1, id) by {
      forall other | other in s1.sessions && other != id
        ensures SessionOk(s1.log, s1.sessions[other])
      {
        OkLater(s.log, s1.log, s.sessions[other]);
      }
    }
    if applied {
      var y := s1.sessions[id].(stage := Fetching, fetchDue := f.now, intent := Nothing);
      QuietPut(c, s1, Put(s1, id, y), id, y);
    } else {
      FetchReleased(c, s1, id);
      var s2 := ReleaseFetch(s1, id);
      var z := s2.sessions[id].(closing := true, intent := Close);
      assert AllBut(c, s2, id);
      QuietPut(c, s2, Put(s2, id, z), id, z);
    }
  }

  lemma FlushRestOk(c: Config, f: Frame, s: State, id: nat, kind: Intent)
    requires Healthy(c, s) && Lists(f.order) && id in s.sessions && s.sessions[id].intent == kind
    ensures kind == Handoff ==> Inv(c, FlushHandoff(c, f, s, id))
    ensures kind == Close || kind == Decline ==> Inv(c, FlushEnding(f, s, id, kind))
  {
    hide Budgets, Indexed, Settled, AtRest, MarkUnhealthy, Ending;
    var x := s.sessions[id];
    assert SessionOk(s.log, x);
    if kind != Accept {
      assert Put(s, id, x.(reservation := None)).sessions == s.sessions;
      StoppedOk(c, f, s, Put(s, id, x.(reservation := None)));
      EndingOk(c, s, id, Close);
      var y := x.(stage := HandedOff, handoffDeadline := Some(f.now + c.handoffGrace), intent := Nothing);
      var z := x.(closing := true, intent := Nothing, handoffDeadline := if kind == Close then None else x.handoffDeadline);
      QuietPut(c, s, Put(s, id, y), id, y);
      QuietPut(c, s, Put(s, id, z), id, z);
    }
  }

  lemma FlushOk(c: Config, f: Frame, s: State, id: nat, kind: Intent)
    requires Inv(c, s) && Lists(f.order)
    ensures Inv(c, Flush(c, f, s, id, kind))
  {
    hide Healthy, AtRest, FlushAccept, FlushHandoff, FlushEnding;
    if s.healthy && id in s.sessions && s.sessions[id].intent == kind {
      StillHealthy(c, s);
      if kind == Accept {
        FlushAcceptOk(c, f, s, id);
      } else {
        FlushRestOk(c, f, s, id, kind);
      }
    }
  }

  // ---------------------------------------------------------------------------------------
  // Whole frames and whole runs

  lemma {:induction false} EventsOk(c: Config, s: State, es: seq<EdgeEvent>)
    requires Healthy(c, s)
    ensures Healthy(c, Lifecycles(c, s, es)) && Healthy(c, Messages(c, s, es))
  {
    hide Healthy, Lifecycle, Receive;
    if es != [] {
      var rest, e := es[..|es| - 1], es[|es| - 1];
      EventsOk(c, s, rest);
      LifecycleOk(c, Lifecycles(c, s, rest), e);
      if e.Received? {
        ReceiveOk(c, Messages(c, s, rest), e.id, e.established, e.body);
      }
    }
  }

  lemma {:induction false} DeadlinesOk(c: Config, s: State, ids: seq<nat>, now: int)
    requires Healthy(c, s)
    ensures Healthy(c, Expiries(s, ids, now)) && Healthy(c, TimeOuts(c, s, ids, now))
  {
    hide Healthy, Expire, TimeOut;
    if ids != [] {
      var rest, id := ids[..|ids| - 1], ids[|ids| - 1];
      DeadlinesOk(c, s, rest, now);
      ExpireOk(c, Expiries(s, rest, now), id, now);
      TimeOutOk(c, TimeOuts(c, s, rest, now), id, now);
    }
  }

  lemma {:induction false} CompletionsOk(c: Config, s: State, done: seq<Completion>, now: int)
    requires Healthy(c, s)
    ensures Healthy(c, Completions(c, s, done, now))
  {
    hide Healthy, Complete;
    if done != [] {
      CompletionsOk(c, s, done[..|done| - 1], now);
      CompleteOk(c, Completions(c, s, done[..|done| - 1], now), done[|done| - 1], now);
    }
  }

  lemma {:induction false} SubmitsOk(c: Config, f: Frame, s: State, ids: seq<nat>)
    requires Inv(c, s) && Lists(f.order)
    ensures Inv(c, Submits(c, f, s, ids))
  {
    hide Inv, Submit;
    if ids != [] {
      SubmitsOk(c, f, s, ids[..|ids| - 1]);
      SubmitOk(c, f, Submits(c, f, s, ids[..|ids| - 1]), ids[|ids| - 1]);
    }
  }

  lemma {:induction false} FlushAllOk(c: Config, f: Frame, s: State, ids: seq<nat>, kind: Intent)
    requires Inv(c, s) && Lists(f.order)
    ensures Inv(c, FlushAll(c, f, s, ids, kind))
  {
    hide Inv, Flush;
    if ids != [] {
      FlushAllOk(c, f, s, ids[..|ids| - 1], kind);
      FlushOk(c, f, FlushAll(c, f, s, ids[..|ids| - 1], kind), ids[|ids| - 1], kind);
    }
  }

  lemma {:induction false} FlushKindsOk(c: Config, f: Frame, s: State, ids: seq<nat>, kinds: nat)
    requires Inv(c, s) && Lists(f.order) && kinds <= |PRIORITY|
    ensures Inv(c, FlushKinds(c, f, s, ids, kinds))
  {
    hide Inv, FlushAll;
    if kinds != 0 {
      FlushKindsOk(c, f, s, ids, kinds - 1);
      FlushAllOk(c, f, FlushKinds(c, f, s, ids, kinds - 1), ids, PRIORITY[kinds - 1]);
    }
  }

  lemma AdvanceOk(c: Config, f: Frame, s: State)
    requires Inv(c, s) && Lists(f.order)
    ensures Inv(c, Advance(c, f, s))
  {
    hide Healthy, AtRest, Lifecycles, Messages, Expiries, Completions, TimeOuts, Submits, FlushKinds;
    if s.healthy {
      StillHealthy(c, s);
      EventsOk(c, s, f.events);
      var s0 := Lifecycles(c, s, f.events);
      EventsOk(c, s0, f.events);
      var s1 := Messages(c, s0, f.events);
      DeadlinesOk(c, s1, f.order(s1.sessions.Keys), f.now);
      var s2 := Expiries(s1, f.order(s1.sessions.Keys), f.now);
      CompletionsOk(c, s2, f.completions, f.now);
      var s3 := Completions(c, s2, f.completions, f.now);
      DeadlinesOk(c, s3, f.order(s3.sessions.Keys), f.now);
      var s4 := TimeOuts(c, s3, f.order(s3.sessions.Keys), f.now);
      SubmitsOk(c, f, s4, f.order(s4.sessions.Keys));
      var s5 := Submits(c, f, s4, f.order(s4.sessions.Keys));
      FlushKindsOk(c, f, s5, Ascending(s5.sessions.Keys), |PRIORITY|);
    }
  }

  lemma {:induction false} Reachable(c: Config, fs: seq<Frame>)
    requires forall i :: 0 <= i < |fs| ==> Lists(fs[i].order)
    ensures Inv(c, Run(c, fs))
  {
    if fs == [] {
      assert Reserving(START.sessions) == {};
    } else {
      hide Inv, Advance, Lists;
      Reachable(c, fs[..|fs| - 1]);
      AdvanceOk(c, fs[|fs| - 1], Run(c, fs[..|fs| - 1]));
    }
  }

  function MutationsOf(log: seq<Mutation>, h: nat): seq<Mutation> {
    if log == [] then []
    else MutationsOf(log[..|log| - 1], h) + (if log[|log| - 1].handle == h then [log[|log| - 1]] else [])
  }

  lemma {:induction false} OnceEach(log: seq<Mutation>, h: nat)
    requires forall i, j :: 0 <= i < j < |log| ==> log[i].handle != log[j].handle
    ensures |MutationsOf(log, h)| == if Spent(log, h) then 1 else 0
  {
    if log != [] {
      var n := |log| - 1;
      OnceEach(log[..n], h);
      SpentLast(log, h);
      if Spent(log[..n], h) {
        var i :| 0 <= i < n && log[..n][i].handle == h;
        assert log[i].handle == h;
      }
    }
  }

  lemma SpentLast(log: seq<Mutation>, h: nat)
    requires log != []
    ensures Spent(log, h) <==> Spent(log[..|log| - 1], h) || log[|log| - 1].handle == h
  {
    var rest := log[..|log| - 1];
    assert forall i :: 0 <= i < |rest| ==> rest[i] == log[i];
    if Spent(rest, h) {
      var i :| 0 <= i < |rest| && rest[i].handle == h;
      assert log[i].handle == h;
    }
  }

  /** Over a whole run each reservation handle asks the store for at most one mutation, a commit
      or a release and never both; and it is still owed one exactly while a session holds it. */
  lemma HandlesSettledOnce(c: Config, fs: seq<Frame>, h: nat)
    requires forall i :: 0 <= i < |fs| ==> Lists(fs[i].order)
    requires h in Run(c, fs).granted
    ensures var s := Run(c, fs);
            && |MutationsOf(s.log, h)| <= 1
            && (|MutationsOf(s.log, h)| == 0 <==> exists id :: Holding(s, id, h))
            && (!s.healthy ==> |MutationsOf(s.log, h)| == 1)
  {
    hide Run, Budgets, Indexed, Lists;
    var s := Run(c, fs);
    Reachable(c, fs);
    OnceEach(s.log, h);
    if id :| Holding(s, id, h) {
      assert !Spent(s.log, h);
    }
  }

  /** Whenever the pipeline is destroyed, its destructor releases just as a stop does, and every
      handle ever granted has had its one mutation. */
  lemma DestructionSettlesAll(c: Config, fs: seq<Frame>, f: Frame, h: nat)
    requires (forall i :: 0 <= i < |fs| ==> Lists(fs[i].order)) && Lists(f.order) && h in Run(c, fs).granted
    ensures |MutationsOf(MarkUnhealthy(f, Run(c, fs)).log, h)| == 1
  {
    var s := Run(c, fs);
    Reachable(c, fs);
    assert Budgets(c, s) && Settled(s) && forall id :: id in s.sessions ==> Admitted(s.log, s.sessions[id]);
    hide Run, Budgets, Indexed, Lists, Stop, Admitted, SessionOk;
    UnhealthyOk(c, f, s);
    StopGrantsNothing(s, f.order(s.sessions.Keys));
    OnceEach(MarkUnhealthy(f, s).log, h);
    assert forall id :: !Holding(MarkUnhealthy(f, s), id, h);
  }

  lemma {:induction false} StopGrantsNothing(s: State, ids: seq<nat>)
    ensures Stop(s, ids).granted == s.granted
  {
    if ids != [] {
      StopGrantsNothing(s, ids[..|ids| - 1]);
    }
  }

  /** A session past the pending stage was admitted: the store applied its handle's commit. */
  lemma BeyondPendingMeansCommitted(c: Config, fs: seq<Frame>, id: nat)
    requires forall i :: 0 <= i < |fs| ==> Lists(fs[i].order)
    requires id in Run(c, fs).sessions && Run(c, fs).sessions[id].stage != Pending
    ensures var s := Run(c, fs);
            s.sessions[id].admission.Some? && Mutation(s.sessions[id].admission.value, Commit(true)) in s.log
  {
    hide Run, Budgets, Indexed, Settled, Lists;
    Reachable(c, fs);
  }

  /** Both budgets are exact and never exceeded, so what is reported as free never underflows;
      an ending session holds nothing. */
  lemma BudgetsExact(c: Config, fs: seq<Frame>, id: nat)
    requires forall i :: 0 <= i < |fs| ==> Lists(fs[i].order)
    ensures var s := Run(c, fs);
            && 0 <= c.fetchCapacity - s.fetchUsed <= c.fetchCapacity && s.fetchUsed == |Reserving(s.sessions)|
            && 0 <= c.connCapacity - |s.sessions| && (s.healthy ==> Indexed(s))
            && (s.healthy && id in s.sessions && s.sessions[id].closing ==>
                  !s.sessions[id].fetchReserved && s.sessions[id].activeAttempt.None? && s.sessions[id].reservation.None?)
  {
    hide Run, Indexed, Settled, Lists;
    Reachable(c, fs);
  }
}
