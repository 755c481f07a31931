/** The queue service as the program runs it: one core, one store, and the store's two kinds of
    keys.  Every operation is the step of the queue system of the same name. */
module QueueService {
  import opened Basics
  import opened Clock
  import opened Credentials
  import opened QueueLedger
  import opened QueueSystem
  import QueueCore

  datatype Saving = Saved | NotSaved | Threw
  datatype Outcome = Done(released: nat) | ClockWentBack | SaveThrew

  class QueueService {
    const step: nat
    const window: int
    var core: QueueCore.QueueCore
    var running: bool
    var uncertain: bool
    var snapshot: Option<Ledger>
    var issuances: map<Jti, Issuance>
    ghost var floating: seq<Write>
    ghost var given: seq<(Jti, nat)>
    ghost var times: seq<int>
    ghost var clock: int

    ghost function View(): System
      reads this, core
    {
      System(core.View(), running, uncertain, snapshot, issuances, floating, given, times, clock)
    }

    ghost function Settings(): Config { Config(step, window) }

    ghost predicate Valid()
      reads this, core
    {
      ValidConfig(Settings()) && core.step == step && core.window == window && Whole(View())
    }

    constructor (step: nat, window: int, clock: int)
      requires 0 < window <= GRANT_MAX_WINDOW
      ensures this.step == step && this.window == window && Valid() && fresh(core) && View() == QueueSystem.Start(clock)
    {
      this.step, this.window := step, window;
      core := new QueueCore.QueueCore(step, window);
      running, uncertain, snapshot, issuances := false, false, None, map[];
      this.floating, this.given, this.times, this.clock := [], [], [], clock;
      new;
      StartGood(Settings(), clock);
    }

    ghost method Tick(now: int)
      requires Valid()
      modifies this`clock
      ensures Valid() && View() == At(old(View()), now)
    {
      if clock < now {
        clock := now;
      }
    }

    /** The store's transaction, its answer, and the read-back of a lost one.  `None` is the
        answer that no issue may be confirmed. */
    method IssueOrRecover(identity: Jti, issuedAt: int, expiresAt: int, delivery: Delivery) returns (told: Option<Issuance>)
      requires Valid() && !delivery.NotSent? && !uncertain
      modifies this`snapshot, this`issuances, this`uncertain, this`given, this`floating
      ensures var w := TransactionOf(old(View()), identity, issuedAt, expiresAt);
              var t := if delivery.Answered? || delivery.landed then Landed(old(View()), w)
                       else old(View()).(floating := old(floating) + [w]);
              && told == (if delivery.Lost? && !delivery.readBack then None else Recovered(t, identity, expiresAt))
              && View() == t.(uncertain := told.None?)
    {
      var number := core.next;
      var committed := core.Snapshot();
      committed := committed.(next := number + 1);
      if delivery.Answered? || delivery.landed {
        if identity !in issuances {
          snapshot := Some(committed);
          issuances := issuances[identity := Issuance(number, issuedAt, expiresAt)];
          given := given + [(identity, number)];
        }
      } else {
        floating := floating + [Transaction(committed, identity, Issuance(number, issuedAt, expiresAt))];
      }
      told := None;
      if (delivery.Answered? || delivery.readBack) && identity in issuances && snapshot.Some? {
        var found := issuances[identity];
        if found.expiresAt == expiresAt && found.expiresAt > found.issuedAt && snapshot.value.next > found.number {
          told := Some(found);
        }
      }
      uncertain := told.None?;
    }

    method Issue(identity: Jti, expiresAt: int, now: int, delivery: Delivery) returns (answer: Answer)
      requires Valid()
      modifies this, core
      ensures (View(), answer) == Issued(Settings(), At(old(View()), now), identity, expiresAt, now, delivery)
      ensures Valid() && core == old(core)
    {
      hide Sound, WriteOk, Shown, Pruned;
      WholeStep(Settings(), View(), Event.Issue(identity, expiresAt, now, delivery));
      Tick(now);
      if !running || uncertain {
        return Unavailable;
      }
      if identity == [] || Seconds(now) < 0 || Seconds(expiresAt) <= Seconds(now) || core.next == UINT64_MAX {
        return Throws;
      }
      if delivery.NotSent? {
        return Unavailable;
      }
      var told := IssueOrRecover(identity, Seconds(now), Seconds(expiresAt), delivery);
      if told.None? {
        return Unavailable;
      }
      var ok := core.Restore(snapshot.value, now);
      if ok {
        times := Shown(times, snapshot.value);
      }
      answer := if ok then Told(told.value) else Throws;
    }

    /** One release frame: publish the batch once it is saved, roll it back if the save fails or
        throws.  The roll-back itself never fails. */
    method ReleaseFrame(budgets: Budgets, now: int, saving: Saving, landed: bool) returns (outcome: Outcome)
      requires Valid() && running
      modifies this, core
      ensures View() == Released(Settings(), At(old(View()), now), budgets, now, saving.Saved?, landed)
      ensures Valid() && core == old(core)
      ensures outcome.ClockWentBack? <==> QueueLedger.Release(old(core.View()), step, window, budgets, now).None?
      ensures outcome.SaveThrew? <==>
                saving.Threw? && !old(uncertain) && !outcome.ClockWentBack? && BatchSize(old(core.View()), step, budgets) > 0
    {
      hide Sound, WriteOk, Shown;
      WholeStep(Settings(), View(), Event.Release(budgets, now, saving.Saved?, landed));
      Tick(now);
      var before := core.Snapshot();
      var batch := core.ReleaseBatch(budgets, now);
      if batch.None? {
        return ClockWentBack;
      }
      if batch.value == 0 {
        return Done(0);
      }
      if !uncertain {
        var saved := core.Snapshot();
        if saving.Saved? || landed {
          snapshot := Some(saved);
        } else {
          floating := floating + [Save(saved, before.released, Normalized(now))];
        }
        if saving.Saved? {
          times := Shown(times, saved);
          return Done(batch.value);
        }
      }
      RollbackNeverThrows(before, step, window, budgets, now);
      var ok := core.Restore(before, now);
      assert ok;
      outcome := if saving.Threw? && !uncertain then SaveThrew else Done(0);
    }

    /** The mappings fit the snapshot they are stored with. */
    method CheckMappings(l: Ledger) returns (ok: bool)
      ensures ok <==> MappingsFit(View(), l)
    {
      var pending := issuances.Keys;
      var numbers: set<nat> := {};
      while pending != {}
        invariant pending <= issuances.Keys
        invariant forall id :: id in issuances && id !in pending ==>
                    0 < issuances[id].number < l.next && issuances[id].expiresAt > issuances[id].issuedAt && issuances[id].number in numbers
        invariant forall n :: n in numbers ==> exists id :: id in issuances && id !in pending && issuances[id].number == n
        invariant forall a, b :: (a in issuances && b in issuances && a !in pending && b !in pending
                                  && issuances[a].number == issuances[b].number) ==> a == b
        decreases |pending|
      {
        var id :| id in pending;
        var mapping := issuances[id];
        if mapping.number == 0 || mapping.number >= l.next || mapping.expiresAt <= mapping.issuedAt || mapping.number in numbers {
          return false;
        }
        pending := pending - {id};
        numbers := numbers + {mapping.number};
      }
      ok := true;
    }

    /** A core restored from the snapshot, or null where the startup throws. */
    method LoadCore(l: Ledger, now: int) returns (loaded: QueueCore.QueueCore?)
      requires 0 < window <= GRANT_MAX_WINDOW
      ensures loaded != null <==> MappingsFit(View(), l) && Restorable(l, now)
      ensures loaded != null ==>
                fresh(loaded) && loaded.step == step && loaded.window == window && loaded.View() == Pruned(l, window, now)
    {
      hide Pruned;
      var fits := CheckMappings(l);
      loaded := null;
      if fits {
        var restored := new QueueCore.QueueCore(step, window);
        var ok := restored.Restore(l, now);
        loaded := if ok then restored else null;
      }
    }

    method Start(now: int, newProcess: bool)
      requires Valid()
      modifies this
      ensures View() == Restarted(Settings(), At(old(View()), now), now, newProcess) && Valid()
    {
      hide Sound, WriteOk, Pruned, Restorable, Shown;
      WholeStep(Settings(), View(), Event.Restart(now, newProcess));
      Tick(now);
      if snapshot.Some? {
        var loaded := LoadCore(snapshot.value, now);
        running := loaded != null;
        if loaded != null {
          core := loaded;
          times := Shown(times, snapshot.value);
        }
      } else {
        running := issuances == map[];
        if running {
          core := new QueueCore.QueueCore(step, window);
        }
      }
      uncertain := uncertain && !newProcess;
    }
  }
}
