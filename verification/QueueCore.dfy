/** The queue core as the program keeps it. */
module QueueCore {
  import opened Basics
  import opened Clock
  import opened Credentials
  import opened QueueLedger

  /** Reject a snapshot whose watermarks or batches do not tile.  The watermark below `next`
      keeps both increments inside 64 bits. */
  method Validate(l: Ledger) returns (ok: bool)
    ensures ok <==> Sound(l)
  {
    if l.released >= l.next || l.prunedThrough > l.released {
      return false;
    }
    var expected := l.prunedThrough + 1;
    var previousTime := 0;
    var first := true;
    var i := 0;
    while i < |l.batches|
      invariant i <= |l.batches| && TilesTo(l, i) && expected == Expected(l, i)
      invariant first == (i == 0) && (i > 0 ==> previousTime == l.batches[i - 1].releasedAt)
    {
      var b := l.batches[i];
      if b.first != expected || b.last < b.first || b.last > l.released || (!first && b.releasedAt < previousTime) {
        assert !Continues(l, i);
        return false;
      }
      assert Continues(l, i);
      expected := b.last + 1;
      previousTime := b.releasedAt;
      first := false;
      i := i + 1;
    }
    ok := expected == l.released + 1;
  }

  class QueueCore {
    const step: nat
    const window: int
    var released: nat
    var next: nat
    var batches: seq<Batch>
    var prunedThrough: nat

    function View(): Ledger
      reads this
    {
      Ledger(released, next, prunedThrough, batches)
    }

    ghost predicate Valid()
      reads this
    {
      Sound(View())
    }

    constructor (step: nat, window: int)
      requires 0 < window <= GRANT_MAX_WINDOW
      ensures this.step == step && this.window == window && View() == EMPTY && Valid()
    {
      this.step, this.window := step, window;
      released, next, batches, prunedThrough := 0, 1, [], 0;
    }

    method PruneReleaseBatches(now: int)
      modifies this
      ensures View() == Pruned(old(View()), window, now)
    {
      while batches != [] && now > Deadline(batches[0], window)
        invariant Pruned(View(), window, now) == Pruned(old(View()), window, now)
        decreases |batches|
      {
        prunedThrough := batches[0].last;
        batches := batches[1..];
      }
    }

    /** Throws, having changed nothing, only if the clock went back across batches. */
    method ReleaseBatch(budgets: Budgets, now: int) returns (batch: Option<nat>)
      requires Valid()
      modifies this
      ensures Valid()
      ensures batch == if Release(old(View()), step, window, budgets, now).Some?
                       then Some(BatchSize(old(View()), step, budgets)) else None
      ensures View() == if batch.Some? then Release(old(View()), step, window, budgets, now).value else old(View())
    {
      var allowance := MinNat(MinNat(budgets.gatewayAdmission, budgets.realmConnections), step);
      var issuedAhead := next - 1 - released;
      var size := MinNat(allowance, issuedAhead);
      PruneSound(View(), window, now);
      if size != 0 {
        var releasedAt := Normalized(now);
        if batches != [] && releasedAt < batches[|batches| - 1].releasedAt {
          return None;
        }
        ExtendedSound(View(), size, now);
        PruneSound(Extended(View(), size, now), window, now);
        var previous := released;
        released := released + size;
        batches := batches + [Batch(previous + 1, previous + size, releasedAt)];
      }
      PruneReleaseBatches(now);
      batch := Some(size);
    }

    method ReleaseEligibility(number: nat, now: int) returns (e: Eligibility)
      ensures e == EligibilityOf(View(), window, number, now)
    {
      if number == 0 || number > released {
        return Eligibility(NotReleased, None);
      }
      if number <= prunedThrough {
        return Eligibility(Expired, None);
      }
      var i := 0;
      while i < |batches|
        invariant i <= |batches| && BatchOf(batches, number, 0) == BatchOf(batches, number, i)
      {
        var b := batches[i];
        if number < b.first {
          break;
        }
        if number <= b.last {
          return Eligibility(if now > b.releasedAt + window * TICKS + LEEWAY then Expired else Eligible, Some(b.releasedAt));
        }
        i := i + 1;
      }
      e := Eligibility(Expired, None);
    }

    method Snapshot() returns (l: Ledger)
      ensures l == View()
    {
      l := Ledger(released, next, prunedThrough, batches);
    }

    /** `false` where the program throws. */
    method Restore(l: Ledger, now: int) returns (ok: bool)
      modifies this
      ensures ok <==> Restorable(l, now)
      ensures View() == if ok then Pruned(l, window, now) else old(View())
      ensures ok ==> Valid()
    {
      var valid := Validate(l);
      if !valid {
        return false;
      }
      var i := 0;
      while i < |l.batches|
        invariant i <= |l.batches| && forall j :: 0 <= j < i ==> l.batches[j].releasedAt <= now + LEEWAY
      {
        if l.batches[i].releasedAt > now + LEEWAY {
          return false;
        }
        i := i + 1;
      }
      PruneSound(l, window, now);
      released, next, prunedThrough, batches := l.released, l.next, l.prunedThrough, l.batches;
      PruneReleaseBatches(now);
      ok := true;
    }
  }

  lemma PruneSound(l: Ledger, window: int, now: int)
    requires Sound(l)
    ensures Sound(Pruned(l, window, now))
  {
    PruneKeepsEligibility(l, window, now, 0, now);
  }
}
