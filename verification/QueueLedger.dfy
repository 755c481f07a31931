/** The release ledger of the queue: which numbers have been released, in which batches and
    when, and which of them may still be exchanged for a grant. */
module QueueLedger {
  import opened Basics
  import opened Clock
  import opened Credentials

  datatype Batch = Batch(first: nat, last: nat, releasedAt: int)

  /** The ledger proper; a snapshot also carries a measured rate, which nothing here reads. */
  datatype Ledger = Ledger(released: nat, next: nat, prunedThrough: nat, batches: seq<Batch>)

  datatype Status = NotReleased | Eligible | Expired
  datatype Eligibility = Eligibility(status: Status, releasedAt: Option<int>)

  const EMPTY := Ledger(0, 1, 0, [])

  /** The first number not yet covered by the first `n` batches. */
  function Expected(l: Ledger, n: nat): nat
    requires n <= |l.batches|
  {
    if n == 0 then l.prunedThrough + 1 else l.batches[n - 1].last + 1
  }

  /** The batch continues its predecessor, is not empty, stays within the watermark, and is not
      earlier. */
  ghost predicate Continues(l: Ledger, i: nat)
    requires i < |l.batches|
  {
    && l.batches[i].first == Expected(l, i) && l.batches[i].first <= l.batches[i].last <= l.released
    && (i > 0 ==> l.batches[i - 1].releasedAt <= l.batches[i].releasedAt)
  }

  ghost predicate TilesTo(l: Ledger, n: nat)
    requires n <= |l.batches|
  {
    forall i :: 0 <= i < n ==> Continues(l, i)
  }

  /** The batches are exactly (prunedThrough, released], in order. */
  ghost predicate Sound(l: Ledger) {
    && l.released < l.next && l.prunedThrough <= l.released && TilesTo(l, |l.batches|)
    && Expected(l, |l.batches|) == l.released + 1
  }

  predicate Holds(b: Batch, number: nat) { b.first <= number <= b.last }

  lemma {:induction false} FirstsAscend(l: Ledger, i: nat, j: nat)
    requires i <= j < |l.batches| && TilesTo(l, |l.batches|)
    ensures l.batches[i].releasedAt <= l.batches[j].releasedAt
    ensures i < j ==> l.batches[i].last < l.batches[j].first
  {
    if i < j {
      assert Continues(l, j) && Continues(l, j - 1);
      FirstsAscend(l, i, j - 1);
    }
  }

  /** Tiling, seen from the numbers: each number above the pruned ones and up to the watermark
      is in exactly one batch, and no other number is in any. */
  lemma {:induction false} EachNumberOnce(l: Ledger, n: nat, number: nat)
    requires n <= |l.batches| && TilesTo(l, |l.batches|)
    ensures l.prunedThrough < number < Expected(l, n) <==> exists i :: 0 <= i < n && Holds(l.batches[i], number)
    ensures forall i, j :: 0 <= i < n && 0 <= j < n && Holds(l.batches[i], number) && Holds(l.batches[j], number) ==> i == j
    ensures l.prunedThrough < Expected(l, n)
  {
    if n > 0 {
      assert Continues(l, n - 1);
      EachNumberOnce(l, n - 1, number);
      forall i | 0 <= i < n - 1
        ensures l.batches[i].last < l.batches[n - 1].first
      {
        FirstsAscend(l, i, n - 1);
      }
      if Holds(l.batches[n - 1], number) {
        assert exists i :: 0 <= i < n && Holds(l.batches[i], number);
      } else if exists i :: 0 <= i < n - 1 && Holds(l.batches[i], number) {
        var i :| 0 <= i < n - 1 && Holds(l.batches[i], number);
        assert 0 <= i < n && Holds(l.batches[i], number);
      }
    }
  }

  /** The first of the batches from `i` on that holds the number, or their count. */
  function BatchOf(bs: seq<Batch>, number: nat, i: nat): (r: nat)
    requires i <= |bs|
    ensures i <= r <= |bs| && (r < |bs| ==> Holds(bs[r], number))
    decreases |bs| - i
  {
    if i == |bs| || number < bs[i].first then |bs|
    else if number <= bs[i].last then i
    else BatchOf(bs, number, i + 1)
  }

  /** The last reading at which a release at `at` is good. */
  function Over(at: int, window: int): int { at + window * TICKS + LEEWAY }

  function Deadline(b: Batch, window: int): int { Over(b.releasedAt, window) }

  function EligibilityOf(l: Ledger, window: int, number: nat, now: int): Eligibility {
    if number == 0 || number > l.released then Eligibility(NotReleased, None)
    else if number <= l.prunedThrough then Eligibility(Expired, None)
    else
      var i := BatchOf(l.batches, number, 0);
      if i == |l.batches| then Eligibility(Expired, None)
      else Eligibility(if now > Deadline(l.batches[i], window) then Expired else Eligible, Some(l.batches[i].releasedAt))
  }

  /** When the number was released, if it is in a batch. */
  function TimeOf(l: Ledger, number: nat): Option<int> {
    if number == 0 || number > l.released || number <= l.prunedThrough then None
    else
      var i := BatchOf(l.batches, number, 0);
      if i == |l.batches| then None else Some(l.batches[i].releasedAt)
  }

  function Pruned(l: Ledger, window: int, now: int): Ledger
    decreases |l.batches|
  {
    if l.batches == [] || now <= Deadline(l.batches[0], window) then l
    else Pruned(l.(prunedThrough := l.batches[0].last, batches := l.batches[1..]), window, now)
  }

  // ---------------------------------------------------------------------------------------
  // Pruning

  lemma TailTiles(l: Ledger, t: Ledger)
    requires Sound(l) && l.batches != [] && t == l.(prunedThrough := l.batches[0].last, batches := l.batches[1..])
    ensures Sound(t)
  {
    assert Continues(l, 0);
    forall i | 0 <= i < |t.batches|
      ensures Continues(t, i)
    {
      assert Continues(l, i + 1) && t.batches[i] == l.batches[i + 1];
      assert i > 0 ==> t.batches[i - 1] == l.batches[i];
    }
  }

  lemma {:induction false} BatchOfShifted(bs: seq<Batch>, number: nat, i: nat)
    requires 1 <= i <= |bs|
    ensures BatchOf(bs[1..], number, i - 1) == BatchOf(bs, number, i) - 1
    decreases |bs| - i
  {
    if i < |bs| {
      assert bs[1..][i - 1] == bs[i];
      BatchOfShifted(bs, number, i + 1);
    }
  }

  /** Dropping one batch whose window is over. */
  lemma TailEligibility(l: Ledger, t: Ledger, window: int, now: int, number: nat, later: int)
    requires Sound(l) && l.batches != [] && t == l.(prunedThrough := l.batches[0].last, batches := l.batches[1..])
    requires now > Deadline(l.batches[0], window) && later >= now
    ensures EligibilityOf(t, window, number, later).status == EligibilityOf(l, window, number, later).status
    ensures EligibilityOf(t, window, number, later).status == Eligible ==>
              EligibilityOf(t, window, number, later) == EligibilityOf(l, window, number, later)
  {
    BatchOfShifted(l.batches, number, 1);
    assert Continues(l, 0);
    assert l.batches[0].first == l.prunedThrough + 1;
  }

  /** Pruning keeps the ledger sound, and every number's status at every later time; what stays
      eligible keeps its release time too. */
  lemma {:induction false} PruneKeepsEligibility(l: Ledger, window: int, now: int, number: nat, later: int)
    requires Sound(l) && later >= now
    ensures var p := Pruned(l, window, now);
            && Sound(p) && p.released == l.released && p.next == l.next
            && EligibilityOf(p, window, number, later).status == EligibilityOf(l, window, number, later).status
            && (EligibilityOf(p, window, number, later).status == Eligible ==>
                  EligibilityOf(p, window, number, later) == EligibilityOf(l, window, number, later))
    decreases |l.batches|
  {
    hide Sound, EligibilityOf;
    if l.batches != [] && now > Deadline(l.batches[0], window) {
      var t := l.(prunedThrough := l.batches[0].last, batches := l.batches[1..]);
      TailTiles(l, t);
      TailEligibility(l, t, window, now, number, later);
      PruneKeepsEligibility(t, window, now, number, later);
    }
  }

  /** Pruning drops no number whose window is not over, and moves none. */
  lemma {:induction false} PruneKeepsTimes(l: Ledger, window: int, now: int, number: nat)
    requires Sound(l)
    ensures var time, kept := TimeOf(l, number), TimeOf(Pruned(l, window, now), number);
            kept == time || (kept.None? && time.Some? && now > Over(time.value, window))
    decreases |l.batches|
  {
    if l.batches != [] && now > Deadline(l.batches[0], window) {
      var t := l.(prunedThrough := l.batches[0].last, batches := l.batches[1..]);
      TailTiles(l, t);
      BatchOfShifted(l.batches, number, 1);
      assert Continues(l, 0);
      assert TimeOf(t, number) == TimeOf(l, number)
             || (TimeOf(t, number).None? && TimeOf(l, number) == Some(l.batches[0].releasedAt));
      hide Sound, TimeOf;
      PruneKeepsTimes(t, window, now, number);
    }
  }

  // ---------------------------------------------------------------------------------------
  // Releasing

  datatype Budgets = Budgets(gatewayAdmission: nat, realmConnections: nat)

  function MinNat(a: nat, b: nat): nat { if a <= b then a else b }

  function BatchSize(l: Ledger, step: nat, b: Budgets): nat
    requires l.released < l.next
  {
    MinNat(MinNat(MinNat(b.gatewayAdmission, b.realmConnections), step), l.next - 1 - l.released)
  }

  /** The clock went back across batches: the release is refused and nothing changes. */
  predicate WentBack(l: Ledger, now: int) {
    l.batches != [] && Normalized(now) < l.batches[|l.batches| - 1].releasedAt
  }

  function Extended(l: Ledger, size: nat, now: int): Ledger {
    l.(released := l.released + size, batches := l.batches + [Batch(l.released + 1, l.released + size, Normalized(now))])
  }

  /** `None` where the program throws. */
  function Release(l: Ledger, step: nat, window: int, b: Budgets, now: int): Option<Ledger>
    requires l.released < l.next
  {
    var size := BatchSize(l, step, b);
    if size == 0 then Some(Pruned(l, window, now))
    else if WentBack(l, now) then None
    else Some(Pruned(Extended(l, size, now), window, now))
  }

  lemma ExtendedSound(l: Ledger, size: nat, now: int)
    requires Sound(l) && 0 < size < l.next - l.released && !WentBack(l, now)
    ensures Sound(Extended(l, size, now))
  {
    var e := Extended(l, size, now);
    forall i | 0 <= i < |e.batches|
      ensures Continues(e, i)
    {
      if i < |l.batches| {
        assert Continues(l, i) && e.batches[i] == l.batches[i];
      }
      assert 0 < i <= |l.batches| ==> e.batches[i - 1] == l.batches[i - 1];
    }
  }

  lemma {:induction false} BatchOfExtended(l: Ledger, b: Batch, number: nat, i: nat)
    requires i <= |l.batches| && TilesTo(l, |l.batches|) && b.first == Expected(l, |l.batches|) && b.first <= b.last
    requires i == 0 || number > l.batches[i - 1].last
    ensures var r := BatchOf(l.batches + [b], number, i);
            if number < b.first then r == (if BatchOf(l.batches, number, i) == |l.batches| then |l.batches| + 1 else BatchOf(l.batches, number, i))
            else r == if number <= b.last then |l.batches| else |l.batches| + 1
    decreases |l.batches| - i
  {
    if i < |l.batches| {
      FirstsAscend(l, i, |l.batches| - 1);
      assert Continues(l, i) && Continues(l, |l.batches| - 1);
      assert (l.batches + [b])[i] == l.batches[i];
      if number >= l.batches[i].first && number > l.batches[i].last {
        BatchOfExtended(l, b, number, i + 1);
      } else {
        assert l.batches[i].last <= l.batches[|l.batches| - 1].last;
      }
    } else {
      assert (l.batches + [b])[i] == b;
    }
  }

  /** A release gives its own second to exactly the next numbers. */
  lemma ReleaseTimes(l: Ledger, step: nat, window: int, b: Budgets, now: int, number: nat)
    requires Sound(l) && window > 0 && 0 < BatchSize(l, step, b) && !WentBack(l, now)
    ensures var r := Release(l, step, window, b, now).value;
            var time, kept := TimeOf(l, number), TimeOf(r, number);
            if l.released < number <= r.released then kept == Some(Normalized(now))
            else kept == time || (kept.None? && time.Some? && now > Over(time.value, window))
  {
    var size := BatchSize(l, step, b);
    var e := Extended(l, size, now);
    ExtendedSound(l, size, now);
    BatchOfExtended(l, e.batches[|l.batches|], number, 0);
    PruneKeepsTimes(e, window, now, number);
    PruneKeepsEligibility(e, window, now, number, now);
    TruncationNear(now);
  }

  /** A release adds exactly the next numbers, eligible from this second on, and changes the
      standing of no other number. */
  lemma ReleaseAddsTheNext(l: Ledger, step: nat, window: int, b: Budgets, now: int, number: nat, later: int)
    requires Sound(l) && window > 0 && later >= now && 0 < BatchSize(l, step, b) && !WentBack(l, now)
    ensures var size := BatchSize(l, step, b);
            var r := Release(l, step, window, b, now);
            && r.Some? && Sound(r.value) && r.value.released == l.released + size && r.value.next == l.next
            && EligibilityOf(r.value, window, number, later).status
               == (if l.released < number <= l.released + size
                   then if later > Normalized(now) + window * TICKS + LEEWAY then Expired else Eligible
                   else EligibilityOf(l, window, number, later).status)
  {
    var size := BatchSize(l, step, b);
    var e := Extended(l, size, now);
    ExtendedSound(l, size, now);
    PruneKeepsEligibility(e, window, now, number, later);
    BatchOfExtended(l, e.batches[|l.batches|], number, 0);
  }

  // ---------------------------------------------------------------------------------------
  // Restoring

  /** What `restore` accepts; it throws on any other snapshot. */
  ghost predicate Restorable(l: Ledger, now: int) {
    Sound(l) && forall i :: 0 <= i < |l.batches| ==> l.batches[i].releasedAt <= now + LEEWAY
  }

  /** Rolling back a release whose save failed never throws: had the clock gone back, the
      release itself would have been refused. */
  lemma RollbackNeverThrows(l: Ledger, step: nat, window: int, b: Budgets, now: int)
    requires Sound(l) && 0 < BatchSize(l, step, b) && Release(l, step, window, b, now).Some?
    ensures Restorable(l, now)
  {
    forall i | 0 <= i < |l.batches|
      ensures l.batches[i].releasedAt <= now + LEEWAY
    {
      FirstsAscend(l, i, |l.batches| - 1);
      assert Normalized(now) <= now + LEEWAY by { TruncationSmall(now); }
    }
  }

  lemma TruncationNear(t: int)
    ensures t < Normalized(t) + TICKS
  {
  }

  lemma TruncationSmall(t: int)
    ensures Normalized(t) < t + TICKS
  {
  }

  /** The outcome of one release frame: the new ledger is published only once it is saved. */
  function Framed(l: Ledger, step: nat, window: int, b: Budgets, now: int, saved: bool): Option<Ledger>
    requires l.released < l.next
  {
    var r := Release(l, step, window, b, now);
    if r.None? || BatchSize(l, step, b) == 0 || saved then r else Some(Pruned(l, window, now))
  }

  /** A frame that releases nothing or cannot save leaves every number's standing at all later
      times as it was; a frame only ever fails before it has changed anything, on a clock that
      went back. */
  lemma FrameKeepsPromises(l: Ledger, step: nat, window: int, b: Budgets, now: int, saved: bool, number: nat, later: int)
    requires Sound(l) && window > 0 && later >= now
    ensures var f := Framed(l, step, window, b, now, saved);
            && (f.None? <==> BatchSize(l, step, b) > 0 && WentBack(l, now))
            && (f.Some? ==> Sound(f.value) && f.value.next == l.next)
            && (f.Some? && (BatchSize(l, step, b) == 0 || !saved) ==>
                  && f.value.released == l.released
                  && EligibilityOf(f.value, window, number, later).status == EligibilityOf(l, window, number, later).status)
            && (f.Some? && BatchSize(l, step, b) > 0 && !saved ==> Restorable(l, now))
  {
    PruneKeepsEligibility(l, window, now, number, later);
    if BatchSize(l, step, b) > 0 && !WentBack(l, now) {
      ReleaseAddsTheNext(l, step, window, b, now, number, later);
      RollbackNeverThrows(l, step, window, b, now);
    }
  }
}
