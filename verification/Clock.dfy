/** Wall-clock readings as ticks since the epoch, and their rounding to whole seconds. */
module Clock {

  const TICKS: int := 1_000_000_000

  /** Whole seconds since the epoch, rounding toward zero. */
  function Seconds(t: int): int { if t >= 0 then t / TICKS else -(-t / TICKS) }

  function Normalized(t: int): int { Seconds(t) * TICKS }

  lemma SecondsMonotone(a: int, b: int)
    requires a <= b
    ensures Seconds(a) <= Seconds(b)
  {
  }

  lemma SecondsOfWhole(n: int)
    ensures Seconds(n * TICKS) == n
  {
  }

  lemma NormalizedFacts(a: int, b: int)
    ensures a <= b ==> Normalized(a) <= Normalized(b)
    ensures Normalized(Normalized(a)) == Normalized(a)
    ensures Seconds(Normalized(a)) == Seconds(a)
    ensures 0 <= a ==> Normalized(a) <= a < Normalized(a) + TICKS
  {
    if a <= b {
      SecondsMonotone(a, b);
    }
    SecondsOfWhole(Seconds(a));
  }
}
