/**
 The retry schedule of the registrar, in the source's 64-bit arithmetic: a duration is an
 int64 number of nanoseconds, doubling wraps around, and the cap is applied after doubling.
 Neither option setter validates its argument, so every pair of int64 values is a possible
 configuration.
 */
module Backoff {

  const MIN64 := -0x8000_0000_0000_0000
  const MAX64 := 0x7FFF_FFFF_FFFF_FFFF
  const TWO64 := 0x1_0000_0000_0000_0000

  const SECOND: Duration := 1_000_000_000
  const DEFAULT_INITIAL: Duration := 1_000_000_000
  const DEFAULT_MAX: Duration := 60_000_000_000

  type Duration = d: int | MIN64 <= d <= MAX64

  /** Two's-complement truncation of an integer to 64 bits. */
  function Wrap(x: int): Duration {
    var r := x % TWO64;
    if r > MAX64 then r - TWO64 else r
  }

  /** `backoff *= 2` in an int64. */
  function Double(b: Duration): Duration {
    if 2 * b > MAX64 then 2 * b - TWO64
    else if 2 * b < MIN64 then 2 * b + TWO64
    else 2 * b
  }

  lemma DoubleWraps(b: Duration)
    ensures Double(b) == Wrap(2 * b)
  {
    assert 2 * b % TWO64 == if b < 0 then 2 * b + TWO64 else 2 * b;
  }

  /** The doubling followed by the cap. */
  function Next(backoff: Duration, max: Duration): Duration {
    if Double(backoff) > max then max else Double(backoff)
  }

  /** The duration handed to the k-th timer of a run. */
  function Wait(k: nat, initial: Duration, max: Duration): Duration {
    if k == 0 then initial else Next(Wait(k - 1, initial, max), max)
  }

  /** `initial * 2^k`, by repeated doubling. */
  function Doubled(initial: int, k: nat): int {
    if k == 0 then initial else 2 * Doubled(initial, k - 1)
  }

  /** The schedule in unbounded arithmetic: doubling from the initial wait, capped from the second wait on. */
  function Ideal(k: nat, initial: int, max: int): int {
    if k == 0 then initial
    else if Doubled(initial, k) > max then max
    else Doubled(initial, k)
  }

  /** What a caller can check before configuring a registrar: both durations are positive and can be doubled. */
  predicate Safe(initial: Duration, max: Duration) {
    && 0 < initial && 2 * initial <= MAX64
    && 0 < max && 2 * max <= MAX64
  }

  lemma {:induction false} DoubledGrows(initial: int, k: nat)
    requires 0 < initial
    ensures Doubled(initial, k) > k
    ensures Doubled(initial, k) >= initial
  {
    if k > 0 {
      DoubledGrows(initial, k - 1);
    }
  }

  /** Every timer of a run is started with a positive duration. */
  ghost predicate AlwaysPauses(initial: Duration, max: Duration) {
    forall k: nat :: Wait(k, initial, max) > 0
  }

  lemma IdealDoubles(k: nat, initial: int, max: int)
    requires 0 < initial && 0 < max
    ensures Ideal(k + 1, initial, max) == (if 2 * Ideal(k, initial, max) > max then max else 2 * Ideal(k, initial, max))
    ensures 0 < Ideal(k, initial, max)
  {
    DoubledGrows(initial, k);
  }

  lemma NextDoubles(b: Duration, max: Duration)
    requires 0 < b
    ensures 2 * b <= MAX64 ==> Next(b, max) == if 2 * b > max then max else 2 * b
    ensures 2 * b > MAX64 ==> Next(b, max) < 0
  {
  }

  /** Without overflow the schedule is the ideal one. */
  lemma {:induction false} WaitIsIdeal(k: nat, initial: Duration, max: Duration)
    requires Safe(initial, max)
    ensures Wait(k, initial, max) == Ideal(k, initial, max) > 0
    ensures 2 * Wait(k, initial, max) <= MAX64
  {
    if k > 0 {
      WaitIsIdeal(k - 1, initial, max);
      NextDoubles(Wait(k - 1, initial, max), max);
      IdealDoubles(k - 1, initial, max);
    }
  }

  /** As long as every wait is positive, nothing has wrapped, so the schedule is still the ideal one. */
  lemma {:induction false} PositiveIsIdeal(k: nat, initial: Duration, max: Duration)
    requires 0 < max
    requires AlwaysPauses(initial, max)
    ensures Wait(k, initial, max) == Ideal(k, initial, max)
    ensures 2 * Wait(k, initial, max) <= MAX64
  {
    assert Wait(0, initial, max) > 0 && Wait(k, initial, max) > 0 && Wait(k + 1, initial, max) > 0;
    NextDoubles(Wait(k, initial, max), max);
    if k > 0 {
      PositiveIsIdeal(k - 1, initial, max);
      NextDoubles(Wait(k - 1, initial, max), max);
      IdealDoubles(k - 1, initial, max);
    }
  }

  /**
   Over every pair of int64 settings: no wait is ever zero or negative (a timer that fires at
   once, so a retry loop without pause) exactly when both settings are positive and below 2^62.
   */
  lemma PositiveIffSafe(initial: Duration, max: Duration)
    ensures AlwaysPauses(initial, max) <==> Safe(initial, max)
  {
    if Safe(initial, max) {
      forall k: nat ensures Wait(k, initial, max) > 0 {
        WaitIsIdeal(k, initial, max);
      }
    }
    if AlwaysPauses(initial, max) {
      PositiveOnlyIfSafe(initial, max);
    }
  }

  lemma PositiveOnlyIfSafe(initial: Duration, max: Duration)
    requires AlwaysPauses(initial, max)
    ensures Safe(initial, max)
  {
    assert Wait(0, initial, max) > 0;
    assert 0 < Wait(1, initial, max) <= max;
    PositiveIsIdeal(0, initial, max);
    PositiveIsIdeal(max, initial, max);
    DoubledGrows(initial, max);
    assert Ideal(max, initial, max) == max;
  }

  /** The same condition decides whether the wrapped schedule is the ideal one. */
  lemma IdealIffSafe(initial: Duration, max: Duration)
    requires 0 < initial && 0 < max
    ensures (forall k: nat :: Wait(k, initial, max) == Ideal(k, initial, max)) <==> Safe(initial, max)
  {
    if Safe(initial, max) {
      forall k: nat ensures Wait(k, initial, max) == Ideal(k, initial, max) {
        WaitIsIdeal(k, initial, max);
      }
    }
    if forall k: nat :: Wait(k, initial, max) == Ideal(k, initial, max) {
      forall k: nat ensures Wait(k, initial, max) > 0 {
        IdealDoubles(k, initial, max);
      }
      PositiveIffSafe(initial, max);
    }
  }

  /**
   The cap holds from the second wait on whatever the settings; it holds for every wait exactly
   when the initial wait does not exceed it, because the first wait is never clamped.
   */
  lemma CapIffInitialWithinMax(initial: Duration, max: Duration)
    ensures forall k: nat :: k >= 1 ==> Wait(k, initial, max) <= max
    ensures (forall k: nat :: Wait(k, initial, max) <= max) <==> initial <= max
  {
    assert Wait(0, initial, max) == initial;
  }

  /** Safe settings with initial <= max never shorten a wait. */
  lemma NeverShrinks(k: nat, initial: Duration, max: Duration)
    requires Safe(initial, max)
    ensures initial <= max ==> Wait(k, initial, max) <= Wait(k + 1, initial, max)
    ensures initial > max ==> Wait(k + 1, initial, max) == max
  {
    WaitIsIdeal(k, initial, max);
    WaitIsIdeal(k + 1, initial, max);
    DoubledGrows(initial, k + 1);
    IdealDoubles(k, initial, max);
  }

  /** One past the safe range the loop runs hot: from the third wait on every wait is zero. */
  lemma {:induction false} JustUnsafeRunsHot(k: nat)
    requires k >= 2
    ensures Wait(k, 0x4000_0000_0000_0000, 0x4000_0000_0000_0000) == 0
  {
    if k == 2 {
      assert Wait(1, 0x4000_0000_0000_0000, 0x4000_0000_0000_0000) == MIN64;
    } else {
      JustUnsafeRunsHot(k - 1);
    }
  }

  /** The defaults are safe and keep every wait within the cap. */
  lemma DefaultsAreSafe(k: nat)
    ensures 0 < Wait(k, DEFAULT_INITIAL, DEFAULT_MAX) <= DEFAULT_MAX
  {
    WaitIsIdeal(k, DEFAULT_INITIAL, DEFAULT_MAX);
  }

  // ---- Retry rate ----

  /** A timer with a non-positive duration fires at once. */
  function Elapsed(d: Duration): nat {
    if d < 0 then 0 else d
  }

  /** Time slept before attempt n + 1. */
  function Total(n: nat, initial: Duration, max: Duration): nat {
    if n == 0 then 0 else Total(n - 1, initial, max) + Elapsed(Wait(n - 1, initial, max))
  }

  /** The number of doublings after which the ideal schedule has reached the cap. */
  function Saturation(initial: int, max: int): (k: nat)
    requires 0 < initial
    ensures Doubled(initial, k) >= max
    ensures forall j: nat :: j < k ==> Doubled(initial, j) < max
    decreases max - initial
  {
    if initial >= max then 0
    else
      var k := Saturation(2 * initial, max);
      SaturationStep(initial, max, k);
      k + 1
  }

  lemma {:induction false} DoubledShift(initial: int, k: nat)
    ensures Doubled(2 * initial, k) == Doubled(initial, k + 1)
  {
    if k > 0 {
      DoubledShift(initial, k - 1);
    }
  }

  lemma SaturationStep(initial: int, max: int, k: nat)
    requires initial < max
    requires Doubled(2 * initial, k) >= max
    requires forall j: nat :: j < k ==> Doubled(2 * initial, j) < max
    ensures Doubled(initial, k + 1) >= max
    ensures forall j: nat :: j < k + 1 ==> Doubled(initial, j) < max
  {
    DoubledShift(initial, k);
    forall j: nat | j < k + 1 ensures Doubled(initial, j) < max {
      if j > 0 {
        DoubledShift(initial, j - 1);
      }
    }
  }

  lemma {:induction false} IdealSaturates(k: nat, initial: int, max: int)
    requires 0 < initial && k >= Saturation(initial, max)
    ensures Doubled(initial, k) >= max
    ensures Ideal(k, initial, max) >= max
    ensures initial <= max ==> Ideal(k, initial, max) == max
  {
    DoubledGrows(initial, k);
    if k > Saturation(initial, max) {
      IdealSaturates(k - 1, initial, max);
      DoubledGrows(initial, k - 1);
    }
  }

  lemma TimesSucc(n: int, m: int)
    ensures (n + 1) * m == n * m + m
  {
  }

  function ClosedForm(n: nat, initial: Duration, max: Duration): int
    requires 0 < initial
  {
    var s := Saturation(initial, max);
    if n <= s then Doubled(initial, n) - initial else Doubled(initial, s) - initial + (n - s) * max
  }

  lemma ClosedFormStep(n: nat, initial: Duration, max: Duration)
    requires 0 < initial <= max
    ensures ClosedForm(n + 1, initial, max) == ClosedForm(n, initial, max) + Ideal(n, initial, max)
  {
    var s := Saturation(initial, max);
    if n < s {
      assert Doubled(initial, n) < max;
    } else {
      IdealSaturates(n, initial, max);
      TimesSucc(n - s, max);
    }
  }

  /** Total sleep in closed form: geometric until the cap is reached, linear after. */
  lemma {:induction false} TotalClosedForm(n: nat, initial: Duration, max: Duration)
    requires Safe(initial, max) && initial <= max
    ensures var s := Saturation(initial, max);
            Total(n, initial, max) ==
            if n <= s then Doubled(initial, n) - initial
            else Doubled(initial, s) - initial + (n - s) * max
  {
    if n > 0 {
      TotalClosedForm(n - 1, initial, max);
      WaitIsIdeal(n - 1, initial, max);
      ClosedFormStep(n - 1, initial, max);
    }
    assert Total(n, initial, max) == ClosedForm(n, initial, max);
  }

  lemma {:induction false} TotalAtLeast(q: nat, initial: Duration, max: Duration)
    requires Safe(initial, max)
    ensures Total(Saturation(initial, max) + q, initial, max) >= q * max
  {
    if q > 0 {
      var n := Saturation(initial, max) + q - 1;
      TotalAtLeast(q - 1, initial, max);
      WaitIsIdeal(n, initial, max);
      IdealSaturates(n, initial, max);
      TimesSucc(q - 1, max);
      assert Total(n + 1, initial, max) >= Total(n, initial, max) + max;
    }
  }

  lemma QuotientBound(q: int, t: nat, m: int)
    requires 0 < m && q * m <= t
    ensures q <= t / m
  {
    var d := t / m;
    assert t < d * m + m;
    if q > d {
      TimesSucc(d, m);
      TimesMonotone(d + 1, q, m);
    }
  }

  lemma TimesMonotone(a: int, b: int, m: int)
    requires a <= b && 0 < m
    ensures a * m <= b * m
  {
  }

  /** At most `Saturation + elapsed / max` full waits fit into any elapsed time. */
  lemma WaitsWithin(n: nat, elapsed: nat, initial: Duration, max: Duration)
    requires Safe(initial, max)
    requires Total(n, initial, max) <= elapsed
    ensures n <= Saturation(initial, max) + elapsed / max
  {
    var s := Saturation(initial, max);
    if n > s {
      TotalAtLeast(n - s, initial, max);
      QuotientBound(n - s, elapsed, max);
    } else {
      QuotientBound(0, elapsed, max);
    }
  }
}
