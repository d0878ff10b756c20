/** Retry delays.  The delay is doubled in float64 and converted back to int64; doubling a
    2000 ms base never rounds, so the loop computes a capped power of two exactly. */
module Backoff {
  const BASE_DELAY_MS := 2000
  const DEFAULT_MAX_DELAY_MS := 120_000
  const TWO_53 := 0x20_0000_0000_0000
  const TWO_63 := 0x8000_0000_0000_0000

  /** The largest cap for which no doubling leaves the int64 range: 2000 * 2^52. */
  const LARGEST_CAP := 9_007_199_254_740_992_000

  function Pow2(n: nat): (p: nat)
    ensures p >= 1
  {
    if n == 0 then 1 else 2 * Pow2(n - 1)
  }

  /** The spacing of float64 values around n. */
  function Ulp(n: nat): (u: nat)
    ensures u >= 1
  {
    if n < TWO_53 then 1 else 2 * Ulp(n / 2)
  }

  /** float64(n): the nearest multiple of the spacing, ties to even. */
  function Float64(n: nat): nat {
    var u := Ulp(n);
    var q, r := n / u, n % u;
    if 2 * r > u || (2 * r == u && q % 2 == 1) then (q + 1) * u else q * u
  }

  function EffectiveCap(maxDelayMs: int): int {
    if maxDelayMs <= 0 then DEFAULT_MAX_DELAY_MS else maxDelayMs
  }

  function Min(a: int, b: int): int {
    if a <= b then a else b
  }

  /** The delay before try attempt + 1.  The first delay is never capped. */
  function DelayMs(attempt: int, maxDelayMs: int): int {
    if attempt <= 1 then BASE_DELAY_MS
    else Min(BASE_DELAY_MS * Pow2(attempt - 1), EffectiveCap(maxDelayMs))
  }

  lemma {:induction false} DoubledMod(a: nat, u: nat)
    requires u >= 1 && a % u == 0
    ensures (2 * a) % (2 * u) == 0
  {
    var q := a / u;
    assert 2 * a == q * (2 * u);
    MultipleMod(q, 2 * u);
  }

  lemma {:induction false} MultipleMod(q: nat, m: nat)
    requires m >= 1
    ensures (q * m) % m == 0
  {
    var d, r := q - (q * m) / m, (q * m) % m;
    assert r == d * m by { assert q * m == (q * m) / m * m + r; }
    WholeMultiple(d, m);
  }

  lemma {:induction false} WholeMultiple(d: int, m: int)
    requires m >= 1
    ensures (d >= 1 ==> d * m >= m) && (d <= -1 ==> d * m <= -m)
  {
  }

  /** A 53-bit number shifted left any distance is a float64. */
  lemma {:induction false} ShiftedIsExact(m: nat, shift: nat)
    requires m < TWO_53
    ensures (m * Pow2(shift)) % Ulp(m * Pow2(shift)) == 0
  {
    var n := m * Pow2(shift);
    if n >= TWO_53 {
      var half := m * Pow2(shift - 1);
      assert n == 2 * half;
      ShiftedIsExact(m, shift - 1);
      DoubledMod(half, Ulp(half));
    }
  }

  lemma {:induction false} ExactConversion(n: nat)
    requires n % Ulp(n) == 0
    ensures Float64(n) == n
  {
  }

  lemma {:induction false} Pow2Monotone(a: nat, b: nat)
    requires a <= b
    ensures Pow2(a) <= Pow2(b)
    decreases b
  {
    if a < b {
      Pow2Monotone(a, b - 1);
    }
  }

  lemma {:induction false} BaseShiftIsExact(k: nat)
    ensures Float64(BASE_DELAY_MS * Pow2(k)) == BASE_DELAY_MS * Pow2(k)
  {
    ShiftedIsExact(BASE_DELAY_MS, k);
    ExactConversion(BASE_DELAY_MS * Pow2(k));
  }

  /** int64(float64(delay) * 2.0), defined while the result fits an int64. */
  function Doubled(delay: nat): nat
    requires 2 * Float64(delay) < TWO_63
  {
    2 * Float64(delay)
  }

  method CalculateBackoffMs(attempt: int, maxDelayMs: int) returns (delay: int)
    requires maxDelayMs <= LARGEST_CAP
    ensures delay == DelayMs(attempt, maxDelayMs)
    ensures attempt <= 1 ==> delay == 2000
    ensures
      var cap := if maxDelayMs <= 0 then 120_000 else maxDelayMs;
      attempt > 1 ==> delay <= cap && (delay == cap || delay == 2000 * Pow2(attempt - 1))
  {
    var cap := if maxDelayMs <= 0 then DEFAULT_MAX_DELAY_MS else maxDelayMs;
    delay := BASE_DELAY_MS;
    var i := 1;
    while i < attempt
      invariant 1 <= i && (attempt <= 1 ==> i == 1) && (attempt > 1 ==> i <= attempt)
      invariant delay == BASE_DELAY_MS * Pow2(i - 1)
      invariant i > 1 ==> delay < cap
    {
      BaseShiftIsExact(i - 1);
      NoOverflowBelow(i - 1, cap);
      delay := Doubled(delay);
      if delay >= cap {
        delay := cap;
        Pow2Monotone(i, attempt - 1);
        break;
      }
      i := i + 1;
    }
  }

  lemma {:induction false} Pow2Value52()
    ensures Pow2(52) == TWO_53 / 2
  {
    assert Pow2(13) == 8192;
    assert Pow2(26) == 67108864 by { assert Pow2(20) == 1048576; }
    assert Pow2(39) == 549755813888 by { assert Pow2(33) == 8589934592; }
    assert Pow2(46) == 70368744177664;
  }

  lemma {:induction false} Pow2Around52(k: nat)
    ensures k <= 51 ==> Pow2(k) <= TWO_53 / 4
    ensures k >= 52 ==> Pow2(k) >= TWO_53 / 2
  {
    Pow2Value52();
    if k <= 51 {
      Pow2Monotone(k + 1, 52);
    } else {
      Pow2Monotone(52, k);
    }
  }

  lemma {:induction false} NoOverflowBelow(k: nat, cap: int)
    requires cap <= LARGEST_CAP && (k > 0 ==> BASE_DELAY_MS * Pow2(k) < cap)
    ensures 2 * (BASE_DELAY_MS * Pow2(k)) < TWO_63
  {
    Pow2Around52(k);
  }

  /** The cap in the precondition is the largest possible: any larger one lets the delay reach
      2000 * 2^52 uncapped, and doubling that no longer fits. */
  lemma {:induction false} LargestCapIsSharp(cap: int)
    requires LARGEST_CAP < cap
    ensures forall k: nat :: k <= 52 ==> BASE_DELAY_MS * Pow2(k) < cap
    ensures 2 * Float64(BASE_DELAY_MS * Pow2(52)) >= TWO_63
  {
    Pow2Value52();
    forall k: nat | k <= 52 ensures BASE_DELAY_MS * Pow2(k) < cap {
      Pow2Monotone(k, 52);
    }
    BaseShiftIsExact(52);
  }

  function NextRetryAt(now: int, attempt: int, maxDelayMs: int): int {
    now + DelayMs(attempt, maxDelayMs)
  }

  /** The waiting that n failures impose, in total. */
  function TotalDelay(n: nat, maxDelayMs: int): int {
    if n == 0 then 0 else TotalDelay(n - 1, maxDelayMs) + DelayMs(n, maxDelayMs)
  }

  lemma {:induction false} DelaysGrow(a: int, b: int, maxDelayMs: int)
    requires a <= b && BASE_DELAY_MS <= EffectiveCap(maxDelayMs)
    ensures 0 < DelayMs(a, maxDelayMs) <= DelayMs(b, maxDelayMs) <= EffectiveCap(maxDelayMs)
  {
    if a > 1 {
      Pow2Monotone(a - 1, b - 1);
      Pow2Monotone(1, a - 1);
    } else if b > 1 {
      Pow2Monotone(1, b - 1);
    }
  }
}
