/** The retry delay: exponential growth with jitter, capped after the jitter is applied. */
module Backoff {

  /** Past this value powInt stops multiplying. */
  const POWER_LIMIT: real := 1000000000000000000.0

  const JITTER_LOW: real := 0.8
  const JITTER_HIGH: real := 1.2

  function Pow2(n: nat): (p: nat)
    ensures p >= 1
  {
    if n == 0 then 1 else 2 * Pow2(n - 1)
  }

  /** The value powInt's loop holds after exp - 1 iterations. */
  function Power(base: real, exp: int): real
    decreases exp
  {
    if exp <= 0 then 1.0
    else if exp == 1 then base
    else
      var r := Power(base, exp - 1);
      if exp > 2 && r > POWER_LIMIT then r else r * base
  }

  /** Once the limit is passed, further exponents change nothing. */
  lemma {:induction false} PowerStops(base: real, reached: int, exp: int)
    requires 2 <= reached <= exp
    requires Power(base, reached) > POWER_LIMIT
    ensures Power(base, exp) == Power(base, reached)
    decreases exp
  {
    if reached < exp {
      PowerStops(base, reached, exp - 1);
    }
  }

  method PowInt(base: real, exp: int) returns (r: real)
    ensures r == Power(base, exp)
  {
    if exp <= 0 {
      return 1.0;
    }
    r := base;
    var i := 1;
    while i < exp
      invariant 1 <= i <= exp
      invariant r == Power(base, i)
      invariant i >= 2 ==> r <= POWER_LIMIT
    {
      r := r * base;
      i := i + 1;
      if r > POWER_LIMIT {
        PowerStops(base, i, exp);
        return r;
      }
    }
  }

  function Clamp(exp: int): (e: nat) {
    if exp < 0 then 0 else if exp > 60 then 60 else exp
  }

  lemma {:induction false} Pow2Monotone(a: nat, b: nat)
    requires a <= b
    ensures Pow2(a) <= Pow2(b)
  {
    if a < b {
      Pow2Monotone(a, b - 1);
    }
  }

  lemma Pow2Values()
    ensures Pow2(10) == 1024
    ensures Pow2(59) == 576460752303423488
    ensures Pow2(60) == 1152921504606846976
  {
    assert Pow2(5) == 32;
    assert Pow2(10) == 1024;
    assert Pow2(15) == 32768;
    assert Pow2(20) == 1048576;
    assert Pow2(25) == 33554432;
    assert Pow2(30) == 1073741824;
    assert Pow2(35) == 34359738368;
    assert Pow2(40) == 1099511627776;
    assert Pow2(45) == 35184372088832;
    assert Pow2(50) == 1125899906842624;
    assert Pow2(55) == 36028797018963968;
    assert Pow2(59) == 576460752303423488;
  }

  /** With base 2 the loop computes 2^exp, the exponent clamped to 0..60. */
  lemma {:induction false} PowerOfTwo(exp: int)
    ensures Power(2.0, exp) == Pow2(Clamp(exp)) as real
    decreases exp
  {
    Pow2Values();
    if exp == 1 {
      assert Pow2(1) == 2 * Pow2(0);
    } else if exp > 1 {
      PowerOfTwo(exp - 1);
      if exp <= 60 {
        Pow2Monotone(exp - 1, 59);
        assert Pow2(exp) == 2 * Pow2(exp - 1);
      }
    }
  }

  predicate Jitter(j: real) {
    JITTER_LOW <= j < JITTER_HIGH
  }

  function Min(a: real, b: real): real {
    if a <= b then a else b
  }

  function Capped(base: real, power: real, jitter: real, cap: real): real {
    Min(base * power * jitter, cap)
  }

  /** backoffFor before its conversion to a whole number of nanoseconds. */
  function Delay(base: nat, max: nat, attempts: int, jitter: real): real {
    var n := if attempts <= 0 then 1 else attempts;
    Capped(base as real, Power(2.0, n - 1), jitter, max as real)
  }

  /** time.Duration(delay): the conversion truncates. */
  function BackoffFor(base: nat, max: nat, attempts: int, jitter: real): (d: nat)
    requires Jitter(jitter)
    ensures d <= max
  {
    PowerOfTwo(if attempts <= 0 then 0 else attempts - 1);
    NonNegative(base as real, Power(2.0, if attempts <= 0 then 0 else attempts - 1), jitter);
    Delay(base, max, attempts, jitter).Floor
  }

  /** How often the base is doubled before the given attempt: never for the first, at most sixty times. */
  function Doublings(attempts: int): nat {
    Clamp(attempts - 1)
  }

  /** d is the whole part of an amount, but of at most max. */
  predicate CutTo(d: nat, full: real, max: nat) {
    if full <= max as real then d as real <= full < d as real + 1.0 else d == max
  }

  lemma CappedIsCut(base: real, power: real, jitter: real, max: nat)
    requires base * power * jitter >= 0.0
    ensures Capped(base, power, jitter, max as real) >= 0.0
    ensures CutTo(Capped(base, power, jitter, max as real).Floor, base * power * jitter, max)
  {
  }

  /** What a retry waits, for any attempt and any draw: base, doubled, jittered, then capped and truncated. */
  lemma RetryDelay(base: nat, max: nat, attempts: int, jitter: real)
    requires Jitter(jitter)
    ensures CutTo(BackoffFor(base, max, attempts, jitter), base as real * Pow2(Doublings(attempts)) as real * jitter, max)
  {
    var power := Pow2(Doublings(attempts)) as real;
    NonNegative(base as real, power, jitter);
    CappedIsCut(base as real, power, jitter, max);
    DelayIsCapped(base, max, attempts, jitter, power);
  }

  lemma DelayIsCapped(base: nat, max: nat, attempts: int, jitter: real, power: real)
    requires Jitter(jitter) && power == Pow2(Doublings(attempts)) as real
    ensures BackoffFor(base, max, attempts, jitter) == Capped(base as real, power, jitter, max as real).Floor
  {
    PowerOfTwo(if attempts <= 0 then 0 else attempts - 1);
  }

  /** Up to the sixty-first attempt that is base * 2^(n-1) * jitter, capped and truncated. */
  lemma RetryDelayBeforeClamp(base: nat, max: nat, n: int, jitter: real, full: real)
    requires Jitter(jitter) && 1 <= n <= 61 && full == base as real * Pow2(n - 1) as real * jitter
    ensures BackoffFor(base, max, n, jitter) == if full <= max as real then full.Floor else max
  {
    RetryDelay(base, max, n, jitter);
  }

  lemma NonNegative(a: real, b: real, c: real)
    requires a >= 0.0 && b >= 0.0 && c >= 0.0
    ensures a * b * c >= 0.0
  {
    assert a * b >= 0.0;
  }

  /** The delay as documented: base doubled per attempt without any bound on the exponent. */
  ghost function IdealDelay(base: nat, max: nat, attempts: int, jitter: real): real
    requires attempts >= 1
  {
    Capped(base as real, Pow2(attempts - 1) as real, jitter, max as real)
  }

  /** 2^60, the largest power powInt(2, exp) returns. */
  const CLAMP_POWER: nat := 0x1000_0000_0000_0000

  /** The cap is reached before the exponent clamp can be noticed. */
  ghost predicate CapBelowClamp(base: nat, max: nat) {
    max as real <= base as real * CLAMP_POWER as real * JITTER_LOW
  }

  ghost predicate FollowsIdeal(base: nat, max: nat) {
    forall n: int, j: real :: n >= 1 && Jitter(j) ==> Delay(base, max, n, j) == IdealDelay(base, max, n, j)
  }

  /** Whatever jitters are drawn, the next attempt never waits less than this one. */
  ghost predicate NeverShrinks(base: nat, max: nat) {
    forall n: int, j: real, k: real ::
      n >= 1 && Jitter(j) && Jitter(k) ==> BackoffFor(base, max, n, j) <= BackoffFor(base, max, n + 1, k)
  }

  lemma ScaleMonotone(a: real, p: real, q: real, j: real, k: real)
    requires a >= 0.0 && 0.0 <= p <= q && 0.0 <= j <= k
    ensures a * p * j <= a * q * k
  {
    assert a * p <= a * q;
    NonNegative(a, p, 1.0);
    assert (a * p) * j <= (a * p) * k;
    assert (a * p) * k <= (a * q) * k;
  }

  /** At and beyond exponent 60 a low enough cap is what every jitter yields. */
  lemma CappedAt(base: nat, max: nat, p: real, j: real)
    requires CapBelowClamp(base, max) && Jitter(j) && p >= CLAMP_POWER as real
    ensures Capped(base as real, p, j, max as real) == max as real
  {
    ScaleMonotone(base as real, CLAMP_POWER as real, p, JITTER_LOW, j);
  }

  lemma ClampedPower(exp: int)
    ensures exp >= 60 ==> Power(2.0, exp) == CLAMP_POWER as real
    ensures 0 <= exp < 60 ==> Power(2.0, exp) == Pow2(exp) as real && Power(2.0, exp + 1) == 2.0 * Pow2(exp) as real
  {
    PowerOfTwo(exp);
    PowerOfTwo(exp + 1);
    Pow2Values();
  }

  lemma UnclampedWhenBelow(base: nat, max: nat, n: int, j: real)
    requires CapBelowClamp(base, max) && n >= 1 && Jitter(j)
    ensures Delay(base, max, n, j) == IdealDelay(base, max, n, j)
  {
    if n > 60 {
      ClampedIsCap(base, max, n, j);
      IdealIsCap(base, max, n, j);
    } else {
      ClampedPower(n - 1);
    }
  }

  lemma ClampedIsCap(base: nat, max: nat, n: int, j: real)
    requires CapBelowClamp(base, max) && n > 60 && Jitter(j)
    ensures Delay(base, max, n, j) == max as real
  {
    ClampedPower(n - 1);
    CappedAt(base, max, Power(2.0, n - 1), j);
  }

  lemma IdealIsCap(base: nat, max: nat, n: int, j: real)
    requires CapBelowClamp(base, max) && n > 60 && Jitter(j)
    ensures IdealDelay(base, max, n, j) == max as real
  {
    Pow2Monotone(60, n - 1);
    Pow2Values();
    CappedAt(base, max, Pow2(n - 1) as real, j);
  }

  lemma ClampVisibleWhenAbove(base: nat, max: nat)
    requires !CapBelowClamp(base, max)
    ensures Delay(base, max, 62, JITTER_LOW) != IdealDelay(base, max, 62, JITTER_LOW) || base == 0
  {
    ClampedPower(61);
    Pow2Values();
    assert Pow2(61) == 2 * CLAMP_POWER by { assert Pow2(61) == 2 * Pow2(60); }
  }

  /** The clamp on the exponent is invisible, for every attempt and jitter, exactly under a low enough cap. */
  lemma FollowsIdealIff(base: nat, max: nat)
    requires base >= 1
    ensures FollowsIdeal(base, max) <==> CapBelowClamp(base, max)
  {
    if CapBelowClamp(base, max) {
      forall n: int, j: real | n >= 1 && Jitter(j)
        ensures Delay(base, max, n, j) == IdealDelay(base, max, n, j)
      {
        UnclampedWhenBelow(base, max, n, j);
      }
    } else {
      ClampVisibleWhenAbove(base, max);
      assert Jitter(JITTER_LOW);
    }
  }

  lemma DoublingBeatsJitter(x: real, j: real, k: real)
    requires x >= 0.0 && Jitter(j) && Jitter(k)
    ensures x * j <= 2.0 * x * k
  {
    assert x * j <= x * JITTER_HIGH;
    assert x * JITTER_LOW <= x * k;
  }

  lemma GrowsBelowClamp(b: real, p: real, cap: real, j: real, k: real)
    requires b >= 0.0 && p >= 0.0 && Jitter(j) && Jitter(k)
    ensures Capped(b, p, j, cap) <= Capped(b, 2.0 * p, k, cap)
  {
    var x := b * p;
    NonNegative(b, p, 1.0);
    assert b * (2.0 * p) == 2.0 * x;
    DoublingBeatsJitter(x, j, k);
  }

  lemma StepGrows(b: real, p: real, q: real, cap: real, j: real, k: real)
    requires b >= 0.0 && p >= 0.0 && Jitter(j) && Jitter(k)
    requires q == 2.0 * p || (q >= CLAMP_POWER as real && cap <= b * CLAMP_POWER as real * JITTER_LOW)
    ensures Capped(b, p, j, cap) <= Capped(b, q, k, cap)
  {
    if q == 2.0 * p {
      GrowsBelowClamp(b, p, cap, j, k);
    } else {
      ScaleMonotone(b, CLAMP_POWER as real, q, JITTER_LOW, k);
    }
  }

  /** One more attempt doubles the power, unless it has reached the clamp. */
  lemma PowerStep(n: int)
    requires n >= 1
    ensures Power(2.0, n - 1) >= 0.0
    ensures Power(2.0, n) == 2.0 * Power(2.0, n - 1) || Power(2.0, n) >= CLAMP_POWER as real
  {
    ClampedPower(n - 1);
    ClampedPower(n);
  }

  lemma GrowsUnderCap(base: nat, max: nat, n: int, j: real, k: real)
    requires CapBelowClamp(base, max) && n >= 1 && Jitter(j) && Jitter(k)
    ensures Delay(base, max, n, j) <= Delay(base, max, n + 1, k)
  {
    PowerStep(n);
    StepGrows(base as real, Power(2.0, n - 1), Power(2.0, n), max as real, j, k);
  }

  lemma ShrinksAboveCap(base: nat, max: nat) returns (j: real)
    requires base >= 1 && !CapBelowClamp(base, max)
    ensures Jitter(j) && BackoffFor(base, max, 61, j) > BackoffFor(base, max, 62, JITTER_LOW)
  {
    ClampedPower(60);
    ClampedPower(61);
    var unit := base as real * CLAMP_POWER as real;
    if max as real < JITTER_HIGH * unit {
      j := max as real / unit;
      RatioBounds(max as real, unit);
    } else {
      j := 1.0;
    }
  }

  lemma RatioBounds(a: real, b: real)
    requires b > 0.0 && b * JITTER_LOW < a < JITTER_HIGH * b
    ensures b * (a / b) == a && Jitter(a / b)
  {
    var q := a / b;
    assert b * q == a;
  }

  /**
   The delay never shrinks between attempts, for any jitter draws, exactly when
   the cap lies below the lowest delay at the exponent clamp.
   */
  lemma NeverShrinksIff(base: nat, max: nat)
    requires base >= 1
    ensures NeverShrinks(base, max) <==> CapBelowClamp(base, max)
  {
    if CapBelowClamp(base, max) {
      forall n: int, j: real, k: real | n >= 1 && Jitter(j) && Jitter(k)
        ensures BackoffFor(base, max, n, j) <= BackoffFor(base, max, n + 1, k)
      {
        GrowsUnderCap(base, max, n, j, k);
      }
    } else {
      var j := ShrinksAboveCap(base, max);
      assert BackoffFor(base, max, 61, j) > BackoffFor(base, max, 61 + 1, JITTER_LOW);
    }
  }
}
