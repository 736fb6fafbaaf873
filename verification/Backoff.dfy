/** Restart delays: exponential backoff with jitter.

    The repository holds two implementations, one that raises the factor to a
    power and one that multiplies step by step.  Floating point is modelled by
    exact reals; the width of a Go duration and the conversions to it are kept:
    a conversion out of the int64 range yields an arbitrary int64. */
module Backoff {

  const MIN_INT64: int := -0x8000_0000_0000_0000
  const MAX_INT64: int := 0x7fff_ffff_ffff_ffff

  type int64 = x: int | MIN_INT64 <= x <= MAX_INT64

  const DEFAULT_MIN: int64 := 100_000_000
  const DEFAULT_MAX: int64 := 30_000_000_000
  const DEFAULT_FACTOR: real := 2.0

  datatype Policy = Policy(min: int64, max: int64, factor: real, jitter: real)

  /** The int64 values two out-of-range conversions would produce: the one of
      the exponential and the one of the jitter. */
  datatype Overflow = Overflow(base: int64, delta: int64)

  function WithDefaults(p: Policy): (r: Policy)
    ensures r.min > 0 && r.max > 0 && r.factor > 0.0 && 0.0 <= r.jitter <= 1.0
  {
    Policy(
      if p.min <= 0 then DEFAULT_MIN else p.min,
      if p.max <= 0 then DEFAULT_MAX else p.max,
      if p.factor <= 0.0 then DEFAULT_FACTOR else p.factor,
      if p.jitter < 0.0 then 0.0 else if p.jitter > 1.0 then 1.0 else p.jitter)
  }

  function Power(a: real, n: int): real {
    if n <= 0 then 1.0 else Power(a, n - 1) * a
  }

  /** Rounding toward zero, as a conversion from float64 does. */
  function Truncate(x: real): int {
    if x >= 0.0 then x.Floor else -(-x).Floor
  }

  predicate Fits(x: real) {
    MIN_INT64 <= Truncate(x) <= MAX_INT64
  }

  function ToInt64(x: real, otherwise: int64): int64 {
    if Fits(x) then Truncate(x) else otherwise
  }

  /** Two's complement addition. */
  function AddInt64(a: int64, b: int64): int64 {
    var s := a + b;
    if s > MAX_INT64 then s - 0x1_0000_0000_0000_0000
    else if s < MIN_INT64 then s + 0x1_0000_0000_0000_0000
    else s
  }

  /** The delay before any rounding, cap or jitter. */
  function Exponential(p: Policy, attempt: int): real {
    Times(p.min as real, Power(p.factor, attempt - 1))
  }

  function Times(x: real, y: real): real { x * y }

  /** The delay both implementations compute, for a policy that has its defaults. */
  function Delay(p: Policy, attempt: int, u: real, o: Overflow): int64 {
    var d := Capped(ToInt64(Exponential(p, attempt), o.base), p.max);
    if p.jitter > 0.0
    then Capped(Floored(AddInt64(d, ToInt64(Product(d as real, u, p.jitter), o.delta)), p.min), p.max)
    else d
  }

  function Product(x: real, y: real, z: real): real { x * y * z }

  lemma ProductAssociates(x: real, y: real, z: real)
    ensures Product(x, y, z) == x * (y * z)
  {
  }

  function Capped(d: int64, max: int64): int64 { if d > max then max else d }
  function Floored(d: int64, min: int64): int64 { if d < min then min else d }

  // ---------------------------------------------------------------- the code

  method Pow(a: real, n: int) returns (out: real)
    ensures out == Power(a, n)
  {
    out := 1.0;
    var i := 0;
    while i < n
      invariant 0 <= i && (i <= n || i == 0)
      invariant out == Power(a, i)
    {
      out := out * a;
      i := i + 1;
    }
  }

  /** The supervisor's version: the factor is raised to a power first. */
  method DurationByPower(policy: Policy, attempt: int, u: real, o: Overflow) returns (d: int64)
    ensures d == Delay(WithDefaults(policy), attempt, u, o)
  {
    var b := WithDefaults(policy);
    var exp := Raise(b, attempt);
    d := ToInt64(exp, o.base);
    if d > b.max {
      d := b.max;
    }
    if b.jitter > 0.0 {
      var swing := Swing(d as real, u, b.jitter);
      d := Jitter(b, d, swing, o.delta);
    }
  }

  method Raise(b: Policy, attempt: int) returns (exp: real)
    ensures exp == Exponential(b, attempt)
  {
    var pow := Pow(b.factor, attempt - 1);
    exp := b.min as real * pow;
  }

  /** The draw is scaled by the jitter first, then applied to the delay. */
  method Swing(base: real, u: real, jitter: real) returns (swing: real)
    ensures swing == Product(base, u, jitter)
  {
    ProductAssociates(base, u, jitter);
    var j := u * jitter;
    swing := base * j;
  }

  /** The jitter added to a delay, the sum then clamped to the policy's bounds. */
  method Jitter(b: Policy, base: int64, swing: real, otherwise: int64) returns (d: int64)
    ensures d == Capped(Floored(AddInt64(base, ToInt64(swing, otherwise)), b.min), b.max)
  {
    var delta := ToInt64(swing, otherwise);
    d := AddInt64(base, delta);
    if d < b.min {
      d := b.min;
    }
    if d > b.max {
      d := b.max;
    }
  }

  /** The jitter fraction the process runner reads off the clock. */
  function ClockFraction(nanos: nat): (u: real)
    ensures -1.0 <= u < 1.0
  {
    (nanos % 2000 - 1000) as real / 1000.0
  }

  method Multiply(b: Policy, attempt: int) returns (exp: real)
    ensures exp == Exponential(b, attempt)
  {
    exp := b.min as real;
    var i := 1;
    while i < attempt
      invariant 1 <= i && (i <= attempt || i == 1)
      invariant exp == Exponential(b, i)
    {
      ProductAssociates(b.min as real, Power(b.factor, i - 1), b.factor);
      exp := exp * b.factor;
      i := i + 1;
    }
  }

  /** The process runner's version: the factor is multiplied in step by step. */
  method DurationByProduct(policy: Policy, attempt: int, nanos: nat, o: Overflow) returns (d: int64)
    ensures d == Delay(WithDefaults(policy), attempt, ClockFraction(nanos), o)
  {
    var b := WithDefaults(policy);
    var exp := Multiply(b, attempt);
    d := ToInt64(exp, o.base);
    if d > b.max {
      d := b.max;
    }
    if b.jitter > 0.0 {
      var j := ClockFraction(nanos);
      var swing := Product(d as real, j, b.jitter);
      d := Jitter(b, d, swing, o.delta);
    }
  }

  // ------------------------------------------------------------- properties

  lemma {:induction false} PowerAtLeastOne(a: real, n: int)
    requires a >= 1.0
    ensures Power(a, n) >= 1.0
    decreases n
  {
    if n <= 0 {
    } else {
      PowerAtLeastOne(a, n - 1);
      TimesMonotone(Power(a, n - 1), 1.0, a);
    }
  }

  lemma {:induction false} PowerMonotone(a: real, m: int, n: int)
    requires a >= 1.0 && m <= n
    ensures 1.0 <= Power(a, m) <= Power(a, n)
    decreases n
  {
    PowerAtLeastOne(a, m);
    if m == n || n <= 0 {
    } else {
      PowerMonotone(a, m, n - 1);
      TimesMonotone(Power(a, n - 1), 1.0, a);
    }
  }

  lemma {:induction false} PowerShrinks(a: real, n: int)
    requires 0.0 < a < 1.0 && n > 0
    ensures 0.0 < Power(a, n) < 1.0
    decreases n
  {
    if n == 1 {
    } else {
      PowerShrinks(a, n - 1);
    }
  }

  /** Bernoulli's inequality. */
  lemma {:induction false} PowerGrows(a: real, n: nat)
    requires a >= 1.0
    ensures Power(a, n) >= 1.0 + Times(n as real, a - 1.0)
  {
    if n == 0 {
    } else {
      var p := Power(a, n - 1);
      PowerGrows(a, n - 1);
      PowerMonotone(a, 0, n - 1);
      TimesMonotone(a - 1.0, 1.0, p);
      OneMoreFactor(p, a);
      OneMoreStep(n, a - 1.0);
    }
  }

  lemma OneMoreFactor(p: real, a: real)
    ensures p * a == p + Times(a - 1.0, p)
  {
  }

  lemma OneMoreStep(n: nat, d: real)
    requires n > 0
    ensures Times(n as real, d) == Times((n - 1) as real, d) + Times(d, 1.0)
  {
    var m := (n - 1) as real;
    assert n as real == m + 1.0;
    assert (m + 1.0) * d == m * d + d;
  }

  lemma ExponentialAtLeastMin(p: Policy, attempt: int)
    requires p.min > 0 && p.factor > 0.0
    ensures Exponential(p, attempt) > 0.0
    ensures Truncate(Exponential(p, attempt)) >= p.min <==> attempt <= 1 || p.factor >= 1.0
  {
    var min, pow := p.min as real, Power(p.factor, attempt - 1);
    if p.factor >= 1.0 {
      PowerMonotone(p.factor, attempt - 1, attempt - 1);
      TimesMonotone(min, 1.0, pow);
    } else if attempt > 1 {
      PowerShrinks(p.factor, attempt - 1);
      TimesStrict(min, 0.0, pow);
      TimesStrict(min, pow, 1.0);
    }
  }

  /** A delay lies between the policy's bounds, whatever an out-of-range conversion
      yields, exactly when the bounds are in order and there is jitter (the result is
      then clamped on both sides) or the exponential fits an int64 and is at least the
      minimum. */
  lemma DelayWithinBoundsIff(policy: Policy, attempt: int, u: real)
    ensures var p := WithDefaults(policy);
            (forall o :: p.min <= Delay(p, attempt, u, o) <= p.max) <==>
            p.min <= p.max
            && (p.jitter > 0.0 || (Fits(Exponential(p, attempt)) && (attempt <= 1 || p.factor >= 1.0)))
  {
    var p := WithDefaults(policy);
    ExponentialAtLeastMin(p, attempt);
    if p.jitter == 0.0 {
      var o := Overflow(0, 0);
      assert Delay(p, attempt, u, o) == Capped(ToInt64(Exponential(p, attempt), o.base), p.max);
    }
  }

  /** Without jitter a later attempt never waits less, whatever an out-of-range
      conversion yields, exactly if the later exponential fits an int64. */
  lemma DelayMonotoneIff(policy: Policy, early: int, late: int, u: real)
    requires early <= late && WithDefaults(policy).jitter == 0.0 && WithDefaults(policy).factor >= 1.0
    ensures var p := WithDefaults(policy);
            (forall o1, o2 :: Delay(p, early, u, o1) <= Delay(p, late, u, o2)) <==> Fits(Exponential(p, late))
  {
    var p := WithDefaults(policy);
    if Fits(Exponential(p, late)) {
      forall o1, o2 ensures Delay(p, early, u, o1) <= Delay(p, late, u, o2) {
        FittingDelayMonotone(policy, early, late, u, o1, o2);
      }
    } else {
      var o1, o2 := Overflow(0, 0), Overflow(MIN_INT64, 0);
      ExponentialMonotone(p, early, late);
      assert Delay(p, early, u, o1) > Delay(p, late, u, o2);
    }
  }

  lemma FittingDelayMonotone(policy: Policy, early: int, late: int, u: real, o1: Overflow, o2: Overflow)
    requires early <= late
    requires var p := WithDefaults(policy);
             p.jitter == 0.0 && p.factor >= 1.0 && Fits(Exponential(p, late))
    ensures var p := WithDefaults(policy);
            Fits(Exponential(p, early)) && Delay(p, early, u, o1) <= Delay(p, late, u, o2)
  {
    var p := WithDefaults(policy);
    ExponentialMonotone(p, early, late);
  }

  lemma ExponentialMonotone(p: Policy, early: int, late: int)
    requires early <= late && p.factor >= 1.0 && p.min > 0
    ensures 0.0 < Exponential(p, early) <= Exponential(p, late)
  {
    PowerMonotone(p.factor, early - 1, late - 1);
    TimesStrict(p.min as real, 0.0, Power(p.factor, early - 1));
    TimesMonotone(p.min as real, Power(p.factor, early - 1), Power(p.factor, late - 1));
  }

  // -------------------------------------------- reaching the maximum delay

  /** Without jitter a delay is the maximum, whatever an out-of-range conversion
      yields, exactly if the exponential fits an int64 and has reached the maximum. */
  lemma WaitsMaxIff(policy: Policy, attempt: int, u: real)
    requires WithDefaults(policy).jitter == 0.0
    ensures var p := WithDefaults(policy);
            (forall o :: Delay(p, attempt, u, o) == p.max) <==>
            Fits(Exponential(p, attempt)) && Exponential(p, attempt) >= p.max as real
  {
    var p := WithDefaults(policy);
    ExponentialAtLeastMin(p, attempt);
    assert Delay(p, attempt, u, Overflow(0, 0)) == Capped(ToInt64(Exponential(p, attempt), 0), p.max);
  }

  /** The least real past the int64 range. */
  const INT64_END: real := 9223372036854775808.0

  predicate Grows(p: Policy) {
    p.min > 0 && p.factor > 1.0
  }

  /** An attempt by which the exponential has reached a bound. */
  function SearchEnd(p: Policy, bound: real): int
    requires Grows(p) && bound > 0.0
  {
    2 + Ratio(bound, FirstStep(p)).Floor
  }

  /** The growth of the exponential from the first attempt to the second. */
  function FirstStep(p: Policy): (step: real)
    requires Grows(p)
    ensures step > 0.0
  {
    TimesStrict(p.min as real, 0.0, p.factor - 1.0);
    Times(p.min as real, p.factor - 1.0)
  }

  function Ratio(x: real, y: real): (q: real)
    requires x > 0.0 && y > 0.0
    ensures q > 0.0 && Times(y, q) == x
  {
    x / y
  }

  lemma ExponentialReaches(p: Policy, bound: real, attempt: int)
    requires Grows(p) && bound > 0.0 && attempt >= SearchEnd(p, bound)
    ensures Exponential(p, attempt) >= bound
  {
    var step := FirstStep(p);
    var q := Ratio(bound, step);
    var n := attempt - 1;
    assert n as real >= q;
    PowerGrows(p.factor, n);
    TimesMonotone(p.min as real, 1.0 + Times(n as real, p.factor - 1.0), Power(p.factor, n));
    TimesMonotone(step, q, n as real);
    TimesDistributes(p.min as real, n as real, p.factor - 1.0);
  }

  /** The first attempt whose exponential has reached a bound. */
  function FirstReaching(p: Policy, bound: real): (k: int)
    requires Grows(p) && bound > 0.0
    ensures k >= 1 && Exponential(p, k) >= bound
    ensures forall a | 1 <= a < k :: Exponential(p, a) < bound
  {
    SearchFrom(p, bound, 1)
  }

  function SearchFrom(p: Policy, bound: real, from: int): (k: int)
    requires Grows(p) && bound > 0.0
    ensures k >= from && Exponential(p, k) >= bound
    ensures forall a | from <= a < k :: Exponential(p, a) < bound
    decreases SearchEnd(p, bound) - from
  {
    if Exponential(p, from) >= bound then from
    else
      assert from < SearchEnd(p, bound) by {
        if from >= SearchEnd(p, bound) {
          ExponentialReaches(p, bound, from);
        }
      }
      SearchFrom(p, bound, from + 1)
  }

  lemma ReachedIff(p: Policy, bound: real, attempt: int)
    requires Grows(p) && bound > 0.0 && attempt >= 1
    ensures Exponential(p, attempt) >= bound <==> attempt >= FirstReaching(p, bound)
  {
    if attempt >= FirstReaching(p, bound) {
      ExponentialMonotone(p, FirstReaching(p, bound), attempt);
    }
  }

  /** With a factor above one and no jitter there is a first attempt whose exponential
      has reached the maximum and a first one that is past the int64 range: the delay
      is sure to be the maximum from the one up to the other, and only there. */
  lemma DelaySaturatesIff(policy: Policy, attempt: int, u: real)
    requires WithDefaults(policy).jitter == 0.0 && WithDefaults(policy).factor > 1.0 && attempt >= 1
    ensures var p := WithDefaults(policy);
            (forall o :: Delay(p, attempt, u, o) == p.max) <==>
            FirstReaching(p, p.max as real) <= attempt < FirstReaching(p, INT64_END)
  {
    var p := WithDefaults(policy);
    WaitsMaxIff(policy, attempt, u);
    ReachedIff(p, p.max as real, attempt);
    ReachedIff(p, INT64_END, attempt);
    ExponentialAtLeastMin(p, attempt);
  }

  lemma FirstReachingIs(p: Policy, bound: real, k: int)
    requires Grows(p) && bound > 0.0 && k > 1
    requires Exponential(p, k - 1) < bound <= Exponential(p, k)
    ensures FirstReaching(p, bound) == k
  {
    ReachedIff(p, bound, k - 1);
    ReachedIff(p, bound, k);
  }

  const FORWARDER_POLICY := Policy(200_000_000, 10_000_000_000, 2.0, 0.2)

  /** The default policy waits its thirty seconds for sure from attempt 10 to 37, and
      the log forwarder's reaches its ten seconds, before jitter, from 7 to 36. */
  lemma SaturationOfThePolicies()
    ensures var p := WithDefaults(Policy(0, 0, 0.0, 0.0));
            FirstReaching(p, p.max as real) == 10 && FirstReaching(p, INT64_END) == 38
    ensures var p := WithDefaults(FORWARDER_POLICY);
            FirstReaching(p, p.max as real) == 7 && FirstReaching(p, INT64_END) == 37
  {
    PowersOfTwo();
    var p, f := WithDefaults(Policy(0, 0, 0.0, 0.0)), WithDefaults(FORWARDER_POLICY);
    FirstReachingIs(p, p.max as real, 10);
    FirstReachingIs(p, INT64_END, 38);
    FirstReachingIs(f, f.max as real, 7);
    FirstReachingIs(f, INT64_END, 37);
  }

  lemma TimesMonotone(k: real, x: real, y: real)
    requires x <= y && k >= 0.0
    ensures Times(k, x) <= Times(k, y)
  {
  }

  lemma TimesStrict(k: real, x: real, y: real)
    requires x < y && k > 0.0
    ensures Times(k, x) < Times(k, y)
  {
  }

  lemma TimesDistributes(k: real, n: real, x: real)
    ensures Times(k, 1.0 + n * x) == k + Times(Times(k, x), n)
  {
  }

  /** With the default minimum and factor the exponential fits an int64 up to
      the 37th attempt and never after it. */
  lemma DefaultFitsIff(p: Policy, attempt: int)
    requires p.min == DEFAULT_MIN && p.factor == DEFAULT_FACTOR
    ensures Fits(Exponential(p, attempt)) <==> attempt <= 37
  {
    PowersOfTwo();
    if attempt <= 37 {
      PowerMonotone(2.0, attempt - 1, 36);
    } else {
      PowerMonotone(2.0, 37, attempt - 1);
    }
  }

  lemma PowersOfTwo()
    ensures Power(2.0, 5) == 32.0 && Power(2.0, 6) == 64.0 && Power(2.0, 8) == 256.0 && Power(2.0, 9) == 512.0
    ensures Power(2.0, 35) == 34359738368.0 && Power(2.0, 36) == 68719476736.0 && Power(2.0, 37) == 137438953472.0
  {
    assert Power(2.0, 5) == 32.0;
    assert Power(2.0, 8) == 256.0;
    assert Power(2.0, 16) == 65536.0;
    assert Power(2.0, 24) == 16777216.0;
    assert Power(2.0, 32) == 4294967296.0;
  }

  /** Past that attempt the bounds can be lost: without jitter, the 38th delay of
      the default policy is negative when the conversion yields the least int64. */
  lemma DefaultWithoutJitterCanGoNegative()
    ensures var p := WithDefaults(Policy(0, 0, 0.0, 0.0));
            Delay(p, 38, 0.0, Overflow(MIN_INT64, 0)) < 0
  {
    DefaultFitsIff(WithDefaults(Policy(0, 0, 0.0, 0.0)), 38);
  }

  // ---------------------------------------------- the delay, step by step

  /** The draw read off the clock: its last digits, in thousandths around zero. */
  lemma ClockFractionIs(nanos: nat)
    ensures ClockFraction(nanos) * 1000.0 == (nanos % 2000) as real - 1000.0
  {
  }

  /** What a policy says is kept where it makes sense. */
  lemma WithDefaultsIs(p: Policy)
    ensures var q := WithDefaults(p);
            && (p.min > 0 ==> q.min == p.min) && (p.min <= 0 ==> q.min == 100_000_000)
            && (p.max > 0 ==> q.max == p.max) && (p.max <= 0 ==> q.max == 30_000_000_000)
            && (p.factor > 0.0 ==> q.factor == p.factor) && (p.factor <= 0.0 ==> q.factor == 2.0)
            && (0.0 <= p.jitter <= 1.0 ==> q.jitter == p.jitter)
            && (p.jitter < 0.0 ==> q.jitter == 0.0) && (p.jitter > 1.0 ==> q.jitter == 1.0)
  {
  }

  /** The delay starts at the minimum and is multiplied by the factor from one attempt to
      the next. */
  lemma ExponentialSteps(p: Policy, attempt: int)
    ensures attempt <= 1 ==> Exponential(p, attempt) == p.min as real
    ensures attempt >= 1 ==> Exponential(p, attempt + 1) == Exponential(p, attempt) * p.factor
  {
    if attempt >= 1 {
      ProductAssociates(p.min as real, Power(p.factor, attempt - 1), p.factor);
    }
  }

  lemma TruncateTowardZero(x: real)
    ensures x >= 0.0 ==> Truncate(x) as real <= x < Truncate(x) as real + 1.0
    ensures x <= 0.0 ==> Truncate(x) as real - 1.0 < x <= Truncate(x) as real
  {
  }

  lemma SumWraps(a: int64, b: int64)
    ensures MIN_INT64 <= a + b <= MAX_INT64 ==> AddInt64(a, b) == a + b
    ensures (AddInt64(a, b) - (a + b)) % 0x1_0000_0000_0000_0000 == 0
  {
  }

  /** The share of a delay that draw and jitter move it by. */
  lemma ProductIs(x: real, y: real, z: real)
    ensures Product(x, y, z) == x * y * z
  {
  }

  /** The delay, in range: the exponential rounded toward zero and capped, then moved by
      its share of the draw and the jitter, and kept within the bounds. */
  lemma DelayIs(p: Policy, attempt: int, u: real, o: Overflow, base: int, swing: real, moved: int)
    requires p.min > 0 && p.max > 0 && p.min <= p.max && Fits(Exponential(p, attempt))
    requires var rounded := Truncate(Exponential(p, attempt)); base == if rounded > p.max then p.max else rounded
    requires swing == Product(base as real, u, p.jitter) && moved == base + Truncate(swing)
    requires Fits(swing) && MIN_INT64 <= moved <= MAX_INT64
    ensures p.jitter <= 0.0 ==> Delay(p, attempt, u, o) == base
    ensures p.jitter > 0.0 ==>
              Delay(p, attempt, u, o) == if moved < p.min then p.min else if moved > p.max then p.max else moved
  {
  }
}
