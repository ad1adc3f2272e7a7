/**
 * Numeric helpers shared by every component: the `Math.min`/`Math.max`/`Math.ceil` and `clamp`
 * the source uses, the one-pole filter step used for all smoothing, and the transcendental
 * functions (`Math.hypot`, `Math.exp`, `Math.pow`, `Math.sin`, `Math.cos`), which the model does
 * not compute: they are handed in as function values whose laws are stated by `Lawful`.
 */
module Maths {

  const Pi: real := 3.141592653589793

  function Min(a: real, b: real): real { if a <= b then a else b }

  function Max(a: real, b: real): real { if a >= b then a else b }

  /** `clamp(value, min, max)`, i.e. `Math.min(max, Math.max(min, value))`. */
  function Clamp(value: real, lo: real, hi: real): (r: real)
    ensures lo <= hi ==> lo <= r <= hi
    ensures lo <= value <= hi ==> r == value
    ensures value < lo && lo <= hi ==> r == lo
    ensures value > hi ==> r == hi
  {
    Min(hi, Max(lo, value))
  }

  /** `Math.ceil` on a real, as an integer. */
  function Ceil(x: real): (c: int)
    ensures x <= c as real < x + 1.0
  {
    if x.Floor as real == x then x.Floor else x.Floor + 1
  }

  /**
   * One step of a one-pole filter, `cur += (target - cur) * k`: every smoothed quantity in the
   * source is updated this way.
   */
  function Approach(cur: real, target: real, k: real): real
  {
    cur + (target - cur) * k
  }

  /** A filter step shrinks the distance to the target by the factor `1 - k`. */
  lemma ApproachGap(cur: real, target: real, k: real, r: real)
    requires r == Approach(cur, target, k)
    ensures r - target == (1.0 - k) * (cur - target)
  {
  }

  /** An interval [lo, hi] that contains both ends is kept by a filter step with k in [0, 1]. */
  lemma ApproachStaysIn(cur: real, target: real, k: real, lo: real, hi: real)
    requires 0.0 <= k <= 1.0
    requires lo <= cur <= hi && lo <= target <= hi
    ensures lo <= Approach(cur, target, k) <= hi
  {
    var d := target - cur;
    var p := d * k;
    assert Approach(cur, target, k) == cur + p;
    if d >= 0.0 {
      MulLeq(d, k);
    } else {
      MulLeq(-d, k);
      assert (-d) * k == -p;
    }
  }

  lemma MulLeq(a: real, k: real)
    requires a >= 0.0 && 0.0 <= k <= 1.0
    ensures 0.0 <= a * k <= a
  {
  }

  /** Multiplying by a non-negative factor keeps the order. */
  lemma MulMono(a: real, b: real, k: real)
    requires a <= b && k >= 0.0
    ensures a * k <= b * k
  {
    assert (b - a) * k >= 0.0;
  }

  /** Multiplying by a positive factor keeps the strict order. */
  lemma MulStrict(a: real, b: real, k: real)
    requires a < b && k > 0.0
    ensures a * k < b * k
  {
    assert (b - a) * k > 0.0;
  }

  /** `Math.floor` keeps the order. */
  lemma FloorMono(a: real, b: real)
    requires a <= b
    ensures a.Floor <= b.Floor
  {
    assert a.Floor as real <= a && b < b.Floor as real + 1.0;
  }

  /** `p^n` for a natural exponent. */
  function Power(p: real, n: nat): real
  {
    if n == 0 then 1.0 else p * Power(p, n - 1)
  }

  /** `n` successive filter steps towards the same target. */
  function Relaxed(cur: real, target: real, k: real, n: nat): real
  {
    if n == 0 then cur else Approach(Relaxed(cur, target, k, n - 1), target, k)
  }

  /** After `n` steps the distance to the target has shrunk by exactly `(1 - k)^n`. */
  lemma {:induction false} RelaxedDistance(cur: real, target: real, k: real, n: nat)
    ensures Relaxed(cur, target, k, n) - target == Power(1.0 - k, n) * (cur - target)
  {
    if n > 0 {
      var c, a := 1.0 - k, cur - target;
      var q, p := Power(c, n - 1), Power(c, n);
      var prev, r := Relaxed(cur, target, k, n - 1), Relaxed(cur, target, k, n);
      assert prev - target == q * a by { RelaxedDistance(cur, target, k, n - 1); }
      assert r - target == c * (prev - target) by { ApproachGap(prev, target, k, r); }
      ScaleChain(c, q, p, a, prev - target, r - target);
    }
  }

  lemma ScaleChain(c: real, q: real, p: real, a: real, x: real, y: real)
    requires p == c * q && x == q * a && y == c * x
    ensures y == p * a
  {
  }

  /** With k in [0, 1], repeated steps never move further from the target: `0 <= (1-k)^n <= 1`. */
  lemma {:induction false} PowerInUnit(p: real, n: nat)
    requires 0.0 <= p <= 1.0
    ensures 0.0 <= Power(p, n) <= 1.0
  {
    if n > 0 {
      PowerInUnit(p, n - 1);
      MulLeq(Power(p, n - 1), p);
    }
  }

  /** A sequence of `Math.random()` draws: every value in [0, 1). */
  predicate Units(rnd: seq<real>)
  {
    forall i :: 0 <= i < |rnd| ==> 0.0 <= rnd[i] < 1.0
  }

  /** `base + u * span` with `u` in [0, 1) lies in [base, base + span). */
  lemma UnitSpan(u: real, base: real, span: real)
    requires 0.0 <= u < 1.0 && span > 0.0
    ensures base <= base + u * span < base + span
  {
    assert u * span < 1.0 * span;
  }

  /** `Math.floor(u * n)` with `u` in [0, 1) and `n >= 1` is an index in [0, n). */
  lemma UnitFloor(u: real, n: int)
    requires 0.0 <= u < 1.0 && n >= 1
    ensures 0 <= (u * n as real).Floor < n
  {
    assert 0.0 <= u * n as real;
    assert u * n as real < n as real by { UnitSpan(u, 0.0, n as real); }
  }

  /**
   * The browser's transcendental functions, abstracted. The model never evaluates them; it only
   * relies on the laws in `Lawful`.
   */
  datatype Library = Library(
    hypot: (real, real) -> real,
    exp: real -> real,
    pow: (real, real) -> real,
    sin: real -> real,
    cos: real -> real)

  /** The bounds of the library's functions: lengths are non-negative, decays and powers of [0, 1] stay in it. */
  ghost predicate Lawful(m: Library)
  {
    && (forall a, b :: m.hypot(a, b) >= 0.0)
    && (forall x :: x <= 0.0 ==> 0.0 < m.exp(x) <= 1.0)
    && (forall b, e :: 0.0 <= b <= 1.0 && 0.0 <= e ==> 0.0 <= m.pow(b, e) <= 1.0)
    && (forall b, e :: 0.0 < b <= 1.0 && 0.0 <= e ==> 0.0 < m.pow(b, e))
    && (forall x :: -1.0 <= m.sin(x) <= 1.0)
    && (forall x :: -1.0 <= m.cos(x) <= 1.0)
  }

  /** `Math.hypot(a, b)` is the length of `(a, b)`: its square is `a^2 + b^2`. */
  ghost predicate Pythagorean(m: Library)
  {
    forall a, b :: m.hypot(a, b) * m.hypot(a, b) == a * a + b * b
  }
}
