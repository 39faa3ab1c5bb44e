/** Small numeric helpers shared by the barn estimator: JavaScript's
    `Math.max`/`Math.min` clamp, `Math.round`-based rounding to cents, and the
    relation a square root must satisfy. All arithmetic is on exact reals. */
module Numeric {

  function Max(a: real, b: real): (r: real)
    ensures r >= a && r >= b
    ensures r == a || r == b
  {
    if a >= b then a else b
  }

  function Min(a: real, b: real): (r: real)
    ensures r <= a && r <= b
    ensures r == a || r == b
  {
    if a <= b then a else b
  }

  /** `clamp(x, a, b)`, written as the source writes it: `max(a, min(b, x))`. */
  function Clamp(x: real, lo: real, hi: real): (r: real)
    ensures lo <= hi ==> lo <= r <= hi
    ensures lo <= x <= hi ==> r == x
    ensures x < lo ==> r == lo
    ensures lo <= hi && hi < x ==> r == hi
  {
    Max(lo, Min(hi, x))
  }

  /** True when `x` is a whole number. */
  predicate IsWhole(x: real)
  {
    x.Floor as real == x
  }

  /** `Math.round(x * 100) / 100`: JavaScript's `Math.round(v)` is `floor(v + 0.5)`,
      so halves round towards positive infinity. The result is a whole number of
      hundredths and lies in the half-open window (x - 0.005, x + 0.005]. */
  function Round2(x: real): (r: real)
    ensures IsWhole(r * 100.0)
    ensures x - 0.005 < r <= x + 0.005
  {
    var n := (x * 100.0 + 0.5).Floor;
    assert (n as real / 100.0) * 100.0 == n as real;
    n as real / 100.0
  }

  /** The two facts in Round2's contract pin its result down: no other whole
      number of hundredths lies in the window. */
  lemma Round2Unique(x: real, q: real)
    requires IsWhole(q * 100.0)
    requires x - 0.005 < q <= x + 0.005
    ensures q == Round2(x)
  {
    var r := Round2(x);
    var m, n := (q * 100.0).Floor, (r * 100.0).Floor;
    assert m as real == q * 100.0 && n as real == r * 100.0;
    assert -1.0 < m as real - n as real < 1.0;
    assert m == n;
  }

  /** `r` is the non-negative square root of `x` (what `Math.sqrt` returns). */
  predicate IsRoot(x: real, r: real)
  {
    r >= 0.0 && r * r == x
  }

  /** Multiplying by a non-negative factor keeps an inequality. */
  lemma MulMonotone(k: real, a: real, b: real)
    requires k >= 0.0 && a <= b
    ensures k * a <= k * b && a * k <= b * k
  {
    var gap := b - a;
    assert k * gap >= 0.0;
    assert k * b == k * a + k * gap;
  }

  /** A non-negative factor times a value in [lo, hi] lies in [k * lo, k * hi]. */
  lemma MulBetween(k: real, f: real, lo: real, hi: real)
    requires lo <= f <= hi
    ensures k >= 0.0 ==> k * lo <= k * f <= k * hi
  {
    if k >= 0.0 {
      MulMonotone(k, lo, f);
      MulMonotone(k, f, hi);
    }
  }

  /** A value and its negation have the same square. */
  lemma SquareOfEither(a: real, b: real)
    requires a == b || a == -b
    ensures a * a == b * b
  {
  }

  /** Squaring is strictly increasing on the non-negative reals. */
  lemma SquareStrictlyMonotone(a: real, b: real)
    requires a >= 0.0 && b >= 0.0
    ensures a > b ==> a * a > b * b
  {
    if a > b {
      var upper, middle, lower := a * a, b * a, b * b;
      assert upper > middle;
      assert middle >= lower;
    }
  }

  /** Square roots grow with their squares. */
  lemma RootMonotone(x1: real, r1: real, x2: real, r2: real)
    requires IsRoot(x1, r1) && IsRoot(x2, r2)
    requires x1 <= x2
    ensures r1 <= r2
  {
    SquareStrictlyMonotone(r1, r2);
  }
}
