/**
 * The few JavaScript number operations the clipper relies on, over exact
 * reals: Math.min, Math.max, the [0,100] clamp and the remainder operator.
 */
module JsMath {

  /** Math.min of two numbers. */
  function Min(a: real, b: real): (r: real)
    ensures r <= a && r <= b
    ensures r == a || r == b
  {
    if a <= b then a else b
  }

  /** Math.max of two numbers. */
  function Max(a: real, b: real): (r: real)
    ensures r >= a && r >= b
    ensures r == a || r == b
  {
    if a >= b then a else b
  }

  /** `Math.max(0, Math.min(100, v))`: the clamp to a percentage. */
  function ClampPercent(v: real): (r: real)
    ensures 0.0 <= r <= 100.0
    ensures 0.0 <= v <= 100.0 ==> r == v
    ensures v < 0.0 ==> r == 0.0
    ensures v > 100.0 ==> r == 100.0
  {
    Max(0.0, Min(100.0, v))
  }

  /** A real with no fractional part. */
  predicate IsWhole(q: real) {
    q.Floor as real == q
  }

  /** Truncation toward zero: the quotient JavaScript's `%` is based on. */
  function Trunc(q: real): (n: int)
    ensures q >= 0.0 ==> 0 <= n && n as real <= q < n as real + 1.0
    ensures q < 0.0 ==> n <= 0 && n as real - 1.0 < q <= n as real
  {
    if q >= 0.0 then q.Floor else -((-q).Floor)
  }

  /**
   * JavaScript `r % 360`: the remainder of the truncated division, which
   * takes the sign of r (so -10 % 360 is -10, not 350).
   */
  function Rem360(r: real): (m: real)
    ensures -360.0 < m < 360.0
    ensures r >= 0.0 ==> m >= 0.0
    ensures r <= 0.0 ==> m <= 0.0
    ensures IsWhole((r - m) / 360.0)
    ensures -360.0 < r < 360.0 ==> m == r
  {
    var q := Trunc(r / 360.0);
    assert IsWhole(q as real);
    r - 360.0 * q as real
  }

  /** Two whole numbers that are less than one apart are equal. */
  lemma WholeCloseEqual(a: real, b: real)
    requires IsWhole(a) && IsWhole(b)
    requires -1.0 < a - b < 1.0
    ensures a == b
  {
    var i, j := a.Floor, b.Floor;
    assert -1 < i - j < 1;
  }

  /**
   * The remainder is characterised by its contract: any m of the sign of r,
   * of magnitude below 360 and differing from r by a whole multiple of 360
   * is Rem360(r).
   */
  lemma Rem360Unique(r: real, m: real)
    requires -360.0 < m < 360.0
    requires r > 0.0 ==> m >= 0.0
    requires r < 0.0 ==> m <= 0.0
    requires IsWhole((r - m) / 360.0)
    ensures m == Rem360(r)
  {
    var n := Rem360(r);
    WholeCloseEqual((r - m) / 360.0, (r - n) / 360.0);
  }

  /** Taking the remainder twice changes nothing. */
  lemma Rem360Idempotent(r: real)
    ensures Rem360(Rem360(r)) == Rem360(r)
  {
  }

  /** Sample values: a full turn is removed and negative inputs keep their sign. */
  lemma Rem360Samples()
    ensures Rem360(370.0) == 10.0
    ensures Rem360(-10.0) == -10.0
    ensures Rem360(-370.0) == -10.0
    ensures Rem360(720.0) == 0.0
    ensures Rem360(360.0) == 0.0
  {
  }
}
