/**
 * Integer widths and the ceiling used by the autoscaler.
 *
 * Go's `int32` and `int64` become subset types of `int`; every conversion that
 * could leave their range is guarded by a precondition where it happens.
 * `math.Ceil` on `float64` becomes an exact ceiling on `real`.
 */
module Numerics {

  const MinInt32: int := -0x8000_0000
  const MaxInt32: int := 0x7fff_ffff
  const MinInt64: int := -0x8000_0000_0000_0000
  const MaxInt64: int := 0x7fff_ffff_ffff_ffff

  type Int32 = x: int | MinInt32 <= x <= MaxInt32
  type Int64 = x: int | MinInt64 <= x <= MaxInt64

  predicate InInt32(x: int) {
    MinInt32 <= x <= MaxInt32
  }

  /** The least integer that is not below `x`. */
  function Ceil(x: real): (r: int)
    ensures x <= r as real < x + 1.0
  {
    -((-x).Floor)
  }

  /** The two bounds of `Ceil` determine it. */
  lemma CeilUnique(x: real, n: int)
    requires x <= n as real < x + 1.0
    ensures Ceil(x) == n
  {
  }

  /** An integer is its own ceiling. */
  lemma CeilOfWhole(n: int)
    ensures Ceil(n as real) == n
  {
    CeilUnique(n as real, n);
  }

  /** Multiplying a positive count by a factor above one and rounding up grows it. */
  lemma CeilOfGrowth(c: int, f: real)
    requires c > 0 && f > 1.0
    ensures Ceil(c as real * f) > c
  {
    assert c as real * f > c as real * 1.0;
  }

  /**
   * Dividing a positive count by a factor above one and rounding up keeps at
   * least one and at most the count, and the result times the factor covers
   * the count.
   */
  lemma CeilOfShrink(c: int, f: real)
    requires c > 0 && f > 1.0
    ensures 1 <= Ceil(c as real / f) <= c
    ensures Ceil(c as real / f) as real * f >= c as real
  {
    var q := c as real / f;
    QuotientBelow(c as real, f);
    var n := Ceil(q);
    MultiplyAtLeast(n as real, q, f);
  }

  /** A positive amount divided by a factor above one is positive and smaller. */
  lemma QuotientBelow(x: real, f: real)
    requires x > 0.0 && f > 1.0
    ensures 0.0 < x / f < x
    ensures x / f * f == x
  {
    assert x / f * 1.0 < x / f * f;
  }

  /** Multiplying by a positive factor keeps a non-strict order. */
  lemma MultiplyAtLeast(x: real, y: real, f: real)
    requires x >= y && f > 0.0
    ensures x * f >= y * f
  {
    assert x * f - y * f == (x - y) * f;
  }

  /** A non-negative amount does not shrink under a factor of at least one. */
  lemma ScaleUp(x: real, f: real)
    requires x >= 0.0 && f >= 1.0
    ensures x * f >= x
  {
    assert x * f - x == x * (f - 1.0);
  }
}
