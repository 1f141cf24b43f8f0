/** Facts about real division and scaling used by both chart projections. */
module RealArith {

  /** A ratio of a part to a positive whole lies in [0, 1]. */
  lemma RatioInUnit(a: real, b: real)
    requires 0.0 <= a <= b
    requires b > 0.0
    ensures 0.0 <= a / b <= 1.0
  {
    assert a / b * b == a;
  }

  /** A non-zero quantity divided by itself is one. */
  lemma SelfRatio(a: real)
    requires a != 0.0
    ensures a / a == 1.0
  {
    assert a / a * a == 1.0 * a;
  }

  /** Flipping a unit fraction of a non-negative height stays within the height. */
  lemma FlipInRange(t: real, h: real)
    requires 0.0 <= t <= 1.0
    requires h >= 0.0
    ensures 0.0 <= h - t * h <= h
  {
    assert t * h <= 1.0 * h;
    assert t * h >= 0.0 * h;
  }

  /** Scaling by a positive factor keeps a strict order. */
  lemma ScaleStrict(i: real, j: real, d: real, w: real)
    requires i < j
    requires d > 0.0 && w > 0.0
    ensures i / d * w < j / d * w
  {
    assert i / d < j / d by {
      assert (j - i) / d > 0.0;
      assert j / d - i / d == (j - i) / d;
    }
    assert (j / d - i / d) * w > 0.0;
  }
}
