/**
 Plane geometry for the postcard screen: sizes and rectangles over exact reals
 (standing for CoreGraphics' CGFloat), and Swift's `round`.
 */
module Geometry {

  /** A CGSize. */
  datatype Size = Size(width: real, height: real)

  /** A CGRect given by its origin and its size. */
  datatype Rect = Rect(x: real, y: real, width: real, height: real) {

    function Right(): real { x + width }

    function Bottom(): real { y + height }

    function Extent(): Size { Size(width, height) }
  }

  function Max(a: real, b: real): real { if a >= b then a else b }

  /** n is a whole number. */
  ghost predicate IsIntegral(n: real) {
    n.Floor as real == n
  }

  /** n is what Swift's `round` gives for x: the nearest whole number,
      a tie going away from zero. */
  ghost predicate RoundsTo(x: real, n: real) {
    && IsIntegral(n)
    && if x >= 0.0 then n - 0.5 <= x < n + 0.5 else n - 0.5 < x <= n + 0.5
  }

  /** `Floor` is the whole number at or below x and within one of it. */
  lemma FloorBounds(x: real)
    ensures x.Floor as real <= x < x.Floor as real + 1.0
  {
  }

  /** A whole number k with k <= x < k + 1 is the floor of x. */
  lemma FloorUnique(x: real, k: int)
    requires k as real <= x < k as real + 1.0
    ensures x.Floor == k
  {
  }

  /** Swift's `round` on CGFloat (schoolbook rounding), over exact reals. */
  function Round(x: real): (r: real)
    ensures RoundsTo(x, r)
    ensures x >= 0.0 ==> r >= 0.0
  {
    if x >= 0.0 then
      var k := (x + 0.5).Floor;
      FloorBounds(x + 0.5);
      FloorUnique(k as real, k);
      k as real
    else
      var k := (-x + 0.5).Floor;
      FloorBounds(-x + 0.5);
      FloorUnique(-(k as real), -k);
      -(k as real)
  }

  /** The rounding relation has exactly one solution, the one `Round` returns. */
  lemma RoundUnique(x: real, n: real)
    requires RoundsTo(x, n)
    ensures n == Round(x)
  {
    var k := n.Floor;
    if x >= 0.0 {
      FloorUnique(x + 0.5, k);
    } else {
      FloorUnique(-x + 0.5, -k);
    }
  }

  /** Rounding never leaves the closed interval between two whole numbers
      that contain its argument. */
  lemma RoundWithin(x: real, lo: real, hi: real)
    requires IsIntegral(lo) && IsIntegral(hi)
    requires lo <= x <= hi
    ensures lo <= Round(x) <= hi
  {
    // Round(x) and both bounds are whole, and Round(x) is within one half
    // of x, so Round(x) cannot lie beyond either bound.
    var r := Round(x);
    var k, a, b := r.Floor, lo.Floor, hi.Floor;
    assert x - 0.5 <= r <= x + 0.5;
    assert a as real - 0.5 <= k as real <= b as real + 0.5;
    assert a <= k <= b;
  }

  /** inner sits inside outer with a margin of exactly m on every side. */
  ghost predicate InsetBy(outer: Rect, inner: Rect, m: real) {
    && inner.x == outer.x + m
    && inner.y == outer.y + m
    && inner.Right() == outer.Right() - m
    && inner.Bottom() == outer.Bottom() - m
  }

  /** inner lies strictly inside outer, touching none of its edges. */
  ghost predicate StrictlyInside(outer: Rect, inner: Rect) {
    && outer.x < inner.x
    && outer.y < inner.y
    && inner.Right() < outer.Right()
    && inner.Bottom() < outer.Bottom()
  }

  /** A positive margin on every side keeps inner off all of outer's edges. */
  lemma InsetIsStrictlyInside(outer: Rect, inner: Rect, m: real)
    requires InsetBy(outer, inner, m) && m > 0.0
    ensures StrictlyInside(outer, inner)
  {
  }

  /** lower starts gap units below the bottom edge of upper. */
  ghost predicate BelowBy(upper: Rect, lower: Rect, gap: real) {
    lower.y == upper.Bottom() + gap
  }
}
