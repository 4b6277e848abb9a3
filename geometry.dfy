/** The play field and the rectangle test every collision in the game goes through. */
module Geometry {

  /** Size of the panel the simulation runs in, in pixels. */
  const PanelWidth: int := 800
  const PanelHeight: int := 600

  /** An integer rectangle by its top-left corner, width and height, as java.awt.Rectangle holds it. */
  datatype Rect = Rect(x: int, y: int, w: int, h: int)
  {
    /** A rectangle with no area. */
    predicate IsEmpty() { w <= 0 || h <= 0 }

    /** The pixel (px, py) lies inside the rectangle. */
    predicate Contains(px: int, py: int) { x <= px < x + w && y <= py < y + h }
  }

  /** The overlap test of java.awt.Rectangle.intersects, taken as an assumption about the library:
      the interiors overlap strictly, and a rectangle with no area meets nothing. When they do
      intersect, the pixel at the later of the two left edges and the later of the two top edges
      lies in both. */
  predicate Intersects(a: Rect, b: Rect)
    ensures Intersects(a, b) ==>
      var px := if a.x < b.x then b.x else a.x;
      var py := if a.y < b.y then b.y else a.y;
      a.Contains(px, py) && b.Contains(px, py)
  {
    !a.IsEmpty() && !b.IsEmpty() &&
    a.x < b.x + b.w && b.x < a.x + a.w &&
    a.y < b.y + b.h && b.y < a.y + a.h
  }

  /** Two rectangles intersect exactly when some pixel lies in both. */
  lemma IntersectsIffSharedPixel(a: Rect, b: Rect)
    ensures Intersects(a, b) <==> exists px, py :: a.Contains(px, py) && b.Contains(px, py)
  {
    if Intersects(a, b) {
      var px := if a.x < b.x then b.x else a.x;
      var py := if a.y < b.y then b.y else a.y;
      assert a.Contains(px, py) && b.Contains(px, py);
    }
  }

  /** The test does not depend on which rectangle asks. */
  lemma IntersectsSymmetric(a: Rect, b: Rect)
    ensures Intersects(a, b) == Intersects(b, a)
  {
  }

  /** Java's (int) cast of a double: the integer part, rounding toward zero
      (saturation at the 32-bit range is not modelled). */
  function Trunc(r: real): (n: int)
    ensures 0.0 <= r ==> 0 <= n && n as real <= r < n as real + 1.0
    ensures r < 0.0 ==> n <= 0 && n as real - 1.0 < r <= n as real
  {
    if r >= 0.0 then r.Floor else -((-r).Floor)
  }

  /** Truncating an integer-valued double gives that integer back. */
  lemma TruncOfInt(n: int)
    ensures Trunc(n as real) == n
  {
  }

  /** Truncation toward zero differs from flooring exactly on negative non-integers. */
  lemma TruncNegative(r: real)
    requires r < 0.0 && r.Floor as real != r
    ensures Trunc(r) == r.Floor + 1
  {
  }

  /** The absolute value of a real, as Math.abs. */
  function Abs(r: real): (a: real)
    ensures 0.0 <= a && (a == r || a == -r)
  {
    if r < 0.0 then -r else r
  }
}
