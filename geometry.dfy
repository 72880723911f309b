/**
 * Doubles, points and axis-aligned rectangles. Doubles are reals; the IEEE
 * values NaN, +inf and -inf are collapsed into one explicit NonFinite case.
 */
module Geometry {

  /** A double: a finite value, or one of NaN, +inf, -inf. */
  datatype Num = Finite(v: real) | NonFinite

  /** A point with finite coordinates. */
  datatype Point = Point(x: real, y: real)

  /** A point whose coordinates may be NaN or infinite. */
  datatype NumPoint = NumPoint(x: Num, y: Num)

  function Min(a: real, b: real): real { if a < b then a else b }

  function Max(a: real, b: real): real { if a > b then a else b }

  /**
   * A rectangle given by its corner (x, y), width and height.
   * Empty is the rectangle whose coordinates are NaN ("empty/unknown").
   */
  datatype Rect = Empty | Rect(x: real, y: real, w: real, h: real)
  {
    function MinX(): real requires Rect? { x }
    function MinY(): real requires Rect? { y }
    function MaxX(): real requires Rect? { x + w }
    function MaxY(): real requires Rect? { y + h }
    function CenterX(): real requires Rect? { x + w / 2.0 }
    function CenterY(): real requires Rect? { y + h / 2.0 }

    /**
     * Point containment, half-open on the far edges; a NaN rectangle
     * contains nothing, because every comparison with NaN is false.
     */
    predicate Contains(p: Point) {
      Rect? && x <= p.x < x + w && y <= p.y < y + h
    }
  }

  /** The rectangle with corners given by its four extremes. */
  function FromCorners(x1: real, y1: real, x2: real, y2: real): (r: Rect)
    ensures r.Rect? && r.MinX() == x1 && r.MinY() == y1 && r.MaxX() == x2 && r.MaxY() == y2
  {
    Rect(x1, y1, x2 - x1, y2 - y1)
  }

  /** Both rectangles are real ones and `inner` lies within `outer`. */
  predicate Inside(inner: Rect, outer: Rect) {
    inner.Rect? && outer.Rect? &&
    outer.MinX() <= inner.MinX() && inner.MaxX() <= outer.MaxX() &&
    outer.MinY() <= inner.MinY() && inner.MaxY() <= outer.MaxY()
  }

  /** Two real rectangles with the same four extremes are the same rectangle. */
  lemma SameCorners(a: Rect, b: Rect)
    requires a.Rect? && b.Rect?
    requires a.MinX() == b.MinX() && a.MaxX() == b.MaxX()
    requires a.MinY() == b.MinY() && a.MaxY() == b.MaxY()
    ensures a == b
  {
  }
}
