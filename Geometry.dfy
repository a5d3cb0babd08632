/**
 Plane geometry used by the layout: rectangles with exact real coordinates
 standing for CoreGraphics' CGRect / CGSize.
 */
module Geometry {

  /** A rectangle given by its origin (top-left corner, y grows downwards) and its size. */
  datatype Rect = Rect(x: real, y: real, width: real, height: real)
  {
    function MaxX(): real { x + width }
    function MaxY(): real { y + height }
  }

  /** A width and a height, as a collection view's content size. */
  datatype Size = Size(width: real, height: real)

  const ZeroSize: Size := Size(0.0, 0.0)

  /**
   The model's reading of `CGRect.intersects`: the x intervals and the y
   intervals of the two rectangles overlap strictly. Rectangles that share
   only an edge do not intersect; a rectangle of zero width or height that
   lies strictly inside another does. Rectangles of non-negative size that
   intersect share a point: the one with the larger of their origins' x
   and the larger of their origins' y.
   */
  predicate Intersects(a: Rect, b: Rect): (r: bool)
    ensures r && a.width >= 0.0 && a.height >= 0.0 && b.width >= 0.0 && b.height >= 0.0 ==>
              var px := if a.x < b.x then b.x else a.x;
              var py := if a.y < b.y then b.y else a.y;
              Contains(a, px, py) && Contains(b, px, py)
  {
    a.x < b.MaxX() && b.x < a.MaxX() && a.y < b.MaxY() && b.y < a.MaxY()
  }

  /** The point (px, py) lies in the closed rectangle r. */
  predicate Contains(r: Rect, px: real, py: real)
  {
    r.x <= px <= r.MaxX() && r.y <= py <= r.MaxY()
  }

  /**
   Two rectangles one of which ends (vertically) where the other begins do
   not intersect, whatever their horizontal extent.
   */
  lemma StackedDoNotIntersect(a: Rect, b: Rect)
    requires a.MaxY() <= b.y
    ensures !Intersects(a, b) && !Intersects(b, a)
  {
  }
}
