/** Plain pixel geometry shared by the layout components. A measured DOM
    rectangle (getBoundingClientRect) is reduced to the four numbers the
    components read; pixel values are reals. */
module Geometry {

  datatype Point = Point(x: real, y: real)

  /** A bounding rectangle in page coordinates. */
  datatype Rect = Rect(left: real, top: real, width: real, height: real)

  /** Page coordinates to coordinates relative to the rectangle's top-left corner. */
  function ToLocal(p: Point, r: Rect): (q: Point)
    ensures q.x + r.left == p.x && q.y + r.top == p.y
  {
    Point(p.x - r.left, p.y - r.top)
  }

  /** Coordinates relative to the rectangle back to page coordinates. */
  function ToPage(q: Point, r: Rect): (p: Point)
    ensures p.x - r.left == q.x && p.y - r.top == q.y
  {
    Point(q.x + r.left, q.y + r.top)
  }

  /** Shifting into and out of a rectangle's frame are inverse to each other. */
  lemma LocalPageRoundTrip(p: Point, q: Point, r: Rect)
    ensures ToPage(ToLocal(p, r), r) == p
    ensures ToLocal(ToPage(q, r), r) == q
  {
  }

  /** Squared Euclidean distance; it orders candidates exactly as the
      distance itself does, since squaring is monotone on non-negatives. */
  function SqDist(p: Point, q: Point): (d: real)
    ensures d >= 0.0
    ensures p == q ==> d == 0.0
  {
    var dx := p.x - q.x;
    var dy := p.y - q.y;
    SquarePositive(dx);
    SquarePositive(dy);
    dx * dx + dy * dy
  }

  lemma SquarePositive(a: real)
    ensures a * a >= 0.0
    ensures a != 0.0 ==> a * a > 0.0
  {
  }
}
