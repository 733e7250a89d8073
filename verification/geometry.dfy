/** Core Graphics geometry on exact reals: points, vectors, sizes and rectangles.
    Only addition, halving and multiplication are involved, so `real` stands in
    for `CGFloat` without rounding. */
module Geometry {

  datatype Point = Point(x: real, y: real)

  datatype Vector = Vector(dx: real, dy: real)

  datatype Size = Size(width: real, height: real)

  /** A frame: top-left origin and size, as `CGRect`. */
  datatype Rect = Rect(origin: Point, size: Size)

  /** `CGPoint.zero` used as a translation: the pan accumulator after a reset. */
  const ZeroVector := Vector(0.0, 0.0)

  /** The point reached from `p` by moving along `v`. */
  function Translate(p: Point, v: Vector): (q: Point)
    ensures Displacement(p, q) == v
  {
    Point(p.x + v.dx, p.y + v.dy)
  }

  /** The vector leading from `p` to `q`. */
  function Displacement(p: Point, q: Point): Vector
  {
    Vector(q.x - p.x, q.y - p.y)
  }

  function AddVectors(a: Vector, b: Vector): Vector
  {
    Vector(a.dx + b.dx, a.dy + b.dy)
  }

  /** Both dimensions multiplied by one factor, as the pinch handler does. */
  function ScaleSize(s: Size, k: real): Size
  {
    Size(s.width * k, s.height * k)
  }

  /** The frame of the given size whose centre is `c` (a view's frame when it is not rotated). */
  function RectAround(c: Point, s: Size): (r: Rect)
    ensures r.size == s
    ensures MidPoint(r) == c
  {
    Rect(Point(c.x - 0.5 * s.width, c.y - 0.5 * s.height), s)
  }

  /** The centre of a frame. */
  function MidPoint(r: Rect): Point
  {
    Point(r.origin.x + 0.5 * r.size.width, r.origin.y + 0.5 * r.size.height)
  }

  /** A frame is recovered from its centre and size: storing a view as centre
      plus bounds loses nothing of the frame it was created with. */
  lemma RectAroundMidPoint(r: Rect)
    ensures RectAround(MidPoint(r), r.size) == r
  {
  }

  /** Moving by `a` and then by `b` is moving by their sum. */
  lemma TranslateTwice(p: Point, a: Vector, b: Vector)
    ensures Translate(Translate(p, a), b) == Translate(p, AddVectors(a, b))
  {
  }

}
