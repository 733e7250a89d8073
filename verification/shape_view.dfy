/** `ShapeView` of Shape.swift: a view that is drawn as a circle or a square and
    tells the dynamics engine which collision outline to use. */
module ShapeViews {
  import opened Wrappers
  import opened Geometry

  /** `ShapeView.Shape`, an `Int`-backed enum whose cases are numbered from 0. */
  datatype Shape = Circle | Square

  /** `Shape.allCases.count`. */
  const AllCasesCount: nat := 2

  /** The enum's raw value. */
  function RawValue(s: Shape): (raw: int)
    ensures 0 <= raw < AllCasesCount
  {
    match s
    case Circle => 0
    case Square => 1
  }

  /** `Shape(rawValue:)`: the failable initialiser. */
  function FromRawValue(raw: int): (r: Option<Shape>)
    ensures r.Some? <==> 0 <= raw < AllCasesCount
  {
    if raw == 0 then Some(Circle)
    else if raw == 1 then Some(Square)
    else None
  }

  /** The raw values and the failable initialiser are inverse to each other:
      every case round-trips and every successful initialisation came from its
      own raw value. */
  lemma RawValueRoundTrip(s: Shape, raw: int)
    ensures FromRawValue(RawValue(s)) == Some(s)
    ensures FromRawValue(raw) == Some(s) <==> raw == RawValue(s)
  {
  }

  /** `UIDynamicItemCollisionBoundsType`. */
  datatype CollisionBoundsType = Rectangle | Ellipse | Path

  /** The `collisionBoundsType` override: total over the enum, never `.path`. */
  function CollisionBounds(s: Shape): (t: CollisionBoundsType)
    ensures t != Path
    ensures t == Ellipse <==> s == Circle
    ensures t == Rectangle <==> s == Square
  {
    match s
    case Circle => Ellipse
    case Square => Rectangle
  }

  /** An RGBA colour; its components are whatever the caller supplies. */
  datatype Color = Color(red: real, green: real, blue: real, alpha: real)

  /** The state of one shape view that the demo reads or writes.
      Geometry is UIKit's primary form: `center`, `layer.bounds.size` and the
      rotation angle of `transform` (the transform is only ever rotated).
      `superviewBounds` is the bounds of the superview, `None` while the view
      is not in a view hierarchy. `shape` has no update anywhere in the model. */
  datatype ShapeView = ShapeView(
    shape: Shape,
    center: Point,
    size: Size,
    angle: real,
    background: Color,
    cornerRadius: real,
    masksToBounds: bool,
    clipsToBounds: bool,
    superviewBounds: Option<Size>)

  /** The view's frame, meaningful while it is not rotated. */
  function Frame(v: ShapeView): Rect
  {
    RectAround(v.center, v.size)
  }

  /** `init(shape:frame:color:)`: the shape is fixed here, the frame is taken
      as given, the colour becomes the background and clipping is switched on
      both on the layer and on the view. A fresh view has an identity
      transform, a zero corner radius and no superview. */
  function MakeShapeView(shape: Shape, frame: Rect, color: Color): (v: ShapeView)
    ensures v.shape == shape
    ensures Frame(v) == frame
    ensures v.background == color
    ensures v.masksToBounds && v.clipsToBounds
    ensures v.angle == 0.0 && v.cornerRadius == 0.0
    ensures v.superviewBounds == None
  {
    RectAroundMidPoint(frame);
    ShapeView(shape, MidPoint(frame), frame.size, 0.0, color, 0.0, true, true, None)
  }

  /** A view as a layout pass leaves it: a circle's corner radius is half of
      its width. */
  predicate LaidOut(v: ShapeView)
  {
    v.shape == Circle ==> 2.0 * v.cornerRadius == v.size.width
  }

  /** `layoutSubviews`: a circle's corner radius becomes half of its width, so
      that the clipped square is drawn as a disc; a square is left alone. */
  function LayoutSubviews(v: ShapeView): (r: ShapeView)
    ensures r.shape == Circle ==> 2.0 * r.cornerRadius == r.size.width
    ensures r.shape == Square ==> r == v
    ensures r.(cornerRadius := v.cornerRadius) == v
  {
    match v.shape
    case Circle => v.(cornerRadius := 0.5 * v.size.width)
    case Square => v
  }

  /** Laying out twice is laying out once. */
  lemma LayoutIdempotent(v: ShapeView)
    ensures LayoutSubviews(LayoutSubviews(v)) == LayoutSubviews(v)
  {
  }

  /** The views a layout pass leaves are exactly its fixed points. */
  lemma LaidOutIsFixedPoint(v: ShapeView)
    ensures LaidOut(LayoutSubviews(v))
    ensures LaidOut(v) <==> LayoutSubviews(v) == v
  {
  }

  /** Setting `layer.bounds.size`. A change of bounds makes UIKit lay the view
      out again; setting the size it already has does not. */
  function SetBoundsSize(v: ShapeView, size: Size): (r: ShapeView)
    ensures r.size == size
    ensures size == v.size ==> r == v
    ensures size != v.size ==> LaidOut(r)
    ensures LaidOut(v) ==> LaidOut(r)
    ensures v.shape == Square ==> r.cornerRadius == v.cornerRadius
    ensures r.(cornerRadius := v.cornerRadius) == v.(size := size)
  {
    if size == v.size then v else LayoutSubviews(v.(size := size))
  }

}
