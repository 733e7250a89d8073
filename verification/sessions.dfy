/** Sequences of events delivered to the controller, and what holds across
    them: the controller invariant, the fixed shape of every view, the pinch
    size limits, and the accumulator resets that make a gesture's increments
    add up to the user's whole movement. */
module Sessions {
  import opened Wrappers
  import opened Geometry
  import opened ShapeViews
  import opened World
  import opened Gestures

  /** One input the controller reacts to. A tap carries the random shape index
      and colour drawn for it. */
  datatype Event =
    | TapEvent(location: Point, rawIndex: int, color: Color)
    | PanEvent(pan: PanGesture)
    | PinchEvent(pinch: PinchGesture)
    | RotationEvent(rotation: RotationGesture)

  /** The controller after one event. */
  function Step(w: World, e: Event): World
  {
    match e
    case TapEvent(location, rawIndex, color) => Spawn(w, location, rawIndex, color)
    case PanEvent(g) => HandlePan(w, g).0
    case PinchEvent(g) => HandlePinch(w, g).0
    case RotationEvent(g) => HandleRotation(w, g).0
  }

  /** The controller after the events in order. */
  function Run(w: World, es: seq<Event>): World
    decreases |es|
  {
    if es == [] then w else Run(Step(w, es[0]), es[1..])
  }

  /** `r` keeps every view of `w` with its shape, and the root bounds. */
  ghost predicate KeepsShapes(w: World, r: World)
  {
    && r.bounds == w.bounds
    && w.views.Keys <= r.views.Keys
    && forall id :: id in w.views ==> r.views[id].shape == w.views[id].shape
  }

  /** Every view in a view hierarchy has both dimensions strictly inside the
      pinch limits of its superview. */
  ghost predicate SizesInside(w: World)
  {
    forall id :: id in w.views && w.views[id].superviewBounds.Some? ==>
      FitsPinchBounds(w.views[id].size, w.views[id].superviewBounds.value)
  }

  /** Views keyed alike with the same shapes fall into the same tracks. */
  lemma SameShapesSameTracks(w: World, r: World)
    requires r.views.Keys == w.views.Keys
    requires forall id :: id in w.views ==> r.views[id].shape == w.views[id].shape
    ensures ViewsOfShape(r.views, Circle) == ViewsOfShape(w.views, Circle)
    ensures ViewsOfShape(r.views, Square) == ViewsOfShape(w.views, Square)
  {
  }

  /** The Changed branch of a valid controller changes no membership at all:
      the view was already an item of collision and of its own track. */
  lemma ChangedKeepsValid(w: World, id: ViewId, r: World)
    requires Valid(w) && id in w.views
    requires ChangedMembership(w, id, r)
    requires id in r.views && r.views[id].shape == w.views[id].shape
    requires LaidOut(r.views[id])
    ensures Valid(r)
    ensures r.elasticity == w.elasticity && r.density == w.density && r.collision == w.collision
  {
    SameShapesSameTracks(w, r);
  }

  /** A pan event keeps the invariant and every view's shape. */
  lemma PanKeepsValid(w: World, g: PanGesture)
    requires Valid(w)
    ensures Valid(HandlePan(w, g).0)
    ensures KeepsShapes(w, HandlePan(w, g).0)
  {
    var t := Target(w, g.view);
    if t.Some? && w.views[t.value].superviewBounds.Some? && g.state == Changed {
      ChangedKeepsValid(w, t.value, HandlePan(w, g).0);
    }
  }

  /** A pinch event keeps the invariant and every view's shape; a resized
      circle is laid out again. */
  lemma PinchKeepsValid(w: World, g: PinchGesture)
    requires Valid(w)
    ensures Valid(HandlePinch(w, g).0)
    ensures KeepsShapes(w, HandlePinch(w, g).0)
  {
    var t := Target(w, g.view);
    if t.Some? && w.views[t.value].superviewBounds.Some? && g.state == Changed {
      ChangedKeepsValid(w, t.value, HandlePinch(w, g).0);
    }
  }

  /** A rotation event keeps the invariant and every view's shape. */
  lemma RotationKeepsValid(w: World, g: RotationGesture)
    requires Valid(w)
    ensures Valid(HandleRotation(w, g).0)
    ensures KeepsShapes(w, HandleRotation(w, g).0)
  {
    var t := Target(w, g.view);
    if t.Some? && g.state == Changed {
      ChangedKeepsValid(w, t.value, HandleRotation(w, g).0);
    }
  }

  /** Every event keeps the controller invariant and every view's shape. */
  lemma StepKeepsValid(w: World, e: Event)
    requires Valid(w)
    ensures Valid(Step(w, e))
    ensures KeepsShapes(w, Step(w, e))
  {
    match e
    case TapEvent(location, rawIndex, color) => SpawnKeepsValid(w, location, rawIndex, color);
    case PanEvent(g) => PanKeepsValid(w, g);
    case PinchEvent(g) => PinchKeepsValid(w, g);
    case RotationEvent(g) => RotationKeepsValid(w, g);
  }

  /** Any sequence of events keeps the invariant; no view is ever dropped and
      none changes its shape, so a view's track (elasticity or density) is the
      one it was spawned with for its whole life. */
  lemma {:induction false} RunKeepsValid(w: World, es: seq<Event>)
    requires Valid(w)
    ensures Valid(Run(w, es))
    ensures KeepsShapes(w, Run(w, es))
    decreases |es|
  {
    if es != [] {
      StepKeepsValid(w, es[0]);
      RunKeepsValid(Step(w, es[0]), es[1..]);
    }
  }

  /** From launch, the animator holds nothing until a shape exists and exactly
      gravity, collision and elasticity afterwards; density is never
      registered. */
  lemma AnimatorRegistration(bounds: Size, es: seq<Event>)
    ensures var r := Run(Initial(bounds), es);
      && Density !in r.animator
      && (r.views != map[] ==> r.animator == {Gravity, Collision, Elasticity})
      && (r.views == map[] ==> r.animator == {})
  {
    RunKeepsValid(Initial(bounds), es);
  }

  /** One event keeps every view's size inside its pinch limits, provided a
      freshly spawned footprint fits the root view. */
  lemma StepKeepsSizesInside(w: World, e: Event)
    requires SizesInside(w)
    requires FitsPinchBounds(Size(ItemsWidth, ItemsHeight), w.bounds)
    ensures SizesInside(Step(w, e))
    ensures Step(w, e).bounds == w.bounds
  {
  }

  /** Sizes that start strictly inside the pinch limits stay inside after any
      sequence of events. */
  lemma {:induction false} RunKeepsSizesInside(w: World, es: seq<Event>)
    requires SizesInside(w)
    requires FitsPinchBounds(Size(ItemsWidth, ItemsHeight), w.bounds)
    ensures SizesInside(Run(w, es))
    decreases |es|
  {
    if es != [] {
      StepKeepsSizesInside(w, es[0]);
      RunKeepsSizesInside(Step(w, es[0]), es[1..]);
    }
  }

  /** The sum of a sequence of vectors. */
  function SumVectors(ds: seq<Vector>): Vector
    decreases |ds|
  {
    if ds == [] then ZeroVector else AddVectors(ds[0], SumVectors(ds[1..]))
  }

  /** The sum of a sequence of angles. */
  function SumAngles(ds: seq<real>): real
    decreases |ds|
  {
    if ds == [] then 0.0 else ds[0] + SumAngles(ds[1..])
  }

  /** A run of pan Changed events: before each, the finger has moved by the
      next delta, which the recognizer adds to its translation. */
  function Drag(w: World, g: PanGesture, deltas: seq<Vector>): (World, PanGesture)
    decreases |deltas|
  {
    if deltas == [] then (w, g)
    else
      var r := HandlePan(w, g.(state := Changed, translation := AddVectors(g.translation, deltas[0])));
      Drag(r.0, r.1, deltas[1..])
  }

  /** Because every Changed event resets the translation, the view ends
      displaced by exactly the sum of the finger's movements, the recognizer
      ends with a zero translation, and gravity is not touched. */
  lemma {:induction false} DragSumsDeltas(w: World, g: PanGesture, deltas: seq<Vector>, id: ViewId)
    requires Target(w, g.view) == Some(id)
    requires w.views[id].superviewBounds.Some?
    requires g.translation == ZeroVector
    ensures var r := Drag(w, g, deltas);
      && id in r.0.views
      && r.0.views[id].center == Translate(w.views[id].center, SumVectors(deltas))
      && r.0.views[id].size == w.views[id].size
      && r.0.views[id].superviewBounds == w.views[id].superviewBounds
      && r.0.gravity == w.gravity
      && r.1.view == g.view
      && r.1.translation == ZeroVector
    decreases |deltas|
  {
    if deltas != [] {
      var v := w.views[id];
      var r1 := HandlePan(w, g.(state := Changed, translation := AddVectors(g.translation, deltas[0])));
      assert r1.0.views[id].center == Translate(v.center, deltas[0]);
      DragSumsDeltas(r1.0, r1.1, deltas[1..], id);
      TranslateTwice(v.center, deltas[0], SumVectors(deltas[1..]));
    }
  }

  /** A whole pan gesture, Began, any run of Changed events, then Ended: the
      view is out of gravity from Began until Ended, in gravity afterwards,
      and displaced by the sum of the movements. */
  lemma DragLifecycle(w: World, g: PanGesture, deltas: seq<Vector>, id: ViewId)
    requires Target(w, g.view) == Some(id)
    requires w.views[id].superviewBounds.Some?
    requires g.translation == ZeroVector
    ensures var began := HandlePan(w, g.(state := Began));
      var dragged := Drag(began.0, began.1, deltas);
      var ended := HandlePan(dragged.0, dragged.1.(state := Ended));
      && id !in began.0.gravity
      && id !in dragged.0.gravity
      && ended.0.gravity == w.gravity + {id}
      && ended.0.views[id].center == Translate(w.views[id].center, SumVectors(deltas))
  {
    var began := HandlePan(w, g.(state := Began));
    DragSumsDeltas(began.0, began.1, deltas, id);
  }

  /** A gesture that is cancelled after Began falls to the handlers' default
      branch, so the view stays out of gravity until some later Ended. */
  lemma CancelledPanStaysDetached(w: World, g: PanGesture, id: ViewId)
    requires Target(w, g.view) == Some(id)
    requires w.views[id].superviewBounds.Some?
    ensures var began := HandlePan(w, g.(state := Began));
      var cancelled := HandlePan(began.0, began.1.(state := Cancelled));
      id !in cancelled.0.gravity && cancelled.0.views == w.views
  {
  }

  /** The recognizer's rotation once the fingers have turned by `delta` more:
      rotations accumulate by addition. */
  function Turn(rotation: real, delta: real): real
  {
    rotation + delta
  }

  /** A run of rotation Changed events: before each, the fingers have turned by
      the next delta, which the recognizer adds to its rotation. */
  function Twist(w: World, g: RotationGesture, deltas: seq<real>): (World, RotationGesture)
    decreases |deltas|
  {
    if deltas == [] then (w, g)
    else
      var r := HandleRotation(w, g.(state := Changed, rotation := Turn(g.rotation, deltas[0])));
      Twist(r.0, r.1, deltas[1..])
  }

  /** One rotation Changed event on a recognizer reset to 0: the view turns by
      the increment and nothing else of it changes, gravity is untouched, and
      the recognizer, still on the same view, is reset to 0 again. */
  lemma TwistStep(w: World, g: RotationGesture, d: real, id: ViewId)
    requires Target(w, g.view) == Some(id)
    requires g.rotation == 0.0
    ensures var r := HandleRotation(w, g.(state := Changed, rotation := Turn(g.rotation, d)));
      && id in r.0.views
      && r.0.views[id] == w.views[id].(angle := w.views[id].angle + d)
      && r.0.gravity == w.gravity
      && r.1.view == g.view
      && r.1.rotation == 0.0
      && Target(r.0, r.1.view) == Some(id)
  {
  }

  /** Rotation composes: the view ends turned by the sum of the increments and
      the recognizer's rotation ends at 0. */
  lemma {:induction false} TwistSumsDeltas(w: World, g: RotationGesture, deltas: seq<real>, id: ViewId)
    requires Target(w, g.view) == Some(id)
    requires g.rotation == 0.0
    ensures var r := Twist(w, g, deltas);
      && id in r.0.views
      && r.0.views[id].angle == w.views[id].angle + SumAngles(deltas)
      && r.0.views[id].center == w.views[id].center
      && r.0.views[id].size == w.views[id].size
      && r.0.gravity == w.gravity
      && r.1.view == g.view
      && r.1.rotation == 0.0
    decreases |deltas|
  {
    if deltas != [] {
      var d, rest := deltas[0], deltas[1..];
      var r1 := HandleRotation(w, g.(state := Changed, rotation := Turn(g.rotation, d)));
      TwistStep(w, g, d, id);
      TwistSumsDeltas(r1.0, r1.1, rest, id);
    }
  }

  /** The recognizer's scale once the fingers have spread by `factor` more:
      pinch scales compose by multiplication. */
  function Spread(scale: real, factor: real): real
  {
    scale * factor
  }

  /** Spreading both sides of an equation between scaled sizes by one more
      factor. */
  lemma SpreadBoth(a: Size, s: real, b: Size, t: real, f: real)
    requires ScaleSize(a, s) == ScaleSize(b, t)
    ensures ScaleSize(a, Spread(s, f)) == ScaleSize(b, Spread(t, f))
  {
  }

  /** The size and pending scale after a run of pinch increments: before each,
      the fingers have spread by the next factor, which the recognizer
      multiplies into its scale, and the handler then decides the resize. */
  function PinchSizes(size: Size, scale: real, bounds: Size, factors: seq<real>): (Size, real)
    decreases |factors|
  {
    if factors == [] then (size, scale)
    else
      var r := PinchResize(size, Spread(scale, factors[0]), bounds);
      PinchSizes(r.0, r.1, bounds, factors[1..])
  }

  /** The size the user's fingers ask for: `size` spread by the pending
      `scale` and by every further factor, with no limits applied. */
  function IntendedSize(size: Size, scale: real, factors: seq<real>): Size
    decreases |factors|
  {
    if factors == [] then ScaleSize(size, scale)
    else IntendedSize(size, Spread(scale, factors[0]), factors[1..])
  }

  /** The first increment of a run. */
  lemma PinchSizesUnfold(size: Size, scale: real, bounds: Size, f: real, rest: seq<real>)
    ensures var r := PinchResize(size, Spread(scale, f), bounds);
      PinchSizes(size, scale, bounds, [f] + rest) == PinchSizes(r.0, r.1, bounds, rest)
  {
  }

  /** The intended size depends on a size and a pending scale only through the
      size the pending scale would give. */
  lemma {:induction false} IntendedSizeOfEqual(a: Size, s: real, b: Size, t: real, factors: seq<real>)
    requires ScaleSize(a, s) == ScaleSize(b, t)
    ensures IntendedSize(a, s, factors) == IntendedSize(b, t, factors)
    decreases |factors|
  {
    if factors != [] {
      SpreadBoth(a, s, b, t, factors[0]);
      IntendedSizeOfEqual(a, Spread(s, factors[0]), b, Spread(t, factors[0]), factors[1..]);
    }
  }

  /** Because the scale is reset only when a resize is applied, a rejected
      increment is carried over rather than lost: after any run of increments,
      the size the pending scale would give is exactly the size the fingers ask
      for. A size that starts inside the limits stays inside. */
  lemma {:induction false} PinchSizesConserve(size: Size, scale: real, bounds: Size, factors: seq<real>)
    ensures var r := PinchSizes(size, scale, bounds, factors);
      && ScaleSize(r.0, r.1) == IntendedSize(size, scale, factors)
      && (FitsPinchBounds(size, bounds) ==> FitsPinchBounds(r.0, bounds))
    decreases |factors|
  {
    if factors != [] {
      var f0 := factors[0];
      var rest := factors[1..];
      assert factors == [f0] + rest;
      var r1 := PinchResize(size, Spread(scale, f0), bounds);
      PinchSizesUnfold(size, scale, bounds, f0, rest);
      PinchSizesConserve(r1.0, r1.1, bounds, rest);
      IntendedSizeOfEqual(r1.0, r1.1, size, Spread(scale, f0), rest);
    }
  }

  /** Appending one increment to a run that reaches `midSize` and `midScale`. */
  lemma {:induction false} PinchSizesSnoc(size: Size, scale: real, bounds: Size, factors: seq<real>, f: real,
                                          midSize: Size, midScale: real)
    requires (midSize, midScale) == PinchSizes(size, scale, bounds, factors)
    ensures PinchSizes(size, scale, bounds, factors + [f]) == PinchResize(midSize, Spread(midScale, f), bounds)
    decreases |factors|
  {
    if factors == [] {
      assert factors + [f] == [f] + [];
      PinchSizesUnfold(size, scale, bounds, f, []);
    } else {
      var f0 := factors[0];
      var rest := factors[1..];
      assert factors == [f0] + rest;
      assert factors + [f] == [f0] + (rest + [f]);
      var r := PinchResize(size, Spread(scale, f0), bounds);
      PinchSizesUnfold(size, scale, bounds, f0, rest);
      PinchSizesUnfold(size, scale, bounds, f0, rest + [f]);
      PinchSizesSnoc(r.0, r.1, bounds, rest, f, midSize, midScale);
    }
  }

  /** A run of pinch Changed events on the controller: before each, the
      fingers have spread by the next factor, which the recognizer multiplies
      into its scale. The view's size and the recognizer's scale end as the
      resize decisions alone make them, so the size the pending scale would
      give is the size the fingers asked for, and a size inside the limits
      stays inside; the view keeps its place, superview and gravity
      membership. */
  method PinchSession(w: World, g: PinchGesture, factors: seq<real>, id: ViewId)
    returns (r: World, last: PinchGesture)
    requires Target(w, g.view) == Some(id)
    requires w.views[id].superviewBounds.Some?
    ensures Target(r, last.view) == Some(id)
    ensures (r.views[id].size, last.scale)
         == PinchSizes(w.views[id].size, g.scale, w.views[id].superviewBounds.value, factors)
    ensures ScaleSize(r.views[id].size, last.scale) == IntendedSize(w.views[id].size, g.scale, factors)
    ensures FitsPinchBounds(w.views[id].size, w.views[id].superviewBounds.value) ==>
      FitsPinchBounds(r.views[id].size, w.views[id].superviewBounds.value)
    ensures r.views[id].center == w.views[id].center
    ensures r.views[id].superviewBounds == w.views[id].superviewBounds
    ensures r.gravity == w.gravity
  {
    var v := w.views[id];
    var bounds := v.superviewBounds.value;
    r, last := w, g;
    var i := 0;
    while i < |factors|
      invariant 0 <= i <= |factors|
      invariant Target(r, last.view) == Some(id)
      invariant r.views[id].superviewBounds == v.superviewBounds
      invariant r.views[id].center == v.center
      invariant r.gravity == w.gravity
      invariant (r.views[id].size, last.scale) == PinchSizes(v.size, g.scale, bounds, factors[..i])
    {
      PinchSizesSnoc(v.size, g.scale, bounds, factors[..i], factors[i], r.views[id].size, last.scale);
      assert factors[..i + 1] == factors[..i] + [factors[i]];
      var next := HandlePinch(r, last.(state := Changed, scale := Spread(last.scale, factors[i])));
      r, last := next.0, next.1;
      i := i + 1;
    }
    assert factors[..i] == factors;
    PinchSizesConserve(v.size, g.scale, bounds, factors);
  }

}
