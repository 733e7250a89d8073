/** The pan, pinch and rotation handlers of ViewController.swift and the
    gesture delegate's simultaneous-recognition rule. Each handler takes the
    controller and the recognizer as it is delivered and returns both as the
    handler leaves them (the handlers reset the recognizers' accumulators). */
module Gestures {
  import opened Wrappers
  import opened Geometry
  import opened ShapeViews
  import opened World

  /** `UIGestureRecognizer.State`; `.recognized` is the same value as `.ended`. */
  datatype Phase = Possible | Began | Changed | Ended | Cancelled | Failed

  /** The view a recognizer is attached to: one of the controller's shape views
      or some view that is not a `ShapeView`. */
  datatype ViewRef = ShapeRef(id: ViewId) | OtherView

  /** A pan recognizer: its view, phase and the translation accumulated since
      the last reset, in the superview's coordinates. */
  datatype PanGesture = PanGesture(view: ViewRef, state: Phase, translation: Vector)

  /** A pinch recognizer: `scale` is the factor accumulated since the last reset. */
  datatype PinchGesture = PinchGesture(view: ViewRef, state: Phase, scale: real)

  /** A rotation recognizer: `rotation` is the angle accumulated since the last reset. */
  datatype RotationGesture = RotationGesture(view: ViewRef, state: Phase, rotation: real)

  /** `gesture.view as? ShapeView`: the shape view the recognizer is attached to. */
  function Target(w: World, ref: ViewRef): (t: Option<ViewId>)
    ensures t.Some? ==> t.value in w.views
    ensures ref.OtherView? ==> t.None?
    ensures ref.ShapeRef? && ref.id in w.views ==> t == Some(ref.id)
    ensures t.Some? ==> ref == ShapeRef(t.value)
  {
    match ref
    case ShapeRef(id) => if id in w.views then Some(id) else None
    case OtherView => None
  }

  /** The two dimension limits of the pinch handler. */
  const MinDimension: real := 10.0
  const BoundsMargin: real := 50.0

  /** The pinch handler's guard: both dimensions strictly between the minimum
      and the superview's extent less the margin. */
  predicate FitsPinchBounds(s: Size, bounds: Size)
  {
    && s.width < bounds.width - BoundsMargin
    && s.height < bounds.height - BoundsMargin
    && s.width > MinDimension
    && s.height > MinDimension
  }

  /** The resize decision of the pinch handler's Changed branch, on the view's
      size, the recognizer's accumulated scale and the superview's bounds; it
      answers the new size and the scale the recognizer is left with. The
      scaled size is taken, and the scale reset to 1, only when it fits;
      otherwise both are kept. Either way the size the pending scale would
      give is unchanged, so no part of the user's pinch is lost, and a size
      that fits keeps fitting. */
  function PinchResize(size: Size, scale: real, bounds: Size): (r: (Size, real))
    ensures ScaleSize(r.0, r.1) == ScaleSize(size, scale)
    ensures FitsPinchBounds(size, bounds) ==> FitsPinchBounds(r.0, bounds)
    ensures FitsPinchBounds(r.0, bounds) || r == (size, scale)
    ensures r.1 == 1.0 || r == (size, scale)
    ensures FitsPinchBounds(ScaleSize(size, scale), bounds) ==> r == (ScaleSize(size, scale), 1.0)
    ensures !FitsPinchBounds(ScaleSize(size, scale), bounds) ==> r == (size, scale)
  {
    var scaled := ScaleSize(size, scale);
    if FitsPinchBounds(scaled, bounds) then (scaled, 1.0) else (size, scale)
  }

  /** The Began branch of every handler: the view leaves gravity. */
  function BeginManipulation(w: World, id: ViewId): (r: World)
    ensures id !in r.gravity
    ensures r == w.(gravity := w.gravity - {id})
  {
    RemoveItem(w, Gravity, id)
  }

  /** The Ended branch of every handler: the view rejoins gravity. */
  function EndManipulation(w: World, id: ViewId): (r: World)
    ensures id in r.gravity
    ensures r == w.(gravity := w.gravity + {id})
  {
    AddItem(w, Gravity, id)
  }

  /** The Changed branch shared by every handler: the view leaves its track and
      collision, takes its new state `v` (and, when `sync`, is handed to
      `updateItem`), then rejoins its track and collision. Whatever its
      memberships were, it ends as an item of collision and of its own track;
      gravity, the other track and every other view are untouched. */
  function ApplyChange(w: World, id: ViewId, v: ShapeView, sync: bool): (r: World)
    requires id in w.views && v.shape == w.views[id].shape
    ensures r == w.(
      views := w.views[id := v],
      collision := w.collision + {id},
      elasticity := if v.shape == Circle then w.elasticity + {id} else w.elasticity,
      density := if v.shape == Square then w.density + {id} else w.density,
      synced := if sync then w.synced + [id] else w.synced)
  {
    var track := TrackOf(w.views[id].shape);
    var detached := RemoveItem(RemoveItem(w, track, id), Collision, id);
    var mutated := detached.(views := detached.views[id := v]);
    var notified := if sync then mutated.(synced := mutated.synced + [id]) else mutated;
    AddItem(AddItem(notified, track, id), Collision, id)
  }

  /** What a handler's Changed branch leaves of the membership sets. */
  predicate ChangedMembership(w: World, id: ViewId, r: World)
    requires id in w.views
  {
    var s := w.views[id].shape;
    && r.bounds == w.bounds && r.nextId == w.nextId && r.animator == w.animator
    && r.views.Keys == w.views.Keys
    && (forall other :: other in w.views && other != id ==> r.views[other] == w.views[other])
    && r.gravity == w.gravity
    && r.collision == w.collision + {id}
    && r.elasticity == (if s == Circle then w.elasticity + {id} else w.elasticity)
    && r.density == (if s == Square then w.density + {id} else w.density)
  }

  /** `handlePanGesture`. Events on a view that is not a shape view, or that
      has no superview, are ignored. Began and Ended move the view out of and
      back into gravity; Changed moves the centre by the accumulated
      translation, resets the translation to zero and notifies the animator;
      every other phase does nothing. */
  function HandlePan(w: World, g: PanGesture): (r: (World, PanGesture))
    ensures Target(w, g.view).None? ==> r == (w, g)
    ensures Target(w, g.view).Some? ==>
      var id := Target(w, g.view).value;
      var v := w.views[id];
      && (v.superviewBounds.None? ==> r == (w, g))
      && (v.superviewBounds.Some? ==>
        && (g.state == Began ==> r == (w.(gravity := w.gravity - {id}), g))
        && (g.state == Ended ==> r == (w.(gravity := w.gravity + {id}), g))
        && (g.state == Changed ==>
              && ChangedMembership(w, id, r.0)
              && r.0.views[id] == v.(center := Translate(v.center, g.translation))
              && r.0.synced == w.synced + [id]
              && r.1 == g.(translation := ZeroVector))
        && (g.state !in {Began, Changed, Ended} ==> r == (w, g)))
  {
    match Target(w, g.view)
    case None => (w, g)
    case Some(id) =>
      var v := w.views[id];
      if v.superviewBounds.None? then (w, g)
      else match g.state
        case Began => (BeginManipulation(w, id), g)
        case Changed =>
          var moved := v.(center := Translate(v.center, g.translation));
          (ApplyChange(w, id, moved, true), g.(translation := ZeroVector))
        case Ended => (EndManipulation(w, id), g)
        case _ => (w, g)
  }

  /** `handlePinchGesture`. Events on a view that is not a shape view, or that
      has no superview, are ignored. In Changed the size scaled by the
      accumulated factor is applied, and the factor reset to 1, only when both
      new dimensions lie strictly inside the limits; otherwise size and factor
      are kept; a change of bounds makes UIKit lay the view out again. The
      view rejoins its track and collision either way, and the animator is
      not notified. */
  function HandlePinch(w: World, g: PinchGesture): (r: (World, PinchGesture))
    ensures Target(w, g.view).None? ==> r == (w, g)
    ensures Target(w, g.view).Some? ==>
      var id := Target(w, g.view).value;
      var v := w.views[id];
      && (v.superviewBounds.None? ==> r == (w, g))
      && (v.superviewBounds.Some? ==>
        && (g.state == Began ==> r == (w.(gravity := w.gravity - {id}), g))
        && (g.state == Ended ==> r == (w.(gravity := w.gravity + {id}), g))
        && (g.state == Changed ==>
              var resized := PinchResize(v.size, g.scale, v.superviewBounds.value);
              && ChangedMembership(w, id, r.0)
              && r.0.synced == w.synced
              && r.0.views[id] == SetBoundsSize(v, resized.0)
              && r.1 == g.(scale := resized.1))
        && (g.state !in {Began, Changed, Ended} ==> r == (w, g)))
  {
    match Target(w, g.view)
    case None => (w, g)
    case Some(id) =>
      var v := w.views[id];
      if v.superviewBounds.None? then (w, g)
      else match g.state
        case Began => (BeginManipulation(w, id), g)
        case Changed =>
          var resized := PinchResize(v.size, g.scale, v.superviewBounds.value);
          (ApplyChange(w, id, SetBoundsSize(v, resized.0), false), g.(scale := resized.1))
        case Ended => (EndManipulation(w, id), g)
        case _ => (w, g)
  }

  /** `handleRotationGesture`. Only events on a view that is not a shape view
      are ignored: no superview is needed. Changed composes the accumulated
      rotation with the view's transform, resets the rotation to 0 and
      notifies the animator. */
  function HandleRotation(w: World, g: RotationGesture): (r: (World, RotationGesture))
    ensures Target(w, g.view).None? ==> r == (w, g)
    ensures Target(w, g.view).Some? ==>
      var id := Target(w, g.view).value;
      var v := w.views[id];
      && (g.state == Began ==> r == (w.(gravity := w.gravity - {id}), g))
      && (g.state == Ended ==> r == (w.(gravity := w.gravity + {id}), g))
      && (g.state == Changed ==>
            && ChangedMembership(w, id, r.0)
            && r.0.views[id] == v.(angle := v.angle + g.rotation)
            && r.0.synced == w.synced + [id]
            && r.1 == g.(rotation := 0.0))
      && (g.state !in {Began, Changed, Ended} ==> r == (w, g))
  {
    match Target(w, g.view)
    case None => (w, g)
    case Some(id) =>
      var v := w.views[id];
      match g.state
      case Began => (BeginManipulation(w, id), g)
      case Changed =>
        (ApplyChange(w, id, v.(angle := v.angle + g.rotation), true), g.(rotation := 0.0))
      case Ended => (EndManipulation(w, id), g)
      case _ => (w, g)
  }

  /** The recognizer classes the delegate can be asked about. */
  datatype RecognizerKind = Tap | Pan | Pinch | Rotation | Swipe | ScreenEdgePan | LongPress | Hover

  /** `gestureRecognizer(_:shouldRecognizeSimultaneouslyWith:)`. */
  function ShouldRecognizeSimultaneously(a: RecognizerKind, b: RecognizerKind): (r: bool)
    ensures !r <==> a == LongPress || b == LongPress
  {
    if a.LongPress? || b.LongPress? then false else true
  }

  /** The rule is symmetric, and a long press is exclusive with every kind,
      itself included. */
  lemma SimultaneityProperties(a: RecognizerKind, b: RecognizerKind)
    ensures ShouldRecognizeSimultaneously(a, b) == ShouldRecognizeSimultaneously(b, a)
    ensures !ShouldRecognizeSimultaneously(LongPress, a)
    ensures a != LongPress && b != LongPress ==> ShouldRecognizeSimultaneously(a, b)
  {
  }

}
