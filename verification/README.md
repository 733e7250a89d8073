# Shapes and circles: the gesture-to-physics bookkeeping

A model in Dafny of the DAY06 demo's view controller and its `ShapeView`.
Tapping the screen spawns a 100×100 circle or square, centred on the tap,
under UIKit's dynamics. Each shape can be dragged, pinched and rotated.

The physics is done by `UIDynamicAnimator`. The demo's own logic is the
bookkeeping around it, and that is what is modelled:

- which shape views are items of the four dynamic behaviours: gravity,
  collision, elasticity (circles) and density (squares);
- which behaviours are registered with the animator;
- how each gesture phase moves a view in and out of those behaviours;
- how each gesture phase changes the view's centre, size or angle and the
  recognizer's accumulator.

Modules, one concept each:

- `Wrappers`: `Option`.
- `Geometry`: points, vectors, sizes and rectangles over `real`.
- `ShapeViews` (Shape.swift): the `Shape` enum and its raw values, the
  collision bounds type, the initialiser and `layoutSubviews`.
- `World`: the controller state. This covers behaviour membership, animator
  registration and the tap handler. The `Valid` invariant holds in every
  reachable controller. Under it, every view is an item of collision and of
  its shape's track only, and every circle is laid out as a disc.
- `Gestures`: the pan, pinch and rotation handlers and the
  simultaneous-recognition rule. Each handler is a pure function. It takes the
  controller and the recognizer as delivered and returns both as the handler
  leaves them.
- `Sessions`: sequences of events. It proves:
  - the invariant and every view's shape persist across any run;
  - the animator's registrations are right from launch on;
  - the pinch size limits hold across any run;
  - a drag moves a view by the sum of its movements;
  - a twist turns a view by the sum of its turns;
  - a pinch never loses part of the user's spread.

A view is stored by identity in a map. Its geometry is UIKit's primary form:
centre, `layer.bounds.size`, and the rotation angle of its transform. The
frame is derived from these. `animator.updateItem(usingCurrentState:)` is
recorded in a log of identities (`synced`). The pan and rotation handlers
call it. The pinch handler does not.

Gestures that are cancelled or fail fall to each handler's `default: break`
branch. A view whose gesture is cancelled after `.began` therefore stays out
of gravity until some later `.ended`. The model keeps this as written
(`Sessions.CancelledPanStaysDetached`).

## Model

| member | source | states |
|---|---|---|
| `Geometry.Translate` | DAY06/ViewController.swift:105-108 | the moved centre is displaced from the old one by exactly the translation |
| `Geometry.RectAround` | DAY06/ViewController.swift:72-75 | a rectangle built from a centre and a size has that size, and its midpoint is the centre |
| `Geometry.RectAroundMidPoint` | DAY06/ViewController.swift:72-75 | conversely, every rectangle is the one built around its own midpoint with its own size |
| `Geometry.TranslateTwice` | DAY06/ViewController.swift:105-109 | moving a centre by two translations in turn is moving it by their sum |
| `ShapeViews.RawValue` | DAY06/Shape.swift:11-14 | every case's raw value lies in `0 ..< allCases.count` |
| `ShapeViews.FromRawValue` | DAY06/Shape.swift:11-14 | the failable initialiser succeeds exactly on `0 ..< allCases.count` (2) and fails everywhere else |
| `ShapeViews.RawValueRoundTrip` | DAY06/Shape.swift:11-14 | raw values and the initialiser are inverses: each case round-trips, and an initialisation yields a case only from that case's raw value |
| `ShapeViews.CollisionBounds` | DAY06/Shape.swift:18-25 | the collision outline is never `.path`; it is `.ellipse` exactly for a circle and `.rectangle` exactly for a square |
| `ShapeViews.MakeShapeView` | DAY06/Shape.swift:27-33 | the new view has the given shape, frame and background colour, and has clipping on both at the layer and at the view |
| `ShapeViews.LayoutSubviews` | DAY06/Shape.swift:35-43 | after layout a circle's corner radius is half its bounds width; a square is untouched; nothing but the corner radius ever changes |
| `ShapeViews.LayoutIdempotent` | DAY06/Shape.swift:35-43 | laying out twice is laying out once |
| `ShapeViews.LaidOutIsFixedPoint` | DAY06/Shape.swift:35-43 | a layout pass always leaves a circle with a corner radius of half its width, and the views it leaves unchanged are exactly those already in that state |
| `ShapeViews.SetBoundsSize` | DAY06/ViewController.swift:132-133 | setting the layer's bounds size gives the view that size and changes nothing but the size and the corner radius. A real change of size is followed by a layout pass, so a circle's corner radius follows its new width, and a square's corner radius is kept. Setting the same size changes nothing |
| `World.TrackOf` | DAY06/ViewController.swift:87-91 | a shape's track is elasticity or density, and elasticity exactly for circles |
| `World.Initial` | DAY06/ViewController.swift:54-60 | the controller after loading has no views, and it satisfies the invariant |
| `World.AddItem` | DAY06/ViewController.swift:11-14 | `addItem` adds the view to that behaviour's items and changes no other behaviour and nothing else |
| `World.RemoveItem` | DAY06/ViewController.swift:11-14 | `removeItem` removes the view from that behaviour's items and changes no other behaviour and nothing else |
| `World.MembershipIdempotent` | DAY06/ViewController.swift:11-14 | adding an item twice is adding it once, and the same holds for removing |
| `World.AddBehaviors` | DAY06/ViewController.swift:92 | after adding a list of behaviours, the animator holds exactly what it held plus the list's elements |
| `World.RegisterBehaviors` | DAY06/ViewController.swift:92 | registering `behaviors` adds gravity, collision and elasticity, never density, and changes nothing but the animator |
| `World.RegisterIdempotent` | DAY06/ViewController.swift:92 | registering again on every tap changes nothing |
| `World.SpawnFrame` | DAY06/ViewController.swift:62-77 | a tap at (x, y) gives a frame of exactly 100×100 with origin (x − 50, y − 50), centred on the tap |
| `World.Spawn` | DAY06/ViewController.swift:62-93 | a rejected raw index changes nothing. Otherwise: exactly one new view is added, with the drawn shape, the tap frame, the colour and the root view as superview. The new view is unrotated with clipping on, and is laid out: a circle's corner radius is 50, a square's is 0. It joins gravity, collision and its shape's track only, and the animator gains the registered behaviours |
| `World.SpawnKeepsValid` | DAY06/ViewController.swift:86-92 | spawning keeps the invariant, and the new view is an item of exactly one of elasticity and density |
| `World.RandomDrawAlwaysSpawns` | DAY06/ViewController.swift:69 | a draw from `0 ..< allCases.count` never takes the guard's early return: one view is added |
| `Gestures.Target` | DAY06/ViewController.swift:96 | the cast succeeds exactly for the controller's shape views: a found view is always the recognizer's own view and one of the controller's, a shape view of the controller is always found, and a view of another class is never a target |
| `Gestures.PinchResize` | DAY06/ViewController.swift:128-135 | the resize decision. When both scaled dimensions are strictly inside (10, extent − 50), the size becomes the scaled size and the scale is reset to 1. Otherwise size and scale are both kept. The size the pending scale gives is unchanged, and a size that fits keeps fitting |
| `Gestures.BeginManipulation` | DAY06/ViewController.swift:100-101 | Began takes the view out of gravity and changes nothing else |
| `Gestures.EndManipulation` | DAY06/ViewController.swift:113-114 | Ended puts the view back into gravity and changes nothing else |
| `Gestures.ApplyChange` | DAY06/ViewController.swift:102-112 | the Changed branch leaves the view an item of collision and of its own track, whatever its memberships were. Gravity, the other track and other views are untouched, and the animator is notified only when asked |
| `Gestures.HandlePan` | DAY06/ViewController.swift:95-118 | a non-shape view or a view with no superview is ignored. Began and Ended move the view out of and back into gravity. Changed moves the centre by the translation, resets the translation to zero, notifies the animator and restores collision and track membership. Every other phase changes nothing |
| `Gestures.HandlePinch` | DAY06/ViewController.swift:120-143 | the same guard and phase pattern as pan. Changed applies the resize decision to the view's bounds size and the recognizer's scale, and leaves the centre in place. A changed size is laid out again, and the animator is not notified |
| `Gestures.HandleRotation` | DAY06/ViewController.swift:145-163 | only a non-shape view is ignored, because no superview is required. Changed adds the rotation to the view's angle, resets the rotation to 0 and notifies the animator |
| `Gestures.ShouldRecognizeSimultaneously` | DAY06/ViewController.swift:197-201 | two recognizers may run together exactly when neither is a long press |
| `Gestures.SimultaneityProperties` | DAY06/ViewController.swift:197-201 | the rule is symmetric, a long press excludes every kind, and every other pair is allowed |
| `Sessions.ChangedKeepsValid` | DAY06/ViewController.swift:102-112 | in a valid controller a Changed event changes no membership at all, because the view was already in collision and its track |
| `Sessions.PanKeepsValid` | DAY06/ViewController.swift:95-118 | every pan event keeps the invariant, keeps every view, and keeps every view's shape |
| `Sessions.PinchKeepsValid` | DAY06/ViewController.swift:120-143 | every pinch event keeps the invariant, keeps every view, and keeps every view's shape; a resized circle is still drawn as a disc |
| `Sessions.RotationKeepsValid` | DAY06/ViewController.swift:145-163 | every rotation event keeps the invariant, keeps every view, and keeps every view's shape |
| `Sessions.StepKeepsValid` | DAY06/ViewController.swift:62-163 | every tap, pan, pinch or rotation event keeps the invariant, keeps every view, and keeps every view's shape |
| `Sessions.RunKeepsValid` | DAY06/Shape.swift:16 | across any sequence of events, no view is dropped and none changes shape, so its track is the one it was spawned with; the invariant holds throughout |
| `Sessions.AnimatorRegistration` | DAY06/ViewController.swift:19 | from launch, the animator holds nothing until a shape exists and exactly gravity, collision and elasticity afterwards; density is never registered |
| `Sessions.StepKeepsSizesInside` | DAY06/ViewController.swift:128-135 | provided the root view is wider and taller than 150, so that the 100×100 spawn footprint fits its pinch limits, no event takes a view's size outside the pinch limits of its superview |
| `Sessions.RunKeepsSizesInside` | DAY06/ViewController.swift:128-135 | provided the root view is wider and taller than 150, sizes that start strictly inside the pinch limits stay inside after any sequence of events. On a smaller root view a tap spawns a view outside the limits |
| `Sessions.DragSumsDeltas` | DAY06/ViewController.swift:105-109 | since the translation is reset after each move, a run of pan Changed events displaces the view by exactly the sum of the finger's movements and leaves the translation at zero |
| `Sessions.DragLifecycle` | DAY06/ViewController.swift:99-114 | a whole pan (Began, any number of Changed, Ended) keeps the view out of gravity while it lasts, returns it to gravity, and moves it by the sum of the movements |
| `Sessions.CancelledPanStaysDetached` | DAY06/ViewController.swift:115-116 | a pan cancelled after Began leaves the view out of gravity and does not move it |
| `Sessions.TwistStep` | DAY06/ViewController.swift:150-157 | one rotation Changed event turns the view by the increment and changes nothing else of it. Gravity is untouched, and the recognizer stays on the view with its rotation reset to 0 |
| `Sessions.TwistSumsDeltas` | DAY06/ViewController.swift:153-154 | rotations compose: a run of rotation Changed events turns the view by the sum of the increments and leaves the recognizer's rotation at 0 |
| `Sessions.PinchSizesConserve` | DAY06/ViewController.swift:128-135 | because the scale is reset only when a resize is applied, a rejected increment is carried over rather than lost. After any run of increments, the size the pending scale would give is the size the fingers asked for, and a size inside the limits stays inside |
| `Sessions.PinchSession` | DAY06/ViewController.swift:125-137 | the same run played on the controller: the view's size and the recognizer's scale end as the resize decisions make them. The user's whole spread is conserved; the view keeps its centre, superview and gravity membership |

## Left out

- The dynamics. The animator's gravity integration, collision resolution,
  elasticity, resistance and density values belong to UIKit. Only which
  items each behaviour holds is modelled. `translatesReferenceBoundsIntoBoundary`
  and the collision delegate (which has no custom reaction) are left out too.
  The model has no step between events. During and after a gesture the
  animator still moves and turns every item of its behaviours: a dragged view
  stays in collision and in its track, and keeps any residual velocity.
  `Sessions.DragSumsDeltas`, `Sessions.TwistSumsDeltas` and
  `Sessions.PinchSession` therefore state only what the handlers themselves
  change.
- `animator.updateItem(usingCurrentState:)` is recorded as an entry in the
  `synced` log. What it does to the simulation is not modelled.
- Randomness. The random shape index and `UIColor.random` are parameters of
  `World.Spawn`. The range of the colour components is not modelled.
- UIKit plumbing: creating the recognizers, attaching them to the new view
  and setting their delegate (ViewController.swift:65-67, 81-84), `addSubview`
  beyond recording the superview's bounds, the white background, and the
  tap recognizer's installation in `viewDidLoad`.
- Recognizer accumulation between events. The recognizer adds finger movement
  to its translation and rotation and multiplies its scale. The model takes
  this as given in `Sessions` (`Drag`, `Twist`, `Spread`), not as platform
  behaviour.
- The accelerometer (`activateAccelerometer`). Its only call is commented
  out, and it runs on a background queue with a dispatch to the main queue.
- `kMaxVelocity`, which nothing reads.
- `init(coder:)`, which only traps.
- AppDelegate.swift, which only sets up the window.
- Floating point. `CGFloat` arithmetic is modelled with exact `real`s, so
  rounding is not modelled.
- Fixed root bounds. The root view's bounds never change during a session,
  and each view keeps the superview bounds recorded when it was spawned. The
  pinch guard reads `superview.bounds` on every event (ViewController.swift:130).
  A rotation or resize of the root view would change those limits, and this
  is not modelled. `Sessions.StepKeepsSizesInside` and
  `Sessions.RunKeepsSizesInside` rely on these fixed bounds.
- Layout timing. UIKit runs `layoutSubviews` in the next layout cycle after
  a view is added or its bounds change. The model runs it at once: in
  `World.Spawn` for the new view, and in `ShapeViews.SetBoundsSize` when a
  pinch changes the size.
- Angles are not reduced modulo 2π. A rotated view's frame is not computed:
  `ShapeViews.Frame` is the frame of an unrotated view.
