/** The controller's physics bookkeeping in ViewController.swift: which shape
    views each dynamic behaviour holds, which behaviours are registered with the
    animator, and the tap that spawns a shape. The dynamics themselves (what a
    behaviour does to its items) belong to UIKit and are not modelled. */
module World {
  import opened Wrappers
  import opened Geometry
  import opened ShapeViews

  /** A shape view's identity. */
  type ViewId = nat

  /** The four `DynamicShapeBehavior` instances of the controller. */
  datatype Behavior = Gravity | Collision | Elasticity | Density

  /** The `behaviors` list handed to the animator; `density` is not in it. */
  const Behaviors: seq<Behavior> := [Gravity, Collision, Elasticity]

  /** The behaviours the animator holds once a shape has been spawned. */
  const Registered: set<Behavior> := {Gravity, Collision, Elasticity}

  /** The physics track of a shape: elasticity for circles, density for squares. */
  function TrackOf(s: Shape): (b: Behavior)
    ensures b == Elasticity || b == Density
    ensures b == Elasticity <==> s == Circle
  {
    match s
    case Circle => Elasticity
    case Square => Density
  }

  /** The controller's state as far as the demo's own logic touches it.
      `bounds` is the root view's bounds, `views` the spawned shape views,
      `nextId` an identity no view has yet, the four sets the items of each
      behaviour, `animator` the behaviours added to the animator and `synced`
      the log of `updateItem(usingCurrentState:)` calls, oldest first. */
  datatype World = World(
    bounds: Size,
    views: map<ViewId, ShapeView>,
    nextId: ViewId,
    gravity: set<ViewId>,
    collision: set<ViewId>,
    elasticity: set<ViewId>,
    density: set<ViewId>,
    animator: set<Behavior>,
    synced: seq<ViewId>)

  /** The controller right after `viewDidLoad`: no shapes, nothing registered. */
  function Initial(bounds: Size): (w: World)
    ensures Valid(w)
    ensures w.views == map[] && w.bounds == bounds
  {
    World(bounds, map[], 0, {}, {}, {}, {}, {}, [])
  }

  /** The items of behaviour `b`. */
  function Members(w: World, b: Behavior): set<ViewId>
  {
    match b
    case Gravity => w.gravity
    case Collision => w.collision
    case Elasticity => w.elasticity
    case Density => w.density
  }

  /** Everything but the behaviours' items is the same in `w` and `r`. */
  predicate SameExceptMembership(w: World, r: World)
  {
    && r.bounds == w.bounds
    && r.views == w.views
    && r.nextId == w.nextId
    && r.animator == w.animator
    && r.synced == w.synced
  }

  /** `addItem`: `id` becomes an item of `b` (adding an item twice is harmless);
      no other behaviour and nothing else changes. */
  function AddItem(w: World, b: Behavior, id: ViewId): (r: World)
    ensures Members(r, b) == Members(w, b) + {id}
    ensures forall c :: c != b ==> Members(r, c) == Members(w, c)
    ensures SameExceptMembership(w, r)
  {
    match b
    case Gravity => w.(gravity := w.gravity + {id})
    case Collision => w.(collision := w.collision + {id})
    case Elasticity => w.(elasticity := w.elasticity + {id})
    case Density => w.(density := w.density + {id})
  }

  /** `removeItem`: `id` stops being an item of `b`; no other behaviour and
      nothing else changes. */
  function RemoveItem(w: World, b: Behavior, id: ViewId): (r: World)
    ensures Members(r, b) == Members(w, b) - {id}
    ensures forall c :: c != b ==> Members(r, c) == Members(w, c)
    ensures SameExceptMembership(w, r)
  {
    match b
    case Gravity => w.(gravity := w.gravity - {id})
    case Collision => w.(collision := w.collision - {id})
    case Elasticity => w.(elasticity := w.elasticity - {id})
    case Density => w.(density := w.density - {id})
  }

  /** Adding and removing items are idempotent. */
  lemma MembershipIdempotent(w: World, b: Behavior, id: ViewId)
    ensures AddItem(AddItem(w, b, id), b, id) == AddItem(w, b, id)
    ensures RemoveItem(RemoveItem(w, b, id), b, id) == RemoveItem(w, b, id)
  {
  }

  /** `bs.forEach { animator.addBehavior($0) }`: adding a behaviour the
      animator already holds changes nothing. */
  function AddBehaviors(animator: set<Behavior>, bs: seq<Behavior>): (r: set<Behavior>)
    ensures forall b :: b in r <==> b in animator || b in bs
    decreases |bs|
  {
    if bs == [] then animator else AddBehaviors(animator + {bs[0]}, bs[1..])
  }

  /** Registering the `behaviors` list: afterwards the animator holds gravity,
      collision and elasticity in addition to what it held, and holds density
      only if it already did. */
  function RegisterBehaviors(w: World): (r: World)
    ensures r.animator == w.animator + Registered
    ensures Density in r.animator <==> Density in w.animator
    ensures r == w.(animator := r.animator)
  {
    w.(animator := AddBehaviors(w.animator, Behaviors))
  }

  /** Registering is idempotent, so every tap may repeat it. */
  lemma RegisterIdempotent(w: World)
    ensures RegisterBehaviors(RegisterBehaviors(w)) == RegisterBehaviors(w)
  {
  }

  /** Footprint of a spawned shape. */
  const ItemsWidth: real := 100.0
  const ItemsHeight: real := 100.0

  /** The frame of a shape spawned by a tap at `location`. */
  function SpawnFrame(location: Point): (f: Rect)
    ensures f.size == Size(ItemsWidth, ItemsHeight)
    ensures MidPoint(f) == location
    ensures f.origin == Point(location.x - 50.0, location.y - 50.0)
  {
    RectAround(location, Size(ItemsWidth, ItemsHeight))
  }

  /** The views of shape `s`. */
  function ViewsOfShape(views: map<ViewId, ShapeView>, s: Shape): set<ViewId>
  {
    set id | id in views && views[id].shape == s
  }

  /** The invariant every reachable controller keeps:
      identities below `nextId`; every view is a collision item and, only on
      its own track, an item of elasticity (circles) or density (squares);
      gravity holds views only; the animator holds nothing until the first
      spawn and exactly gravity, collision and elasticity afterwards; every
      view is laid out, so a circle's corner radius is half its width. */
  ghost predicate Valid(w: World)
  {
    && (forall id :: id in w.views ==> id < w.nextId)
    && (forall id :: id in w.views ==> LaidOut(w.views[id]))
    && w.gravity <= w.views.Keys
    && w.collision == w.views.Keys
    && w.elasticity == ViewsOfShape(w.views, Circle)
    && w.density == ViewsOfShape(w.views, Square)
    && w.animator == (if w.views == map[] then {} else Registered)
  }

  /** `handleTapGesture`. `rawIndex` is the random draw from
      `0 ..< Shape.allCases.count` and `color` the random colour; both are
      parameters here. A draw the failable initialiser rejects leaves the
      controller as it was. Otherwise the new view, with the fixed footprint
      centred on the tap, is added to the root view (whose next layout pass
      lays it out), to gravity, to collision and to its shape's track, and the
      `behaviors` list is registered. */
  function Spawn(w: World, location: Point, rawIndex: int, color: Color): (r: World)
    ensures FromRawValue(rawIndex).None? ==> r == w
    ensures FromRawValue(rawIndex).Some? ==>
      var id := w.nextId;
      var s := FromRawValue(rawIndex).value;
      && id in r.views && r.views == w.views[id := r.views[id]]
      && r.views[id].shape == s
      && Frame(r.views[id]) == SpawnFrame(location)
      && r.views[id].size == Size(ItemsWidth, ItemsHeight)
      && r.views[id].background == color
      && r.views[id].angle == 0.0
      && r.views[id].masksToBounds && r.views[id].clipsToBounds
      && r.views[id].cornerRadius == (if s == Circle then 0.5 * ItemsWidth else 0.0)
      && r.views[id].superviewBounds == Some(w.bounds)
      && r.nextId > id
      && r.gravity == w.gravity + {id}
      && r.collision == w.collision + {id}
      && r.elasticity == (if s == Circle then w.elasticity + {id} else w.elasticity)
      && r.density == (if s == Square then w.density + {id} else w.density)
      && r.animator == w.animator + Registered
      && r.bounds == w.bounds && r.synced == w.synced
  {
    match FromRawValue(rawIndex)
    case None => w
    case Some(s) =>
      var id := w.nextId;
      var view := LayoutSubviews(MakeShapeView(s, SpawnFrame(location), color));
      var w1 := w.(views := w.views[id := view.(superviewBounds := Some(w.bounds))], nextId := id + 1);
      var w2 := AddItem(AddItem(w1, Gravity, id), Collision, id);
      var w3 := AddItem(w2, TrackOf(s), id);
      RegisterBehaviors(w3)
  }

  /** Adding view `id` of shape `s` to a map that lacks it adds `id` to the
      views of shape `s` and leaves the views of the other shape alone. */
  lemma ViewsOfShapeAdd(views: map<ViewId, ShapeView>, id: ViewId, v: ShapeView)
    requires id !in views
    ensures ViewsOfShape(views[id := v], v.shape) == ViewsOfShape(views, v.shape) + {id}
    ensures forall t :: t != v.shape ==> ViewsOfShape(views[id := v], t) == ViewsOfShape(views, t)
  {
  }

  /** Spawning keeps the invariant, and the new view is an item of exactly one
      of elasticity and density. */
  lemma SpawnKeepsValid(w: World, location: Point, rawIndex: int, color: Color)
    requires Valid(w)
    ensures Valid(Spawn(w, location, rawIndex, color))
    ensures FromRawValue(rawIndex).Some? ==>
      var r := Spawn(w, location, rawIndex, color);
      (w.nextId in r.elasticity) != (w.nextId in r.density)
  {
    var r := Spawn(w, location, rawIndex, color);
    if FromRawValue(rawIndex).Some? {
      var id := w.nextId;
      var v := r.views[id];
      assert id !in w.views;
      assert r.views == w.views[id := v];
      ViewsOfShapeAdd(w.views, id, v);
      assert LaidOut(v);
    }
  }

  /** A draw from `0 ..< Shape.allCases.count` never hits the early return. */
  lemma RandomDrawAlwaysSpawns(w: World, location: Point, rawIndex: int, color: Color)
    requires 0 <= rawIndex < AllCasesCount
    ensures Spawn(w, location, rawIndex, color).views.Keys == w.views.Keys + {w.nextId}
  {
  }

}
