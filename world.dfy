/**
 * The world the collision strategies act on: every game object ever created
 * (a reference stays readable after the object leaves the collection), the
 * game-object collection as a set of ids, the shared bricks and lives
 * counters, the game manager's camera slot and ball, and the static
 * MockPaddle.isInstantiated flag.
 */
module World {
  import opened Wrappers
  import opened Chain

  /** A reference to a game object: its index in the heap. */
  type ObjId = nat

  datatype Vec = Vec(x: real, y: real)

  const ZERO: Vec := Vec(0.0, 0.0)

  /** The tag the game manager gives its ball. */
  const BALL_TAG: string := "ball"

  /** The window the game manager opens, 700 by 500. */
  const WINDOW_DIMENSIONS: Vec := Vec(700.0, 500.0)

  /** What kind of game object this is, with the final fields of its class. */
  datatype Kind =
    | Brick(strategy: Strategy)
    | Ball
    | Paddle
    | MockPaddle(minDistanceFromEdge: int, collisionsToDisappear: int)
    | Puck
    | WidenOrNarrowBuff(isWiden: bool)
    | CountdownAgent(ball: ObjId, countDownValue: int)
    | GraphicLife(numOfLives: int)
    | NumericLife(displayedNum: int)

  /** The engine's per-object state the core reads or writes. */
  datatype GameObject = GameObject(
    kind: Kind,
    tag: string,
    topLeft: Vec,
    dimensions: Vec,
    velocity: Vec,
    collisionCount: int)
  {
    function Center(): Vec
    {
      Vec(topLeft.x + dimensions.x / 2.0, topLeft.y + dimensions.y / 2.0)
    }

    /** setCenter: moves the object so that its center is `c`, keeping its size. */
    function CenteredAt(c: Vec): (o: GameObject)
      ensures o.Center() == c
      ensures o.dimensions == dimensions && o.kind == kind && o.tag == tag && o.velocity == velocity
    {
      this.(topLeft := Vec(c.x - dimensions.x / 2.0, c.y - dimensions.y / 2.0))
    }
  }

  /** A new object as the engine constructs it: no tag, at rest, no collisions yet. */
  function NewObject(kind: Kind, topLeft: Vec, dimensions: Vec): GameObject
  {
    GameObject(kind, "", topLeft, dimensions, ZERO, 0)
  }

  datatype WorldState = WorldState(
    heap: seq<GameObject>,
    registry: set<ObjId>,
    bricks: int,
    lives: int,
    camera: Option<ObjId>,
    mockPaddleInstantiated: bool,
    ball: ObjId)

  /** addGameObject of a freshly constructed object. */
  function Add(s: WorldState, o: GameObject): WorldState
  {
    s.(heap := s.heap + [o], registry := s.registry + {|s.heap|})
  }

  /** addGameObject of each object of `objs` in turn. */
  function AddAll(s: WorldState, objs: seq<GameObject>): (r: WorldState)
    ensures r.heap == s.heap + objs
    ensures forall id :: id in r.registry <==> id in s.registry || |s.heap| <= id < |r.heap|
    ensures r == s.(heap := r.heap, registry := r.registry)
    decreases |objs|
  {
    if objs == [] then s
    else
      assert s.heap + [objs[0]] + objs[1..] == s.heap + objs;
      AddAll(Add(s, objs[0]), objs[1..])
  }

  /** Adding a sequence and then one more object is adding the longer sequence. */
  lemma AddAllThenAdd(s: WorldState, objs: seq<GameObject>, o: GameObject)
    ensures AddAll(s, objs + [o]) == Add(AddAll(s, objs), o)
  {
    var r1, r2 := AddAll(s, objs + [o]), Add(AddAll(s, objs), o);
    assert r1.registry == r2.registry;
  }

  /** removeGameObject: harmless when the object is not in the collection. */
  function Remove(s: WorldState, id: ObjId): WorldState
  {
    s.(registry := s.registry - {id})
  }

  /** Replaces an object's engine state (setDimensions, setVelocity, setCenter, field writes). */
  function Replace(s: WorldState, id: ObjId, o: GameObject): WorldState
    requires id < |s.heap|
  {
    s.(heap := s.heap[id := o])
  }

  /** The objects created between two states of which the first is a heap prefix of the second. */
  function Spawned(s: WorldState, r: WorldState): seq<GameObject>
    requires s.heap <= r.heap
  {
    r.heap[|s.heap|..]
  }

  /** The number of objects in `objs` that satisfy `p`. */
  function CountIf(objs: seq<GameObject>, p: GameObject -> bool): (n: nat)
    ensures n <= |objs|
  {
    if objs == [] then 0 else (if p(objs[0]) then 1 else 0) + CountIf(objs[1..], p)
  }

  lemma {:induction false} CountIfAppend(a: seq<GameObject>, b: seq<GameObject>, p: GameObject -> bool)
    ensures CountIf(a + b, p) == CountIf(a, p) + CountIf(b, p)
  {
    if a == [] {
      assert a + b == b;
    } else {
      assert (a + b)[1..] == a[1..] + b;
      CountIfAppend(a[1..], b, p);
    }
  }

  /**
   * The mutable game world. Every method is proved to perform exactly the
   * state change its specification function describes.
   */
  class GameWorld {
    var heap: seq<GameObject>
    var registry: set<ObjId>
    var bricks: int
    var lives: int
    var camera: Option<ObjId>
    var mockPaddleInstantiated: bool
    var ball: ObjId

    function State(): WorldState
      reads this
    {
      WorldState(heap, registry, bricks, lives, camera, mockPaddleInstantiated, ball)
    }

    /** An empty collection, zeroed counters, no camera and a lowered gate. */
    constructor ()
      ensures State() == WorldState([], {}, 0, 0, None, false, 0)
    {
      heap, registry := [], {};
      bricks, lives := 0, 0;
      camera, mockPaddleInstantiated, ball := None, false, 0;
    }

    method AddGameObject(o: GameObject) returns (id: ObjId)
      modifies this
      ensures State() == Add(old(State()), o)
      ensures id == old(|heap|) && heap[id] == o
    {
      id := |heap|;
      heap := heap + [o];
      registry := registry + {id};
    }

    method RemoveGameObject(id: ObjId)
      modifies this
      ensures State() == Remove(old(State()), id)
    {
      registry := registry - {id};
    }

    method SetObject(id: ObjId, o: GameObject)
      requires id < |heap|
      modifies this
      ensures State() == Replace(old(State()), id, o)
    {
      heap := heap[id := o];
    }
  }
}
