/**
 * Running a strategy chain when a brick is hit. Every decorator first forwards
 * the call to the strategy it wraps and then performs its own effect, so the
 * base RemoveBrickStrategy fires first and the decorators' effects follow,
 * innermost first. Coin flips are parameters, one per decorator.
 */
module Strategies {
  import opened Wrappers
  import opened Chain
  import opened World

  // ---------------------------------------------------------------------------
  // RemoveBrickStrategy. Its class is not part of this model; this is the
  // behaviour the chains are built around: the brick leaves the collection
  // (a no-op if it already left) and the shared brick counter drops by one.
  // ---------------------------------------------------------------------------

  function BrickRemoved(s: WorldState, brick: ObjId): WorldState
  {
    Remove(s, brick).(bricks := s.bricks - 1)
  }

  method RemoveBrickOnCollision(w: GameWorld, brick: ObjId)
    modifies w
    ensures w.State() == BrickRemoved(old(w.State()), brick)
  {
    w.RemoveGameObject(brick);
    w.bricks := w.bricks - 1;
  }

  // ---------------------------------------------------------------------------
  // PuckStrategy
  // ---------------------------------------------------------------------------

  const NUM_PUCKS_TO_CREATE: nat := 1
  const PUCK_VELOCITY: real := 180.0

  /** One third of the brick's longer edge. */
  function PuckDiameter(brick: GameObject): (d: real)
    ensures 3.0 * d == brick.dimensions.x || 3.0 * d == brick.dimensions.y
    ensures 3.0 * d >= brick.dimensions.x && 3.0 * d >= brick.dimensions.y
  {
    (if brick.dimensions.x >= brick.dimensions.y then brick.dimensions.x else brick.dimensions.y) / 3.0
  }

  /** The i-th entry of getPucksCenters when `count` pucks are laid out along the brick. */
  function PuckCenter(brick: GameObject, diameter: real, count: nat, i: nat): Vec
    requires count >= 1
  {
    Vec(brick.topLeft.x + brick.dimensions.x / (count as real) / 2.0 + (i as real) * diameter,
        brick.topLeft.y + brick.dimensions.y / 2.0 + diameter / 2.0)
  }

  /** Downward at full speed, leftward exactly when the coin comes up true. */
  function PuckVelocity(flip: bool): Vec
  {
    Vec(if flip then -PUCK_VELOCITY else PUCK_VELOCITY, PUCK_VELOCITY)
  }

  function NewPuck(brick: GameObject, flip: bool, i: nat): GameObject
  {
    var d := PuckDiameter(brick);
    NewObject(Puck, ZERO, Vec(d, d)).(velocity := PuckVelocity(flip)).CenteredAt(PuckCenter(brick, d, NUM_PUCKS_TO_CREATE, i))
  }

  function Pucks(brick: GameObject, flip: bool): seq<GameObject>
  {
    seq(NUM_PUCKS_TO_CREATE, i requires 0 <= i => NewPuck(brick, flip, i))
  }

  /** createPucks: the pucks of `Pucks`, added to the collection in order. */
  function PucksCreated(s: WorldState, brick: ObjId, flip: bool): WorldState
    requires brick < |s.heap|
  {
    AddAll(s, Pucks(s.heap[brick], flip))
  }

  /**
   * getPucksCenters, for `count` pucks (the strategy asks for
   * NUM_PUCKS_TO_CREATE of them).
   */
  method GetPucksCenters(brick: GameObject, diameter: real, count: nat) returns (centers: array<Vec>)
    requires count >= 1
    ensures fresh(centers) && centers.Length == count
    ensures forall i :: 0 <= i < centers.Length ==> centers[i] == PuckCenter(brick, diameter, count, i)
  {
    centers := new Vec[count];
    var firstPuckCenterX := brick.topLeft.x + brick.dimensions.x / (count as real) / 2.0;
    var puckCenterY := brick.topLeft.y + brick.dimensions.y / 2.0 + diameter / 2.0;
    centers[0] := Vec(firstPuckCenterX, puckCenterY);
    for i := 1 to count
      invariant forall k :: 0 <= k < i ==> centers[k] == PuckCenter(brick, diameter, count, k)
    {
      centers[i] := Vec(firstPuckCenterX + (i as real) * diameter, puckCenterY);
    }
  }

  method CreatePucks(w: GameWorld, brick: ObjId, flip: bool)
    requires brick < |w.heap|
    modifies w
    ensures w.State() == PucksCreated(old(w.State()), brick, flip)
  {
    var b := w.heap[brick];
    var puckVelX := PUCK_VELOCITY;
    if flip {
      puckVelX := -puckVelX;
    }
    var puckVel := Vec(puckVelX, PUCK_VELOCITY);
    var diameter := PuckDiameter(b);
    var centers := GetPucksCenters(b, diameter, NUM_PUCKS_TO_CREATE);
    ghost var s0 := w.State();
    ghost var all := Pucks(b, flip);
    for i := 0 to NUM_PUCKS_TO_CREATE
      invariant forall k :: 0 <= k < centers.Length ==> centers[k] == PuckCenter(b, diameter, NUM_PUCKS_TO_CREATE, k)
      invariant w.State() == AddAll(s0, all[..i])
    {
      var puck := NewObject(Puck, ZERO, Vec(diameter, diameter)).(velocity := puckVel).CenteredAt(centers[i]);
      assert puck == all[i];
      AddAllThenAdd(s0, all[..i], puck);
      assert all[..i + 1] == all[..i] + [puck];
      var _ := w.AddGameObject(puck);
    }
    assert all[..NUM_PUCKS_TO_CREATE] == all;
  }

  // ---------------------------------------------------------------------------
  // AddPaddleStrategy
  // ---------------------------------------------------------------------------

  const MOCK_PADDLE_HEIGHT: real := 20.0
  const MOCK_PADDLE_WIDTH: real := 150.0
  const NUM_COLLISIONS_FOR_MOCK_PADDLE_DISAPPEARANCE: int := 3
  const MOCK_PADDLE_MIN_DISTANCE_FROM_EDGE: int := 21

  /** The extra paddle: at the brick's left edge, halfway down the window. */
  function NewMockPaddle(brick: GameObject): GameObject
  {
    NewObject(MockPaddle(MOCK_PADDLE_MIN_DISTANCE_FROM_EDGE, NUM_COLLISIONS_FOR_MOCK_PADDLE_DISAPPEARANCE),
              Vec(brick.topLeft.x, WINDOW_DIMENSIONS.y / 2.0),
              Vec(MOCK_PADDLE_WIDTH, MOCK_PADDLE_HEIGHT))
  }

  /**
   * createMockPaddle. The MockPaddle class is not part of this model; its
   * constructor is taken to raise the static isInstantiated gate, which the
   * paddle lowers again when it disappears.
   */
  function MockPaddleCreated(s: WorldState, brick: ObjId): WorldState
    requires brick < |s.heap|
  {
    Add(s.(mockPaddleInstantiated := true), NewMockPaddle(s.heap[brick]))
  }

  method CreateMockPaddle(w: GameWorld, brick: ObjId)
    requires brick < |w.heap|
    modifies w
    ensures w.State() == MockPaddleCreated(old(w.State()), brick)
  {
    var mockPaddle := NewMockPaddle(w.heap[brick]);
    w.mockPaddleInstantiated := true;
    var _ := w.AddGameObject(mockPaddle);
  }

  // ---------------------------------------------------------------------------
  // ChangeCameraStrategy
  // ---------------------------------------------------------------------------

  const NUM_MAX_BALL_COLLS_TO_TURN_OFF_CAMERA_CHANGE: int := 4

  /** turnOnCameraChange: follow the ball and watch for four more of its collisions. */
  function CameraChangeOn(s: WorldState, ball: ObjId): WorldState
    requires ball < |s.heap|
  {
    var agent := NewObject(
      CountdownAgent(ball, s.heap[ball].collisionCount + NUM_MAX_BALL_COLLS_TO_TURN_OFF_CAMERA_CHANGE), ZERO, ZERO);
    Add(s.(camera := Some(ball)), agent)
  }

  /** turnOffCameraChange */
  function CameraChangeOff(s: WorldState): WorldState
  {
    s.(camera := None)
  }

  method TurnOnCameraChange(w: GameWorld, ball: ObjId)
    requires ball < |w.heap|
    modifies w
    ensures w.State() == CameraChangeOn(old(w.State()), ball)
  {
    w.camera := Some(ball);
    var agent := NewObject(
      CountdownAgent(ball, w.heap[ball].collisionCount + NUM_MAX_BALL_COLLS_TO_TURN_OFF_CAMERA_CHANGE), ZERO, ZERO);
    var _ := w.AddGameObject(agent);
  }

  method TurnOffCameraChange(w: GameWorld)
    modifies w
    ensures w.State() == CameraChangeOff(old(w.State()))
  {
    w.camera := None;
  }

  // ---------------------------------------------------------------------------
  // WidenOrNarrowObjectStrategy
  // ---------------------------------------------------------------------------

  const WIDEN_OR_NARROW_OBJECT_VELOCITY: real := 180.0

  /** The falling buff: the brick's size, at the brick's center, moving straight down. */
  function NewWidenOrNarrowObject(brick: GameObject, isWiden: bool): GameObject
  {
    NewObject(WidenOrNarrowBuff(isWiden), ZERO, brick.dimensions)
      .(velocity := Vec(0.0, WIDEN_OR_NARROW_OBJECT_VELOCITY))
      .CenteredAt(brick.Center())
  }

  /** createWidenOrNarrowObject: the coin decides widen (true) or narrow. */
  function BuffCreated(s: WorldState, brick: ObjId, flip: bool): WorldState
    requires brick < |s.heap|
  {
    Add(s, NewWidenOrNarrowObject(s.heap[brick], flip))
  }

  method CreateWidenOrNarrowObject(w: GameWorld, brick: ObjId, flip: bool)
    requires brick < |w.heap|
    modifies w
    ensures w.State() == BuffCreated(old(w.State()), brick, flip)
  {
    var isWiden := false;
    if flip {
      isWiden := true;
    }
    var buff := NewWidenOrNarrowObject(w.heap[brick], isWiden);
    var _ := w.AddGameObject(buff);
  }

  // ---------------------------------------------------------------------------
  // The chain
  // ---------------------------------------------------------------------------

  /**
   * What a decorator does after its inner strategy has run, guards included.
   * It never touches the counters and only adds objects.
   */
  function DecoratorEffect(s: WorldState, e: Effect, brick: ObjId, other: ObjId, flip: bool): (r: WorldState)
    requires brick < |s.heap| && other < |s.heap|
    ensures s.heap <= r.heap
    ensures forall id :: id in r.registry <==> id in s.registry || |s.heap| <= id < |r.heap|
    ensures r.bricks == s.bricks && r.lives == s.lives && r.ball == s.ball
  {
    match e
    case PuckSpawn => PucksCreated(s, brick, flip)
    case AddPaddle => if s.mockPaddleInstantiated then s else MockPaddleCreated(s, brick)
    case ChangeCamera =>
      if s.camera.None? && s.heap[other].tag == BALL_TAG then CameraChangeOn(s, other) else s
    case WidenOrNarrow => BuffCreated(s, brick, flip)
  }

  /**
   * onCollision of a chain: forward to the wrapped strategy, then act.
   * `flips` holds one coin per decorator, innermost first.
   */
  function Collide(s: WorldState, strategy: Strategy, brick: ObjId, other: ObjId, flips: seq<bool>): (r: WorldState)
    requires brick < |s.heap| && other < |s.heap| && |flips| == |Decorators(strategy)|
    ensures s.heap <= r.heap
    ensures forall id :: id in r.registry <==> (id in s.registry && id != brick) || |s.heap| <= id < |r.heap|
    ensures r.bricks == s.bricks - 1 && r.lives == s.lives && r.ball == s.ball
  {
    match strategy
    case RemoveBrick(_) => BrickRemoved(s, brick)
    case Decorated(e, inner) =>
      var n := |flips| - 1;
      DecoratorEffect(Collide(s, inner, brick, other, flips[..n]), e, brick, other, flips[n])
  }

  method OnCollision(w: GameWorld, strategy: Strategy, brick: ObjId, other: ObjId, flips: seq<bool>)
    requires brick < |w.heap| && other < |w.heap| && |flips| == |Decorators(strategy)|
    modifies w
    ensures w.State() == Collide(old(w.State()), strategy, brick, other, flips)
  {
    match strategy
    case RemoveBrick(_) =>
      RemoveBrickOnCollision(w, brick);
    case Decorated(e, inner) =>
      var n := |flips| - 1;
      OnCollision(w, inner, brick, other, flips[..n]);
      match e
      case PuckSpawn =>
        CreatePucks(w, brick, flips[n]);
      case AddPaddle =>
        if !w.mockPaddleInstantiated {
          CreateMockPaddle(w, brick);
        }
      case ChangeCamera =>
        if w.camera.None? && w.heap[other].tag == BALL_TAG {
          TurnOnCameraChange(w, other);
        }
      case WidenOrNarrow =>
        CreateWidenOrNarrowObject(w, brick, flips[n]);
  }
}
