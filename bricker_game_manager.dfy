/**
 * BrickerGameManager's bookkeeping: building the level (ball, paddle, the
 * 5 by 8 brick grid with one factory-built chain per brick, four hearts and
 * the numeric lives indicator), and the per-frame work after the engine's
 * own update: the out-of-bounds sweep, then the win/lose check.
 */
module GameManager {
  import opened Wrappers
  import opened Chain
  import opened StrategyFactory
  import opened World
  import opened EphemeralObjects

  // ---------------------------------------------------------------------------
  // Constants
  // ---------------------------------------------------------------------------

  const BORDER_WIDTH: real := 20.0

  const BALL_DIAMETER: real := 35.0
  const BALL_VELOCITY: real := 200.0

  const PADDLE_HEIGHT: real := 20.0
  const PADDLE_WIDTH: real := 150.0
  const PADDLE_DISTANCE_FROM_BOTTOM: real := 30.0

  const BRICK_HEIGHT: real := 15.0
  const NUM_BRICKS_ROWS: nat := 5
  const NUM_BRICKS_COLS: nat := 8
  const NUM_BRICKS: nat := 40
  const DISTANCE_BETWEEN_BRICKS: real := 1.0
  const EXTREME_BRICK_DISTANCE_FROM_BORDER: real := 5.0

  /** (700 - 2*20 - 2*5 - 7*1) / 8: the eight bricks and their seven gaps span the window between the side margins. */
  const BRICK_WIDTH: real := (700.0 - 2.0 * 20.0 - 2.0 * 5.0 - 7.0 * 1.0) / 8.0

  const GRAPHIC_LIFE_HEIGHT: real := 30.0
  const NUM_GRAPHIC_LIVES: nat := 4
  const EXTREME_GRAPHIC_LIFE_DISTANCE_FROM_BORDER: real := 5.0
  const DISTANCE_BETWEEN_GRAPHIC_LIVES: real := 3.0
  const GRAPHIC_LIFE_WIDTH: real := 700.0 / 15.0

  const NUMERIC_LIFE_COUNTER_HEIGHT: real := 20.0
  const NUMERIC_LIFE_COUNTER_DISTANCE_FROM_GRAPHIC_LIFE: real := 7.0

  // ---------------------------------------------------------------------------
  // The ball and the paddle
  // ---------------------------------------------------------------------------

  /**
   * repositionBall: each velocity component is 200 with a sign chosen by its
   * own coin, and the ball is centred in the window.
   */
  function Repositioned(ball: GameObject, flipX: bool, flipY: bool): (b: GameObject)
    ensures b.velocity.x == BALL_VELOCITY || b.velocity.x == -BALL_VELOCITY
    ensures b.velocity.y == BALL_VELOCITY || b.velocity.y == -BALL_VELOCITY
    ensures (b.velocity.x < 0.0 <==> flipX) && (b.velocity.y < 0.0 <==> flipY)
    ensures b.Center() == Vec(WINDOW_DIMENSIONS.x * 0.5, WINDOW_DIMENSIONS.y * 0.5)
    ensures b.Center() == Vec(350.0, 250.0)
    ensures b.kind == ball.kind && b.tag == ball.tag && b.dimensions == ball.dimensions
    ensures b.collisionCount == ball.collisionCount
  {
    var velX := if flipX then -BALL_VELOCITY else BALL_VELOCITY;
    var velY := if flipY then -BALL_VELOCITY else BALL_VELOCITY;
    ball.(velocity := Vec(velX, velY)).CenteredAt(Vec(WINDOW_DIMENSIONS.x * 0.5, WINDOW_DIMENSIONS.y * 0.5))
  }

  method RepositionBall(w: GameWorld, ball: ObjId, flipX: bool, flipY: bool)
    requires ball < |w.heap|
    modifies w
    ensures w.State() == Replace(old(w.State()), ball, Repositioned(old(w.heap[ball]), flipX, flipY))
  {
    var ballVelX := BALL_VELOCITY;
    var ballVelY := BALL_VELOCITY;
    if flipX {
      ballVelX := -ballVelX;
    }
    if flipY {
      ballVelY := -ballVelY;
    }
    var b := w.heap[ball].(velocity := Vec(ballVelX, ballVelY));
    w.SetObject(ball, b.CenteredAt(Vec(WINDOW_DIMENSIONS.x * 0.5, WINDOW_DIMENSIONS.y * 0.5)));
  }

  /** createBall: a 35 by 35 ball tagged "ball", repositioned, added, and remembered by the manager. */
  function BallCreated(s: WorldState, flipX: bool, flipY: bool): WorldState
  {
    var ball := GameObject(Ball, BALL_TAG, ZERO, Vec(BALL_DIAMETER, BALL_DIAMETER), ZERO, 0);
    Add(s, Repositioned(ball, flipX, flipY)).(ball := |s.heap|)
  }

  method CreateBall(w: GameWorld, flipX: bool, flipY: bool)
    modifies w
    ensures w.State() == BallCreated(old(w.State()), flipX, flipY)
  {
    var ball := GameObject(Ball, BALL_TAG, ZERO, Vec(BALL_DIAMETER, BALL_DIAMETER), ZERO, 0);
    ball := Repositioned(ball, flipX, flipY);
    var id := w.AddGameObject(ball);
    w.ball := id;
  }

  /** createPaddle: a 150 by 20 paddle centred horizontally, 30 above the bottom edge. */
  function PaddleCreated(s: WorldState): WorldState
  {
    var paddle := NewObject(Paddle, ZERO, Vec(PADDLE_WIDTH, PADDLE_HEIGHT))
      .CenteredAt(Vec(WINDOW_DIMENSIONS.x / 2.0, WINDOW_DIMENSIONS.y - PADDLE_DISTANCE_FROM_BOTTOM));
    Add(s, paddle)
  }

  method CreatePaddle(w: GameWorld)
    modifies w
    ensures w.State() == PaddleCreated(old(w.State()))
  {
    var paddle := NewObject(Paddle, ZERO, Vec(PADDLE_WIDTH, PADDLE_HEIGHT));
    paddle := paddle.CenteredAt(Vec(WINDOW_DIMENSIONS.x / 2.0, WINDOW_DIMENSIONS.y - PADDLE_DISTANCE_FROM_BOTTOM));
    var _ := w.AddGameObject(paddle);
  }

  // ---------------------------------------------------------------------------
  // The bricks
  // ---------------------------------------------------------------------------

  /** The top-left corner of the brick in row `row` and column `col`. */
  function BrickTopLeft(row: nat, col: nat): Vec
  {
    Vec(BORDER_WIDTH + EXTREME_BRICK_DISTANCE_FROM_BORDER + (col as real) * (BRICK_WIDTH + DISTANCE_BETWEEN_BRICKS),
        BORDER_WIDTH + EXTREME_BRICK_DISTANCE_FROM_BORDER + (row as real) * (BRICK_HEIGHT + DISTANCE_BETWEEN_BRICKS))
  }

  predicate AllInRange(draws: seq<Draws>)
  {
    forall k :: 0 <= k < |draws| ==> InRange(draws[k])
  }

  /** The k-th brick, row by row, carrying the chain the factory assembles from the k-th draws. */
  function GridBrick(c: CollectionRef, d: Draws, k: nat): GameObject
    requires InRange(d)
  {
    NewObject(Brick(GetStrategy(c, d).value), BrickTopLeft(k / NUM_BRICKS_COLS, k % NUM_BRICKS_COLS),
              Vec(BRICK_WIDTH, BRICK_HEIGHT))
  }

  function BrickGrid(c: CollectionRef, draws: seq<Draws>): (grid: seq<GameObject>)
    requires |draws| == NUM_BRICKS && AllInRange(draws)
    ensures |grid| == NUM_BRICKS
    ensures forall k :: 0 <= k < NUM_BRICKS ==> grid[k] == GridBrick(c, draws[k], k)
  {
    seq(NUM_BRICKS, k requires 0 <= k < NUM_BRICKS => GridBrick(c, draws[k], k))
  }

  /** createBricks: a fresh counter, then each of the 40 bricks counted and added. */
  function BricksCreated(s: WorldState, c: CollectionRef, draws: seq<Draws>): WorldState
    requires |draws| == NUM_BRICKS && AllInRange(draws)
  {
    AddAll(s, BrickGrid(c, draws)).(bricks := NUM_BRICKS)
  }

  /** One iteration of createBricks' inner loop: count the brick, then add it. */
  method CreateBrick(w: GameWorld, c: CollectionRef, d: Draws, curTopLeftCorner: Vec, i: nat, j: nat)
    requires InRange(d) && j < NUM_BRICKS_COLS
    requires curTopLeftCorner == Vec(BORDER_WIDTH + EXTREME_BRICK_DISTANCE_FROM_BORDER,
      BORDER_WIDTH + EXTREME_BRICK_DISTANCE_FROM_BORDER + (i as real) * (BRICK_HEIGHT + DISTANCE_BETWEEN_BRICKS))
    modifies w
    ensures w.State() == Add(old(w.State()), GridBrick(c, d, i * NUM_BRICKS_COLS + j)).(bricks := old(w.bricks) + 1)
  {
    var strategy := GetStrategy(c, d).value;
    var newBrick := NewObject(Brick(strategy),
      Vec(curTopLeftCorner.x + (j as real) * (BRICK_WIDTH + DISTANCE_BETWEEN_BRICKS), curTopLeftCorner.y),
      Vec(BRICK_WIDTH, BRICK_HEIGHT));
    var k := i * NUM_BRICKS_COLS + j;
    assert k / NUM_BRICKS_COLS == i && k % NUM_BRICKS_COLS == j;
    w.bricks := w.bricks + 1;
    var _ := w.AddGameObject(newBrick);
  }

  method CreateBricks(w: GameWorld, c: CollectionRef, draws: seq<Draws>)
    requires |draws| == NUM_BRICKS && AllInRange(draws)
    modifies w
    ensures w.State() == BricksCreated(old(w.State()), c, draws)
  {
    ghost var s0 := w.State();
    ghost var grid := BrickGrid(c, draws);
    var initTopLeftCorner := Vec(BORDER_WIDTH + EXTREME_BRICK_DISTANCE_FROM_BORDER,
                                 BORDER_WIDTH + EXTREME_BRICK_DISTANCE_FROM_BORDER);
    w.bricks := 0;
    for i := 0 to NUM_BRICKS_ROWS
      invariant w.State() == AddAll(s0, grid[..i * NUM_BRICKS_COLS]).(bricks := i * NUM_BRICKS_COLS)
    {
      var curTopLeftCorner := Vec(initTopLeftCorner.x,
                                  initTopLeftCorner.y + (i as real) * (BRICK_HEIGHT + DISTANCE_BETWEEN_BRICKS));
      for j := 0 to NUM_BRICKS_COLS
        invariant w.State() == AddAll(s0, grid[..i * NUM_BRICKS_COLS + j]).(bricks := i * NUM_BRICKS_COLS + j)
      {
        var k := i * NUM_BRICKS_COLS + j;
        CreateBrick(w, c, draws[k], curTopLeftCorner, i, j);
        assert grid[..k + 1] == grid[..k] + [grid[k]];
        AddAllThenAdd(s0, grid[..k], grid[k]);
      }
    }
    assert grid[..NUM_BRICKS] == grid;
  }

  predicate IsBrick(o: GameObject) { o.kind.Brick? }

  lemma {:induction false} CountIfAll(objs: seq<GameObject>, p: GameObject -> bool)
    requires forall i :: 0 <= i < |objs| ==> p(objs[i])
    ensures CountIf(objs, p) == |objs|
    decreases |objs|
  {
    if objs != [] {
      CountIfAll(objs[1..], p);
    }
  }

  /**
   * After createBricks the brick counter equals the number of bricks added,
   * 5 by 8; every one of them is in the collection and carries a chain with
   * the base strategy innermost and at most three decorators.
   */
  lemma BrickCounterMatchesGrid(s: WorldState, c: CollectionRef, draws: seq<Draws>)
    requires |draws| == NUM_BRICKS && AllInRange(draws)
    ensures var r := BricksCreated(s, c, draws);
      && s.heap <= r.heap
      && r.bricks == |Spawned(s, r)| == CountIf(Spawned(s, r), IsBrick) == NUM_BRICKS_ROWS * NUM_BRICKS_COLS
      && (forall id :: |s.heap| <= id < |r.heap| ==> id in r.registry)
      && (forall k :: 0 <= k < |Spawned(s, r)| ==>
            && Spawned(s, r)[k].kind.Brick?
            && Innermost(Spawned(s, r)[k].kind.strategy) == RemoveBrick(c)
            && |Decorators(Spawned(s, r)[k].kind.strategy)| <= 3)
  {
    var r := BricksCreated(s, c, draws);
    assert Spawned(s, r) == BrickGrid(c, draws);
    CountIfAll(Spawned(s, r), IsBrick);
  }

  /**
   * The grid sits between the side walls with the 5 margin on each side,
   * neighbours in a row are exactly 1 apart, and no two bricks overlap.
   */
  lemma BrickGridLayout(c: CollectionRef, draws: seq<Draws>)
    requires |draws| == NUM_BRICKS && AllInRange(draws)
    ensures var grid := BrickGrid(c, draws);
      && (forall k :: 0 <= k < NUM_BRICKS ==>
            && grid[k].topLeft.x >= BORDER_WIDTH + EXTREME_BRICK_DISTANCE_FROM_BORDER
            && grid[k].topLeft.x + grid[k].dimensions.x
               <= WINDOW_DIMENSIONS.x - BORDER_WIDTH - EXTREME_BRICK_DISTANCE_FROM_BORDER)
      && (forall k :: 0 <= k < NUM_BRICKS && k % NUM_BRICKS_COLS != NUM_BRICKS_COLS - 1 ==>
            grid[k].topLeft.x + grid[k].dimensions.x + DISTANCE_BETWEEN_BRICKS == grid[k + 1].topLeft.x)
      && (forall k, l :: 0 <= k < l < NUM_BRICKS ==>
            || grid[k].topLeft.x + grid[k].dimensions.x < grid[l].topLeft.x
            || grid[k].topLeft.y + grid[k].dimensions.y < grid[l].topLeft.y)
  {
    var grid := BrickGrid(c, draws);
    forall k, l | 0 <= k < l < NUM_BRICKS
      ensures || grid[k].topLeft.x + grid[k].dimensions.x < grid[l].topLeft.x
              || grid[k].topLeft.y + grid[k].dimensions.y < grid[l].topLeft.y
    {
      if k / NUM_BRICKS_COLS == l / NUM_BRICKS_COLS {
        assert k % NUM_BRICKS_COLS < l % NUM_BRICKS_COLS;
      } else {
        assert k / NUM_BRICKS_COLS < l / NUM_BRICKS_COLS;
      }
    }
  }

  // ---------------------------------------------------------------------------
  // The lives indicators
  // ---------------------------------------------------------------------------

  function HeartTopLeft(i: int): Vec
  {
    Vec(BORDER_WIDTH + EXTREME_GRAPHIC_LIFE_DISTANCE_FROM_BORDER + (i as real) * (GRAPHIC_LIFE_WIDTH + DISTANCE_BETWEEN_GRAPHIC_LIVES),
        WINDOW_DIMENSIONS.y - GRAPHIC_LIFE_HEIGHT - EXTREME_GRAPHIC_LIFE_DISTANCE_FROM_BORDER)
  }

  /** The hearts, numbered 1 to 4 from the left. */
  function Hearts(): (hearts: seq<GameObject>)
    ensures |hearts| == NUM_GRAPHIC_LIVES
    ensures forall i :: 0 <= i < |hearts| ==> hearts[i].kind == GraphicLife(i + 1)
  {
    seq(NUM_GRAPHIC_LIVES, i => NewObject(GraphicLife(i + 1), HeartTopLeft(i), Vec(GRAPHIC_LIFE_WIDTH, GRAPHIC_LIFE_HEIGHT)))
  }

  /** createGraphicLives: the lives counter starts at 4 and the four hearts are added. */
  function HeartsCreated(s: WorldState): WorldState
  {
    AddAll(s.(lives := NUM_GRAPHIC_LIVES), Hearts())
  }

  method CreateGraphicLives(w: GameWorld)
    modifies w
    ensures w.State() == HeartsCreated(old(w.State()))
  {
    ghost var hearts := Hearts();
    w.lives := NUM_GRAPHIC_LIVES;
    ghost var s0 := w.State();
    var graphicLifeDimensions := Vec(GRAPHIC_LIFE_WIDTH, GRAPHIC_LIFE_HEIGHT);
    for i := 0 to NUM_GRAPHIC_LIVES
      invariant w.State() == AddAll(s0, hearts[..i])
    {
      var heart := NewObject(GraphicLife(i + 1), HeartTopLeft(i), graphicLifeDimensions);
      assert heart == hearts[i];
      var _ := w.AddGameObject(heart);
      assert hearts[..i + 1] == hearts[..i] + [hearts[i]];
      AddAllThenAdd(s0, hearts[..i], hearts[i]);
    }
    assert hearts[..NUM_GRAPHIC_LIVES] == hearts;
  }

  /** Each heart updated once, in the order they were added. */
  function HeartsUpdated(s: WorldState, first: ObjId, n: nat): (r: WorldState)
    requires first + n <= |s.heap|
    requires forall id :: first <= id < first + n ==> s.heap[id].kind.GraphicLife?
    ensures r.heap == s.heap && r.lives == s.lives
  {
    if n == 0 then s else GraphicLifeUpdate(HeartsUpdated(s, first, n - 1), first + n - 1)
  }

  /** The collection after the four fresh hearts, with lives at `lives`, have had `n` updates. */
  function HeartsShown(s: WorldState, lives: int, n: nat): set<ObjId>
    requires n <= NUM_GRAPHIC_LIVES
  {
    HeartsUpdated(HeartsCreated(s).(lives := lives), |s.heap|, n).registry
  }

  /**
   * Starting from the four fresh hearts, once the lives counter is at `lives`
   * and every heart has had its update, exactly the hearts numbered up to
   * `lives` are still shown.
   */

  lemma {:induction false} HeartsShowLives(s: WorldState, lives: int, n: nat)
    requires n <= NUM_GRAPHIC_LIVES
    ensures forall id :: |s.heap| <= id < |s.heap| + n ==> (id in HeartsShown(s, lives, n) <==> id - |s.heap| + 1 <= lives)
    ensures forall id :: |s.heap| + n <= id < |s.heap| + NUM_GRAPHIC_LIVES ==> id in HeartsShown(s, lives, n)
  {
    var t := HeartsCreated(s).(lives := lives);
    assert t.heap == s.heap + Hearts();
    if n > 0 {
      HeartsShowLives(s, lives, n - 1);
      var id := |s.heap| + n - 1;
      var prev := HeartsUpdated(t, |s.heap|, n - 1);
      assert prev.heap[id] == Hearts()[n - 1];
      GraphicLifeRules(prev, id);
      assert HeartsShown(s, lives, n - 1) == prev.registry;
      assert HeartsShown(s, lives, n) == GraphicLifeUpdate(prev, id).registry;
    }
  }

  /** createNumericLifeCounter: an indicator showing the current lives, above the hearts. */
  function NumericCounterCreated(s: WorldState): WorldState
  {
    var topLeft := Vec(BORDER_WIDTH + EXTREME_GRAPHIC_LIFE_DISTANCE_FROM_BORDER,
                       WINDOW_DIMENSIONS.y - GRAPHIC_LIFE_HEIGHT - EXTREME_GRAPHIC_LIFE_DISTANCE_FROM_BORDER
                       - (NUMERIC_LIFE_COUNTER_HEIGHT + NUMERIC_LIFE_COUNTER_DISTANCE_FROM_GRAPHIC_LIFE));
    Add(s, NewNumericLifeCounter(s.lives, topLeft, Vec(WINDOW_DIMENSIONS.x / 8.0, NUMERIC_LIFE_COUNTER_HEIGHT)))
  }

  method CreateNumericLifeCounter(w: GameWorld)
    modifies w
    ensures w.State() == NumericCounterCreated(old(w.State()))
  {
    var topLeft := Vec(BORDER_WIDTH + EXTREME_GRAPHIC_LIFE_DISTANCE_FROM_BORDER,
                       WINDOW_DIMENSIONS.y - GRAPHIC_LIFE_HEIGHT - EXTREME_GRAPHIC_LIFE_DISTANCE_FROM_BORDER
                       - (NUMERIC_LIFE_COUNTER_HEIGHT + NUMERIC_LIFE_COUNTER_DISTANCE_FROM_GRAPHIC_LIFE));
    var counter := NewNumericLifeCounter(w.lives, topLeft, Vec(WINDOW_DIMENSIONS.x / 8.0, NUMERIC_LIFE_COUNTER_HEIGHT));
    var _ := w.AddGameObject(counter);
  }

  // ---------------------------------------------------------------------------
  // A whole level
  // ---------------------------------------------------------------------------

  /** The world before initializeGame runs; the static MockPaddle flag survives a reset. */
  function EmptyWorld(gate: bool): WorldState
  {
    WorldState([], {}, 0, 0, None, gate, 0)
  }

  /** initializeGame, as far as the objects and counters this model keeps. */
  function GameStarted(gate: bool, c: CollectionRef, draws: seq<Draws>, flipX: bool, flipY: bool): WorldState
    requires |draws| == NUM_BRICKS && AllInRange(draws)
  {
    NumericCounterCreated(HeartsCreated(BricksCreated(PaddleCreated(BallCreated(EmptyWorld(gate), flipX, flipY)), c, draws)))
  }

  method InitializeGame(gate: bool, c: CollectionRef, draws: seq<Draws>, flipX: bool, flipY: bool) returns (w: GameWorld)
    requires |draws| == NUM_BRICKS && AllInRange(draws)
    ensures fresh(w)
    ensures w.State() == GameStarted(gate, c, draws, flipX, flipY)
  {
    w := new GameWorld();
    w.mockPaddleInstantiated := gate;
    CreateBall(w, flipX, flipY);
    CreatePaddle(w);
    CreateBricks(w, c, draws);
    CreateGraphicLives(w);
    CreateNumericLifeCounter(w);
  }

  /**
   * A freshly started level: 40 bricks, 4 lives with all four hearts shown,
   * the numeric indicator showing 4, the ball in play with its tag, no
   * camera, and the MockPaddle flag as the reset left it.
   */
  lemma LevelStart(gate: bool, c: CollectionRef, draws: seq<Draws>, flipX: bool, flipY: bool)
    requires |draws| == NUM_BRICKS && AllInRange(draws)
    ensures var r := GameStarted(gate, c, draws, flipX, flipY);
      && r.bricks == NUM_BRICKS && r.lives == NUM_GRAPHIC_LIVES
      && r.camera == None && r.mockPaddleInstantiated == gate
      && r.ball == 0 && r.ball in r.registry && r.heap[r.ball].tag == BALL_TAG
      && r.heap[r.ball].kind == Ball
      && |r.heap| == 2 + NUM_BRICKS + NUM_GRAPHIC_LIVES + 1
      && (forall id :: 2 + NUM_BRICKS <= id < 2 + NUM_BRICKS + NUM_GRAPHIC_LIVES ==>
            id in r.registry && r.heap[id].kind == GraphicLife(id - (2 + NUM_BRICKS) + 1))
      && IsNumericLife(r, |r.heap| - 1) && |r.heap| - 1 in r.registry
      && DisplayedLives(r, |r.heap| - 1) == NUM_GRAPHIC_LIVES
  {
    var s1 := PaddleCreated(BallCreated(EmptyWorld(gate), flipX, flipY));
    var s2 := BricksCreated(s1, c, draws);
    var s3 := HeartsCreated(s2);
    assert s3.heap[|s2.heap|..] == Hearts();
  }

  // ---------------------------------------------------------------------------
  // The out-of-bounds sweep
  // ---------------------------------------------------------------------------

  /** An object the sweep keeps: the ball-tagged ones and those whose center is not below the window. */
  predicate Spared(s: WorldState, id: ObjId)
  {
    id >= |s.heap| || s.heap[id].tag == BALL_TAG || s.heap[id].Center().y <= WINDOW_DIMENSIONS.y
  }

  /** removeObjectsOutOfBounds, as a filter on the collection. */
  function Swept(s: WorldState): (r: WorldState)
    ensures r == s.(registry := r.registry)
  {
    s.(registry := set id | id in s.registry && Spared(s, id))
  }

  method RemoveObjectsOutOfBounds(w: GameWorld)
    modifies w
    ensures w.State() == Swept(old(w.State()))
  {
    ghost var s0 := w.State();
    var pending := w.registry;
    while pending != {}
      invariant pending <= s0.registry
      invariant w.State() == s0.(registry := w.registry)
      invariant forall id :: id in w.registry <==> id in s0.registry && (id in pending || Spared(s0, id))
      decreases pending
    {
      var id :| id in pending;
      if id < |w.heap| && w.heap[id].tag != BALL_TAG && w.heap[id].Center().y > WINDOW_DIMENSIONS.y {
        w.RemoveGameObject(id);
      }
      pending := pending - {id};
    }
    assert w.registry == Swept(s0).registry;
  }

  /**
   * The sweep removes exactly the non-ball objects whose center is below the
   * window, adds nothing, spares the ball, leaves every counter alone, and a
   * second sweep changes nothing.
   */
  lemma SweepRules(s: WorldState)
    ensures var r := Swept(s);
      && r.registry <= s.registry
      && (forall id :: 0 <= id < |s.heap| ==>
            (id in r.registry <==>
               id in s.registry && (s.heap[id].tag == BALL_TAG || s.heap[id].Center().y <= WINDOW_DIMENSIONS.y)))
      && (s.ball < |s.heap| && s.ball in s.registry && s.heap[s.ball].tag == BALL_TAG ==> s.ball in r.registry)
      && Swept(r) == r
  {
  }

  // ---------------------------------------------------------------------------
  // The win/lose check
  // ---------------------------------------------------------------------------

  datatype Prompt = NoPrompt | WinPrompt | LosePrompt

  /** What the yes/no dialog leads to: no dialog, resetGame, or closeWindow. */
  datatype Action = KeepPlaying | ResetGame | CloseWindow

  datatype EndCheck = EndCheck(state: WorldState, prompt: Prompt, action: Action)

  predicate BallBelow(s: WorldState)
    requires s.ball < |s.heap|
  {
    s.heap[s.ball].Center().y > WINDOW_DIMENSIONS.y
  }

  /**
   * checkForGameEnd. `playAgain` is the answer the dialog would give; it is
   * read only when there is a prompt. `flipX` and `flipY` are the coins of
   * repositionBall.
   */
  function GameEndCheck(s: WorldState, playAgain: bool, flipX: bool, flipY: bool): (r: EndCheck)
    requires s.ball < |s.heap|
    ensures r.state.lives == s.lives - 1 <==> BallBelow(s)
    ensures r.state.lives == s.lives <==> !BallBelow(s)
    ensures r.prompt == LosePrompt <==> BallBelow(s) && s.lives <= 1
    ensures r.prompt == WinPrompt <==> s.bricks <= 0 && !(BallBelow(s) && s.lives <= 1)
    ensures r.prompt == NoPrompt <==> s.bricks > 0 && !(BallBelow(s) && s.lives <= 1)
    ensures r.action == KeepPlaying <==> r.prompt == NoPrompt
    ensures r.action == ResetGame <==> r.prompt != NoPrompt && playAgain
    ensures r.action == CloseWindow <==> r.prompt != NoPrompt && !playAgain
    ensures r.state.mockPaddleInstantiated <==> s.mockPaddleInstantiated && r.action != ResetGame
    ensures BallBelow(s) && s.lives > 1 ==>
      r.state.heap == s.heap[s.ball := Repositioned(s.heap[s.ball], flipX, flipY)]
    ensures !(BallBelow(s) && s.lives > 1) ==> r.state.heap == s.heap
    ensures r.state.registry == s.registry && r.state.bricks == s.bricks
    ensures r.state.camera == s.camera && r.state.ball == s.ball
  {
    var below := BallBelow(s);
    var prompt := if s.bricks <= 0 then WinPrompt else NoPrompt;
    var lives := if below then s.lives - 1 else s.lives;
    var prompt := if below && lives <= 0 then LosePrompt else prompt;
    var moved := if below && lives > 0 then Replace(s, s.ball, Repositioned(s.heap[s.ball], flipX, flipY)) else s;
    var action := if prompt == NoPrompt then KeepPlaying else if playAgain then ResetGame else CloseWindow;
    var gate := if action == ResetGame then false else s.mockPaddleInstantiated;
    EndCheck(moved.(lives := lives, mockPaddleInstantiated := gate), prompt, action)
  }

  method CheckForGameEnd(w: GameWorld, playAgain: bool, flipX: bool, flipY: bool) returns (prompt: Prompt, action: Action)
    requires w.ball < |w.heap|
    modifies w
    ensures var r := GameEndCheck(old(w.State()), playAgain, flipX, flipY);
      w.State() == r.state && prompt == r.prompt && action == r.action
  {
    var ballHeight := w.heap[w.ball].Center().y;
    prompt := NoPrompt;
    if w.bricks <= 0 {
      prompt := WinPrompt;
    }
    if ballHeight > WINDOW_DIMENSIONS.y {
      w.lives := w.lives - 1;
      if w.lives <= 0 {
        prompt := LosePrompt;
      } else {
        RepositionBall(w, w.ball, flipX, flipY);
      }
    }
    action := KeepPlaying;
    if prompt != NoPrompt {
      if playAgain {
        w.mockPaddleInstantiated := false;
        action := ResetGame;
      } else {
        action := CloseWindow;
      }
    }
  }

  // ---------------------------------------------------------------------------
  // One frame
  // ---------------------------------------------------------------------------

  /** update, after the engine's own pass: the sweep, then the end check. */
  function Frame(s: WorldState, playAgain: bool, flipX: bool, flipY: bool): EndCheck
    requires s.ball < |s.heap|
  {
    GameEndCheck(Swept(s), playAgain, flipX, flipY)
  }

  method Update(w: GameWorld, playAgain: bool, flipX: bool, flipY: bool) returns (prompt: Prompt, action: Action)
    requires w.ball < |w.heap|
    modifies w
    ensures var r := Frame(old(w.State()), playAgain, flipX, flipY);
      w.State() == r.state && prompt == r.prompt && action == r.action
  {
    RemoveObjectsOutOfBounds(w);
    prompt, action := CheckForGameEnd(w, playAgain, flipX, flipY);
  }

  /**
   * A ball below the bottom edge with lives to spare costs exactly one life,
   * is put back in the middle of the window and stays in the collection;
   * the game goes on unless the bricks are gone.
   */
  lemma BallLostWithLivesLeft(s: WorldState, playAgain: bool, flipX: bool, flipY: bool)
    requires s.ball < |s.heap| && s.ball in s.registry && s.heap[s.ball].tag == BALL_TAG
    requires BallBelow(s) && s.lives > 1
    ensures var r := Frame(s, playAgain, flipX, flipY);
      && r.state.lives == s.lives - 1
      && r.state.ball in r.state.registry
      && r.state.heap[s.ball].Center() == Vec(350.0, 250.0)
      && !BallBelow(r.state)
      && (r.prompt == NoPrompt <==> s.bricks > 0)
  {
    SweepRules(s);
  }

  /**
   * The numeric indicator lags the lives counter by at most one frame: with
   * the indicator's own update in the engine pass, a display within one of
   * the lives counter, and never below it, stays so after the frame.
   */
  lemma DisplayLag(s: WorldState, counter: ObjId, playAgain: bool, flipX: bool, flipY: bool)
    requires s.ball < |s.heap| && IsNumericLife(s, counter) && counter != s.ball
    requires s.lives <= DisplayedLives(s, counter) <= s.lives + 1
    ensures var t := NumericLifeUpdate(s, counter);
      var r := Frame(t, playAgain, flipX, flipY).state;
      && IsNumericLife(r, counter)
      && r.lives <= DisplayedLives(r, counter) <= r.lives + 1
  {
    var t := NumericLifeUpdate(s, counter);
    NumericLifeRules(s, counter);
    assert t.heap[t.ball] == s.heap[s.ball];
  }

  /**
   * Reset round trip: after a prompt answered yes, the MockPaddle flag is
   * cleared and the next initializeGame restores 40 bricks, 4 lives, no
   * camera and a lowered flag.
   */
  lemma ResetRoundTrip(s: WorldState, c: CollectionRef, draws: seq<Draws>, flipX: bool, flipY: bool)
    requires s.ball < |s.heap| && |draws| == NUM_BRICKS && AllInRange(draws)
    requires GameEndCheck(s, true, flipX, flipY).prompt != NoPrompt
    ensures var e := GameEndCheck(s, true, flipX, flipY);
      var r := GameStarted(e.state.mockPaddleInstantiated, c, draws, flipX, flipY);
      && e.action == ResetGame
      && r.bricks == NUM_BRICKS && r.lives == NUM_GRAPHIC_LIVES
      && r.camera == None && !r.mockPaddleInstantiated
  {
    LevelStart(false, c, draws, flipX, flipY);
  }

  /** "No" closes the window and leaves the flag alone. */
  lemma DeclineCloses(s: WorldState, flipX: bool, flipY: bool)
    requires s.ball < |s.heap|
    requires GameEndCheck(s, false, flipX, flipY).prompt != NoPrompt
    ensures var e := GameEndCheck(s, false, flipX, flipY);
      e.action == CloseWindow && e.state.mockPaddleInstantiated == s.mockPaddleInstantiated
  {
  }
}
