/**
 * What one collision does, whatever chain the brick carries: the base fires
 * first, the decorators' effects follow innermost first, the brick leaves the
 * collection and the brick counter drops by exactly one, and each decorator
 * spawns what its guard allows.
 */
module ChainProperties {
  import opened Wrappers
  import opened Chain
  import opened World
  import opened Strategies

  // ---------------------------------------------------------------------------
  // The chain as an ordered list of effects
  // ---------------------------------------------------------------------------

  /** The effects applied one after the other, first element first. */
  function ApplyEffects(s: WorldState, effects: seq<Effect>, brick: ObjId, other: ObjId, flips: seq<bool>): (r: WorldState)
    requires brick < |s.heap| && other < |s.heap| && |flips| == |effects|
    ensures s.heap <= r.heap
    decreases |effects|
  {
    if effects == [] then s
    else
      ApplyEffects(DecoratorEffect(s, effects[0], brick, other, flips[0]), effects[1..], brick, other, flips[1..])
  }

  lemma {:induction false} ApplyEffectsThenOne(
    s: WorldState, effects: seq<Effect>, e: Effect, brick: ObjId, other: ObjId, flips: seq<bool>, flip: bool)
    requires brick < |s.heap| && other < |s.heap| && |flips| == |effects|
    ensures ApplyEffects(s, effects + [e], brick, other, flips + [flip])
         == DecoratorEffect(ApplyEffects(s, effects, brick, other, flips), e, brick, other, flip)
    decreases |effects|
  {
    if effects == [] {
      assert effects + [e] == [e] && flips + [flip] == [flip];
    } else {
      var s1 := DecoratorEffect(s, effects[0], brick, other, flips[0]);
      assert (effects + [e])[1..] == effects[1..] + [e];
      assert (flips + [flip])[1..] == flips[1..] + [flip];
      ApplyEffectsThenOne(s1, effects[1..], e, brick, other, flips[1..], flip);
    }
  }

  /**
   * Forward-then-act: running a chain is removing the brick and then applying
   * the decorators' effects, innermost first.
   */
  lemma {:induction false} ForwardThenAct(s: WorldState, strategy: Strategy, brick: ObjId, other: ObjId, flips: seq<bool>)
    requires brick < |s.heap| && other < |s.heap| && |flips| == |Decorators(strategy)|
    ensures Collide(s, strategy, brick, other, flips)
         == ApplyEffects(BrickRemoved(s, brick), Decorators(strategy), brick, other, flips)
  {
    match strategy
    case RemoveBrick(_) =>
    case Decorated(e, inner) =>
      var n := |flips| - 1;
      ForwardThenAct(s, inner, brick, other, flips[..n]);
      ApplyEffectsThenOne(BrickRemoved(s, brick), Decorators(inner), e, brick, other, flips[..n], flips[n]);
      assert flips[..n] + [flips[n]] == flips;
  }

  // ---------------------------------------------------------------------------
  // What each decorator spawns
  // ---------------------------------------------------------------------------

  predicate IsAgent(o: GameObject) { o.kind.CountdownAgent? }

  predicate IsMockPaddle(o: GameObject) { o.kind.MockPaddle? }

  /** The ChangeCamera guard: no camera yet and the other object is the ball. */
  predicate AttachesCamera(s: WorldState, other: ObjId)
    requires other < |s.heap|
  {
    s.camera.None? && s.heap[other].tag == BALL_TAG
  }

  function Occurrences(effects: seq<Effect>, e: Effect): nat
  {
    if effects == [] then 0 else (if effects[0] == e then 1 else 0) + Occurrences(effects[1..], e)
  }

  lemma {:induction false} CountIfNone(objs: seq<GameObject>, p: GameObject -> bool)
    requires forall i :: 0 <= i < |objs| ==> !p(objs[i])
    ensures CountIf(objs, p) == 0
    decreases |objs|
  {
    if objs != [] {
      CountIfNone(objs[1..], p);
    }
  }

  /**
   * PuckStrategy adds NUM_PUCKS_TO_CREATE pucks, each a third of the brick's
   * longer edge across, centred as getPucksCenters says, falling at 180 with
   * a horizontal speed of 180 whose sign the coin picks.
   */
  lemma PuckStrategySpawns(s: WorldState, brick: ObjId, other: ObjId, flip: bool)
    requires brick < |s.heap| && other < |s.heap|
    ensures var r := DecoratorEffect(s, PuckSpawn, brick, other, flip);
      var d := PuckDiameter(s.heap[brick]);
      && |Spawned(s, r)| == NUM_PUCKS_TO_CREATE
      && r == s.(heap := r.heap, registry := r.registry)
      && forall i :: 0 <= i < |Spawned(s, r)| ==>
        && Spawned(s, r)[i].kind == Puck
        && Spawned(s, r)[i].dimensions == Vec(d, d)
        && Spawned(s, r)[i].Center() == PuckCenter(s.heap[brick], d, NUM_PUCKS_TO_CREATE, i)
        && Spawned(s, r)[i].velocity.y == PUCK_VELOCITY
        && (Spawned(s, r)[i].velocity.x == -PUCK_VELOCITY <==> flip)
        && (Spawned(s, r)[i].velocity.x == PUCK_VELOCITY <==> !flip)
        && |s.heap| + i in r.registry
  {
  }

  /** getPucksCenters lays the pucks out on one line, a diameter apart, starting at the brick's middle. */
  lemma PuckLayout(brick: GameObject, d: real, count: nat, i: nat)
    requires count >= 1
    ensures PuckCenter(brick, d, count, i + 1).x - PuckCenter(brick, d, count, i).x == d
    ensures PuckCenter(brick, d, count, i + 1).y == PuckCenter(brick, d, count, i).y
    ensures count == 1 ==>
      PuckCenter(brick, d, count, 0)
        == Vec(brick.topLeft.x + brick.dimensions.x / 2.0, brick.topLeft.y + brick.dimensions.y / 2.0 + d / 2.0)
  {
    assert ((i + 1) as real) * d == (i as real) * d + d;
  }

  /**
   * AddPaddleStrategy: with the gate up nothing happens; with it down exactly
   * one 150 by 20 mock paddle appears at the brick's left edge, halfway down
   * the window, vanishing after 3 collisions and kept 21 from the edges.
   */
  lemma AddPaddleStrategySpawns(s: WorldState, brick: ObjId, other: ObjId, flip: bool)
    requires brick < |s.heap| && other < |s.heap|
    ensures s.mockPaddleInstantiated ==> DecoratorEffect(s, AddPaddle, brick, other, flip) == s
    ensures !s.mockPaddleInstantiated ==>
      var r := DecoratorEffect(s, AddPaddle, brick, other, flip);
      && |Spawned(s, r)| == 1
      && Spawned(s, r)[0].kind == MockPaddle(MOCK_PADDLE_MIN_DISTANCE_FROM_EDGE, NUM_COLLISIONS_FOR_MOCK_PADDLE_DISAPPEARANCE)
      && Spawned(s, r)[0].kind == MockPaddle(21, 3)
      && Spawned(s, r)[0].topLeft == Vec(s.heap[brick].topLeft.x, WINDOW_DIMENSIONS.y / 2.0)
      && Spawned(s, r)[0].dimensions == Vec(150.0, 20.0)
      && |s.heap| in r.registry
      && r == s.(heap := r.heap, registry := r.registry, mockPaddleInstantiated := true)
  {
  }

  /**
   * ChangeCameraStrategy: only with no camera set and the ball as the other
   * object does the camera start following that ball, with exactly one
   * countdown agent aimed at the ball's collision count plus 4; otherwise
   * nothing changes.
   */
  lemma ChangeCameraStrategyAttaches(s: WorldState, brick: ObjId, other: ObjId, flip: bool)
    requires brick < |s.heap| && other < |s.heap|
    ensures !AttachesCamera(s, other) ==> DecoratorEffect(s, ChangeCamera, brick, other, flip) == s
    ensures AttachesCamera(s, other) ==>
      var r := DecoratorEffect(s, ChangeCamera, brick, other, flip);
      && r.camera == Some(other)
      && |Spawned(s, r)| == 1
      && Spawned(s, r)[0].kind == CountdownAgent(other, s.heap[other].collisionCount + 4)
      && |s.heap| in r.registry
      && r == s.(heap := r.heap, registry := r.registry, camera := Some(other))
  {
  }

  /** turnOffCameraChange empties the camera slot and changes nothing else. */
  lemma TurnOffClearsCamera(s: WorldState)
    ensures CameraChangeOff(s).camera == None
    ensures CameraChangeOff(s).(camera := s.camera) == s
  {
  }

  /**
   * WidenOrNarrowObjectStrategy adds exactly one buff, widening exactly when
   * the coin is true, the size of the brick, at its center, falling straight
   * down at 180.
   */
  lemma WidenOrNarrowStrategySpawns(s: WorldState, brick: ObjId, other: ObjId, flip: bool)
    requires brick < |s.heap| && other < |s.heap|
    ensures var r := DecoratorEffect(s, WidenOrNarrow, brick, other, flip);
      && |Spawned(s, r)| == 1
      && Spawned(s, r)[0].kind == WidenOrNarrowBuff(flip)
      && Spawned(s, r)[0].dimensions == s.heap[brick].dimensions
      && Spawned(s, r)[0].Center() == s.heap[brick].Center()
      && Spawned(s, r)[0].velocity == Vec(0.0, WIDEN_OR_NARROW_OBJECT_VELOCITY)
      && |s.heap| in r.registry
      && r == s.(heap := r.heap, registry := r.registry)
  {
  }

  // ---------------------------------------------------------------------------
  // One decorator step, summarised
  // ---------------------------------------------------------------------------

  /** How many objects one decorator adds. */
  function SpawnSize(s: WorldState, e: Effect, other: ObjId): nat
    requires other < |s.heap|
  {
    match e
    case PuckSpawn => NUM_PUCKS_TO_CREATE
    case AddPaddle => if s.mockPaddleInstantiated then 0 else 1
    case ChangeCamera => if AttachesCamera(s, other) then 1 else 0
    case WidenOrNarrow => 1
  }

  lemma EffectStep(s: WorldState, e: Effect, brick: ObjId, other: ObjId, flip: bool)
    requires brick < |s.heap| && other < |s.heap|
    ensures var r := DecoratorEffect(s, e, brick, other, flip);
      && r.camera == (if e == ChangeCamera && AttachesCamera(s, other) then Some(other) else s.camera)
      && r.mockPaddleInstantiated == (s.mockPaddleInstantiated || e == AddPaddle)
      && |Spawned(s, r)| == SpawnSize(s, e, other)
      && CountIf(Spawned(s, r), IsAgent) == (if e == ChangeCamera && AttachesCamera(s, other) then 1 else 0)
      && CountIf(Spawned(s, r), IsMockPaddle) == (if e == AddPaddle && !s.mockPaddleInstantiated then 1 else 0)
      && (forall i :: 0 <= i < |Spawned(s, r)| && IsAgent(Spawned(s, r)[i]) ==>
            Spawned(s, r)[i].kind == CountdownAgent(other, s.heap[other].collisionCount + 4))
  {
    var r := DecoratorEffect(s, e, brick, other, flip);
    match e
    case PuckSpawn =>
      PuckStrategySpawns(s, brick, other, flip);
      CountIfNone(Spawned(s, r), IsAgent);
      CountIfNone(Spawned(s, r), IsMockPaddle);
    case AddPaddle =>
      if !s.mockPaddleInstantiated {
        assert Spawned(s, r) == [NewMockPaddle(s.heap[brick])];
        assert Spawned(s, r)[1..] == [];
      }
    case ChangeCamera =>
      if AttachesCamera(s, other) {
        assert Spawned(s, r)[1..] == [];
      }
    case WidenOrNarrow =>
      assert Spawned(s, r)[1..] == [];
  }

  // ---------------------------------------------------------------------------
  // A whole collision
  // ---------------------------------------------------------------------------

  /** Whether a list of effects, run from `s`, attaches the camera. */
  predicate Attaches(s: WorldState, effects: seq<Effect>, other: ObjId)
    requires other < |s.heap|
  {
    ChangeCamera in effects && AttachesCamera(s, other)
  }

  /** Whether a list of effects, run from `s`, spawns the extra paddle. */
  predicate SpawnsPaddle(s: WorldState, effects: seq<Effect>)
  {
    AddPaddle in effects && !s.mockPaddleInstantiated
  }

  function ExpectedSpawns(s: WorldState, effects: seq<Effect>, other: ObjId): nat
    requires other < |s.heap|
  {
    NUM_PUCKS_TO_CREATE * Occurrences(effects, PuckSpawn) + Occurrences(effects, WidenOrNarrow)
      + (if SpawnsPaddle(s, effects) then 1 else 0) + (if Attaches(s, effects, other) then 1 else 0)
  }

  lemma SpawnedSplit(s: WorldState, s1: WorldState, r: WorldState)
    requires s.heap <= s1.heap && s1.heap <= r.heap
    ensures Spawned(s, r) == Spawned(s, s1) + Spawned(s1, r)
  {
  }

  /** The camera outcome of a list of effects, and how many countdown agents it spawns. */
  lemma {:induction false} EffectsCamera(s: WorldState, effects: seq<Effect>, brick: ObjId, other: ObjId, flips: seq<bool>)
    requires brick < |s.heap| && other < |s.heap| && |flips| == |effects|
    ensures var r := ApplyEffects(s, effects, brick, other, flips);
      && r.camera == (if Attaches(s, effects, other) then Some(other) else s.camera)
      && CountIf(Spawned(s, r), IsAgent) == (if Attaches(s, effects, other) then 1 else 0)
    decreases |effects|
  {
    var r := ApplyEffects(s, effects, brick, other, flips);
    if effects == [] {
      assert Spawned(s, r) == [];
    } else {
      var e, rest := effects[0], effects[1..];
      assert effects == [e] + rest;
      var s1 := DecoratorEffect(s, e, brick, other, flips[0]);
      EffectStep(s, e, brick, other, flips[0]);
      EffectsCamera(s1, rest, brick, other, flips[1..]);
      assert r == ApplyEffects(s1, rest, brick, other, flips[1..]);
      assert AttachesCamera(s1, other) == (AttachesCamera(s, other) && e != ChangeCamera) by {
        assert s1.heap[other] == s.heap[other];
      }
      SpawnedSplit(s, s1, r);
      CountIfAppend(Spawned(s, s1), Spawned(s1, r), IsAgent);
    }
  }

  /** Every countdown agent a list of effects spawns counts toward the ball's collisions plus 4. */
  lemma {:induction false} EffectsAgentsAimed(s: WorldState, effects: seq<Effect>, brick: ObjId, other: ObjId, flips: seq<bool>)
    requires brick < |s.heap| && other < |s.heap| && |flips| == |effects|
    ensures var r := ApplyEffects(s, effects, brick, other, flips);
      forall i :: 0 <= i < |Spawned(s, r)| && IsAgent(Spawned(s, r)[i]) ==>
        Spawned(s, r)[i].kind == CountdownAgent(other, s.heap[other].collisionCount + 4)
    decreases |effects|
  {
    var r := ApplyEffects(s, effects, brick, other, flips);
    if effects != [] {
      var s1 := DecoratorEffect(s, effects[0], brick, other, flips[0]);
      EffectStep(s, effects[0], brick, other, flips[0]);
      EffectsAgentsAimed(s1, effects[1..], brick, other, flips[1..]);
      assert r == ApplyEffects(s1, effects[1..], brick, other, flips[1..]);
      assert s1.heap[other] == s.heap[other];
      SpawnedSplit(s, s1, r);
      forall i | 0 <= i < |Spawned(s, r)| && IsAgent(Spawned(s, r)[i])
        ensures Spawned(s, r)[i].kind == CountdownAgent(other, s.heap[other].collisionCount + 4)
      {
        if i >= |Spawned(s, s1)| {
          assert Spawned(s, r)[i] == Spawned(s1, r)[i - |Spawned(s, s1)|];
        } else {
          assert Spawned(s, r)[i] == Spawned(s, s1)[i];
        }
      }
    }
  }

  /** The static gate after a list of effects, and the extra paddles it lets through. */
  lemma {:induction false} EffectsPaddle(s: WorldState, effects: seq<Effect>, brick: ObjId, other: ObjId, flips: seq<bool>)
    requires brick < |s.heap| && other < |s.heap| && |flips| == |effects|
    ensures var r := ApplyEffects(s, effects, brick, other, flips);
      && r.mockPaddleInstantiated == (s.mockPaddleInstantiated || AddPaddle in effects)
      && CountIf(Spawned(s, r), IsMockPaddle) == (if SpawnsPaddle(s, effects) then 1 else 0)
    decreases |effects|
  {
    var r := ApplyEffects(s, effects, brick, other, flips);
    if effects == [] {
      assert Spawned(s, r) == [];
    } else {
      var e, rest := effects[0], effects[1..];
      assert effects == [e] + rest;
      var s1 := DecoratorEffect(s, e, brick, other, flips[0]);
      EffectStep(s, e, brick, other, flips[0]);
      EffectsPaddle(s1, rest, brick, other, flips[1..]);
      assert r == ApplyEffects(s1, rest, brick, other, flips[1..]);
      SpawnedSplit(s, s1, r);
      CountIfAppend(Spawned(s, s1), Spawned(s1, r), IsMockPaddle);
    }
  }

  /** The number of objects a list of effects adds. */
  lemma {:induction false} EffectsSpawnCount(s: WorldState, effects: seq<Effect>, brick: ObjId, other: ObjId, flips: seq<bool>)
    requires brick < |s.heap| && other < |s.heap| && |flips| == |effects|
    ensures var r := ApplyEffects(s, effects, brick, other, flips);
      |Spawned(s, r)| == ExpectedSpawns(s, effects, other)
    decreases |effects|
  {
    var r := ApplyEffects(s, effects, brick, other, flips);
    if effects == [] {
      assert Spawned(s, r) == [];
    } else {
      var e, rest := effects[0], effects[1..];
      assert effects == [e] + rest;
      var s1 := DecoratorEffect(s, e, brick, other, flips[0]);
      EffectStep(s, e, brick, other, flips[0]);
      EffectsSpawnCount(s1, rest, brick, other, flips[1..]);
      assert r == ApplyEffects(s1, rest, brick, other, flips[1..]);
      assert s1.heap[other] == s.heap[other];
      SpawnedSplit(s, s1, r);
      assert Occurrences(effects, PuckSpawn) == (if e == PuckSpawn then 1 else 0) + Occurrences(rest, PuckSpawn);
      assert Occurrences(effects, WidenOrNarrow) == (if e == WidenOrNarrow then 1 else 0) + Occurrences(rest, WidenOrNarrow);
    }
  }

  /**
   * One collision with any assembled chain: the camera is attached (to the
   * colliding ball) only if the chain has a ChangeCamera layer, no camera was
   * set and the other object is the ball; at most one countdown agent is
   * spawned, aimed at the ball's count plus 4; the extra paddle appears at most
   * once, only with the gate down; and the number of new objects is exactly
   * what the layers and their guards allow.
   */
  lemma {:induction false} CollisionOutcome(s: WorldState, strategy: Strategy, brick: ObjId, other: ObjId, flips: seq<bool>)
    requires brick < |s.heap| && other < |s.heap| && |flips| == |Decorators(strategy)|
    ensures var r := Collide(s, strategy, brick, other, flips);
      var effects := Decorators(strategy);
      && brick !in r.registry
      && r.bricks == s.bricks - 1
      && r.camera == (if Attaches(s, effects, other) then Some(other) else s.camera)
      && CountIf(Spawned(s, r), IsAgent) <= 1
      && CountIf(Spawned(s, r), IsAgent) == (if Attaches(s, effects, other) then 1 else 0)
      && CountIf(Spawned(s, r), IsMockPaddle) == (if SpawnsPaddle(s, effects) then 1 else 0)
      && r.mockPaddleInstantiated == (s.mockPaddleInstantiated || AddPaddle in effects)
      && |Spawned(s, r)| == ExpectedSpawns(s, effects, other)
      && (forall i :: 0 <= i < |Spawned(s, r)| && IsAgent(Spawned(s, r)[i]) ==>
            Spawned(s, r)[i].kind == CountdownAgent(other, s.heap[other].collisionCount + 4))
  {
    var base := BrickRemoved(s, brick);
    ForwardThenAct(s, strategy, brick, other, flips);
    EffectsCamera(base, Decorators(strategy), brick, other, flips);
    EffectsAgentsAimed(base, Decorators(strategy), brick, other, flips);
    EffectsPaddle(base, Decorators(strategy), brick, other, flips);
    EffectsSpawnCount(base, Decorators(strategy), brick, other, flips);
    assert Spawned(s, Collide(s, strategy, brick, other, flips)) == Spawned(base, Collide(s, strategy, brick, other, flips));
  }

  /**
   * A collision never costs a life, never takes any object but the brick out
   * of the collection, and never brings back an object that had left it.
   */
  lemma CollisionKeepsOthers(s: WorldState, strategy: Strategy, brick: ObjId, other: ObjId, flips: seq<bool>)
    requires brick < |s.heap| && other < |s.heap| && |flips| == |Decorators(strategy)|
    ensures var r := Collide(s, strategy, brick, other, flips);
      && r.lives == s.lives
      && (forall id :: id in s.registry && id != brick ==> id in r.registry)
      && (forall id :: id in r.registry && id < |s.heap| ==> id in s.registry)
  {
  }
}
