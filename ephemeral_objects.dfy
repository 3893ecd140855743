/**
 * The short-lived game objects: the countdown agent that turns the camera
 * change off again, the falling widen/narrow buff, and the numeric and
 * graphic life indicators that poll the shared lives counter every frame.
 */
module EphemeralObjects {
  import opened Wrappers
  import opened World
  import opened Strategies

  // ---------------------------------------------------------------------------
  // Ball. Its class is not part of this model; the only behaviour used here is
  // that every collision it takes part in raises its collision count by one.
  // ---------------------------------------------------------------------------

  function BallCollided(s: WorldState, ball: ObjId): (r: WorldState)
    requires ball < |s.heap|
    ensures |r.heap| == |s.heap| && r.registry == s.registry && r.camera == s.camera
    ensures r.heap[ball].collisionCount == s.heap[ball].collisionCount + 1
    ensures forall id :: 0 <= id < |s.heap| && id != ball ==> r.heap[id] == s.heap[id]
  {
    Replace(s, ball, s.heap[ball].(collisionCount := s.heap[ball].collisionCount + 1))
  }

  method BallOnCollisionEnter(w: GameWorld, ball: ObjId)
    requires ball < |w.heap|
    modifies w
    ensures w.State() == BallCollided(old(w.State()), ball)
  {
    var b := w.heap[ball];
    w.SetObject(ball, b.(collisionCount := b.collisionCount + 1));
  }

  // ---------------------------------------------------------------------------
  // BallCollisionCountdownAgent
  // ---------------------------------------------------------------------------

  predicate IsCountdownAgent(s: WorldState, agent: ObjId)
  {
    agent < |s.heap| && s.heap[agent].kind.CountdownAgent? && s.heap[agent].kind.ball < |s.heap|
  }

  /**
   * update: on exact equality of the ball's collision count with the target,
   * the owner's camera change is turned off and the agent leaves the
   * collection; on any other count nothing happens.
   */
  function CountdownUpdate(s: WorldState, agent: ObjId): (r: WorldState)
    requires IsCountdownAgent(s, agent)
    ensures var k := s.heap[agent].kind;
      && (s.heap[k.ball].collisionCount == k.countDownValue ==>
            r.camera == None && r.registry == s.registry - {agent})
      && (s.heap[k.ball].collisionCount != k.countDownValue ==> r == s)
      && r.heap == s.heap && r.bricks == s.bricks && r.lives == s.lives && r.ball == s.ball
      && r.mockPaddleInstantiated == s.mockPaddleInstantiated
  {
    var k := s.heap[agent].kind;
    if s.heap[k.ball].collisionCount == k.countDownValue then Remove(CameraChangeOff(s), agent) else s
  }

  method CountdownAgentUpdate(w: GameWorld, agent: ObjId)
    requires IsCountdownAgent(w.State(), agent)
    modifies w
    ensures w.State() == CountdownUpdate(old(w.State()), agent)
  {
    var k := w.heap[agent].kind;
    if w.heap[k.ball].collisionCount == k.countDownValue {
      TurnOffCameraChange(w);
      w.RemoveGameObject(agent);
    }
  }

  /** `n` collisions of the ball in a row. */
  function BallCollisions(s: WorldState, ball: ObjId, n: nat): (r: WorldState)
    requires ball < |s.heap|
    ensures |r.heap| == |s.heap| && r.registry == s.registry && r.camera == s.camera
    ensures forall id :: 0 <= id < |s.heap| && id != ball ==> r.heap[id] == s.heap[id]
  {
    if n == 0 then s else BallCollided(BallCollisions(s, ball, n - 1), ball)
  }

  lemma {:induction false} BallCollisionsCount(s: WorldState, ball: ObjId, n: nat)
    requires ball < |s.heap|
    ensures BallCollisions(s, ball, n).heap[ball].collisionCount == s.heap[ball].collisionCount + n
  {
    if n > 0 {
      BallCollisionsCount(s, ball, n - 1);
    }
  }

  /** The trigger is exact equality: once the count has passed the target, no later update fires. */
  lemma CountdownNeverFiresPastTarget(s: WorldState, agent: ObjId, n: nat)
    requires IsCountdownAgent(s, agent) && agent != s.heap[agent].kind.ball
    requires s.heap[s.heap[agent].kind.ball].collisionCount > s.heap[agent].kind.countDownValue
    ensures var t := BallCollisions(s, s.heap[agent].kind.ball, n);
      IsCountdownAgent(t, agent) && CountdownUpdate(t, agent) == t
  {
    BallCollisionsCount(s, s.heap[agent].kind.ball, n);
  }

  /**
   * One frame as the agent sees it: the ball takes one collision, then the
   * engine updates the agent if it is still in the collection.
   */
  function CountdownFrames(s: WorldState, ball: ObjId, agent: ObjId, n: nat): (r: WorldState)
    requires IsCountdownAgent(s, agent) && s.heap[agent].kind.ball == ball && agent != ball
    ensures |r.heap| == |s.heap| && r.heap[agent] == s.heap[agent]
  {
    if n == 0 then s
    else
      var t := BallCollided(CountdownFrames(s, ball, agent, n - 1), ball);
      if agent in t.registry then CountdownUpdate(t, agent) else t
  }

  /**
   * Camera follow: once turned on for a ball that has had `c` collisions, the
   * camera keeps following that ball for the next three of its collisions
   * and is detached exactly at the fourth, when the agent also leaves.
   */
  lemma {:induction false} CameraDetachesAfterFourCollisions(s: WorldState, ball: ObjId, n: nat)
    requires ball < |s.heap| && s.camera.None? && s.heap[ball].tag == BALL_TAG
    ensures var on := CameraChangeOn(s, ball);
      var agent := |s.heap|;
      var r := CountdownFrames(on, ball, agent, n);
      && r.heap[ball].collisionCount == s.heap[ball].collisionCount + n
      && r.camera == (if n < 4 then Some(ball) else None)
      && (agent in r.registry <==> n < 4)
  {
    var on := CameraChangeOn(s, ball);
    var agent := |s.heap|;
    if n > 0 {
      CameraDetachesAfterFourCollisions(s, ball, n - 1);
      var prev := CountdownFrames(on, ball, agent, n - 1);
      assert prev.heap[agent].kind == CountdownAgent(ball, s.heap[ball].collisionCount + 4);
      var t := BallCollided(prev, ball);
      assert t.heap[agent] == prev.heap[agent];
    }
  }

  // ---------------------------------------------------------------------------
  // WidenOrNarrowObject
  // ---------------------------------------------------------------------------

  const WIDEN_CONST: real := 1.2
  const NARROW_CONST: real := 0.8

  /** MockPaddle is a Paddle too, so both kinds pass the buff's filter. */
  predicate ShouldCollideWith(other: GameObject)
  {
    other.kind.Paddle? || other.kind.MockPaddle?
  }

  function Scaled(v: Vec, f: real): Vec
  {
    Vec(v.x * f, v.y * f)
  }

  predicate IsBuff(s: WorldState, buff: ObjId)
  {
    buff < |s.heap| && s.heap[buff].kind.WidenOrNarrowBuff?
  }

  /** onCollisionEnter: resize the other object, then leave the collection. */
  function BuffCollisionEnter(s: WorldState, buff: ObjId, other: ObjId): (r: WorldState)
    requires IsBuff(s, buff) && other < |s.heap|
    ensures |r.heap| == |s.heap| && buff !in r.registry
  {
    var o := s.heap[other];
    var factor := if s.heap[buff].kind.isWiden then WIDEN_CONST else NARROW_CONST;
    Remove(Replace(s, other, o.(dimensions := Scaled(o.dimensions, factor))), buff)
  }

  /** The engine calls onCollisionEnter only for an object the buff agrees to collide with. */
  function BuffContact(s: WorldState, buff: ObjId, other: ObjId): (r: WorldState)
    requires IsBuff(s, buff) && other < |s.heap|
    ensures |r.heap| == |s.heap|
  {
    if ShouldCollideWith(s.heap[other]) then BuffCollisionEnter(s, buff, other) else s
  }

  method OnBuffCollisionEnter(w: GameWorld, buff: ObjId, other: ObjId)
    requires IsBuff(w.State(), buff) && other < |w.heap|
    modifies w
    ensures w.State() == BuffCollisionEnter(old(w.State()), buff, other)
  {
    var o := w.heap[other];
    if w.heap[buff].kind.isWiden {
      w.SetObject(other, o.(dimensions := Scaled(o.dimensions, WIDEN_CONST)));
    } else {
      w.SetObject(other, o.(dimensions := Scaled(o.dimensions, NARROW_CONST)));
    }
    w.RemoveGameObject(buff);
  }

  /**
   * A paddle caught by the buff is resized by exactly 1.2 (widen) or 0.8
   * (narrow) in both dimensions, keeping its position; the buff leaves the
   * collection; nothing else changes. Any other object is ignored and the
   * buff keeps falling.
   */
  lemma BuffOutcome(s: WorldState, buff: ObjId, other: ObjId)
    requires IsBuff(s, buff) && other < |s.heap| && other != buff
    ensures var r := BuffContact(s, buff, other);
      && (!ShouldCollideWith(s.heap[other]) ==> r == s)
      && (ShouldCollideWith(s.heap[other]) ==>
          && buff !in r.registry
          && (forall id :: id != buff ==> (id in r.registry <==> id in s.registry))
          && r.heap[other].dimensions
             == (if s.heap[buff].kind.isWiden then Vec(s.heap[other].dimensions.x * 1.2, s.heap[other].dimensions.y * 1.2)
                 else Vec(s.heap[other].dimensions.x * 0.8, s.heap[other].dimensions.y * 0.8))
          && r.heap[other] == s.heap[other].(dimensions := r.heap[other].dimensions)
          && (forall id :: 0 <= id < |s.heap| && id != other ==> r.heap[id] == s.heap[id])
          && r.bricks == s.bricks && r.lives == s.lives && r.camera == s.camera
          && r.mockPaddleInstantiated == s.mockPaddleInstantiated)
  {
  }

  /** A widen buff strictly enlarges a paddle of positive size and a narrow one strictly shrinks it. */
  lemma BuffDirection(s: WorldState, buff: ObjId, other: ObjId)
    requires IsBuff(s, buff) && other < |s.heap| && other != buff && ShouldCollideWith(s.heap[other])
    requires s.heap[other].dimensions.x > 0.0 && s.heap[other].dimensions.y > 0.0
    ensures var r := BuffContact(s, buff, other);
      && (s.heap[buff].kind.isWiden <==> r.heap[other].dimensions.x > s.heap[other].dimensions.x)
      && (s.heap[buff].kind.isWiden <==> r.heap[other].dimensions.y > s.heap[other].dimensions.y)
      && (!s.heap[buff].kind.isWiden <==> r.heap[other].dimensions.x < s.heap[other].dimensions.x)
  {
  }

  /** Catching a widen buff and then a narrow one does not restore the paddle: it ends at 24/25 of its size. */
  lemma WidenThenNarrow(s: WorldState, widen: ObjId, narrow: ObjId, paddle: ObjId)
    requires IsBuff(s, widen) && IsBuff(s, narrow) && paddle < |s.heap|
    requires s.heap[widen].kind.isWiden && !s.heap[narrow].kind.isWiden
    requires paddle != widen && paddle != narrow && ShouldCollideWith(s.heap[paddle])
    ensures var r := BuffContact(BuffContact(s, widen, paddle), narrow, paddle);
      r.heap[paddle].dimensions == Scaled(s.heap[paddle].dimensions, 24.0 / 25.0)
  {
    var t := BuffContact(s, widen, paddle);
    assert t.heap[paddle].kind == s.heap[paddle].kind;
    assert t.heap[narrow] == s.heap[narrow];
  }

  // ---------------------------------------------------------------------------
  // NumericLifeCounter
  // ---------------------------------------------------------------------------

  predicate IsNumericLife(s: WorldState, id: ObjId)
  {
    id < |s.heap| && s.heap[id].kind.NumericLife?
  }

  function DisplayedLives(s: WorldState, id: ObjId): int
    requires IsNumericLife(s, id)
  {
    s.heap[id].kind.displayedNum
  }

  /** The constructor's snapshot: the indicator starts out showing the current lives. */
  function NewNumericLifeCounter(lives: int, topLeft: Vec, dimensions: Vec): (o: GameObject)
    ensures o.kind.NumericLife? && o.kind.displayedNum == lives
  {
    NewObject(NumericLife(lives), topLeft, dimensions)
  }

  /**
   * update: when the lives counter is below the displayed number, the
   * displayed number goes down by one; when lives are at most zero, the
   * indicator leaves the collection.
   */
  function NumericLifeUpdate(s: WorldState, id: ObjId): (r: WorldState)
    requires IsNumericLife(s, id)
    ensures IsNumericLife(r, id)
  {
    var d := DisplayedLives(s, id);
    var shown := if s.lives < d then Replace(s, id, s.heap[id].(kind := NumericLife(d - 1))) else s;
    if s.lives <= 0 then Remove(shown, id) else shown
  }

  method NumericLifeCounterUpdate(w: GameWorld, id: ObjId)
    requires IsNumericLife(w.State(), id)
    modifies w
    ensures w.State() == NumericLifeUpdate(old(w.State()), id)
  {
    var d := w.heap[id].kind.displayedNum;
    if w.lives < d {
      d := d - 1;
      w.SetObject(id, w.heap[id].(kind := NumericLife(d)));
    }
    if w.lives <= 0 {
      w.RemoveGameObject(id);
    }
  }

  /**
   * One update moves the displayed number one step toward the lives counter
   * and never past it, never raises it, never touches the counter, and
   * removes the indicator exactly when lives are at most zero.
   */
  lemma NumericLifeRules(s: WorldState, id: ObjId)
    requires IsNumericLife(s, id)
    ensures var r := NumericLifeUpdate(s, id);
      var d, d' := DisplayedLives(s, id), DisplayedLives(r, id);
      && (s.lives < d <==> d' == d - 1)
      && (s.lives >= d <==> d' == d)
      && d' <= d
      && (d >= s.lives ==> d' >= s.lives)
      && r.lives == s.lives && r.bricks == s.bricks && r.camera == s.camera
      && (id in r.registry <==> id in s.registry && s.lives > 0)
      && (forall x :: x != id ==> (x in r.registry <==> x in s.registry))
      && (forall x :: 0 <= x < |s.heap| && x != id ==> r.heap[x] == s.heap[x])
  {
  }

  function NumericLifeUpdates(s: WorldState, id: ObjId, n: nat): (r: WorldState)
    requires IsNumericLife(s, id)
    ensures IsNumericLife(r, id) && r.lives == s.lives
  {
    if n == 0 then s else NumericLifeUpdate(NumericLifeUpdates(s, id, n - 1), id)
  }

  /** With the lives counter left alone, `n` updates bring a lagging display down to max(lives, shown - n). */
  lemma {:induction false} NumericLifeCatchesUp(s: WorldState, id: ObjId, n: nat)
    requires IsNumericLife(s, id) && DisplayedLives(s, id) >= s.lives
    ensures var d := DisplayedLives(s, id);
      DisplayedLives(NumericLifeUpdates(s, id, n), id) == if d - n > s.lives then d - n else s.lives
  {
    if n > 0 {
      NumericLifeCatchesUp(s, id, n - 1);
      NumericLifeRules(NumericLifeUpdates(s, id, n - 1), id);
    }
  }

  // ---------------------------------------------------------------------------
  // GraphicLifeCounter
  // ---------------------------------------------------------------------------

  predicate IsGraphicLife(s: WorldState, id: ObjId)
  {
    id < |s.heap| && s.heap[id].kind.GraphicLife?
  }

  /** update: a heart whose number exceeds the lives counter leaves the collection. */
  function GraphicLifeUpdate(s: WorldState, id: ObjId): (r: WorldState)
    requires IsGraphicLife(s, id)
    ensures r.heap == s.heap
  {
    if s.heap[id].kind.numOfLives > s.lives then Remove(s, id) else s
  }

  method GraphicLifeCounterUpdate(w: GameWorld, id: ObjId)
    requires IsGraphicLife(w.State(), id)
    modifies w
    ensures w.State() == GraphicLifeUpdate(old(w.State()), id)
  {
    if w.heap[id].kind.numOfLives > w.lives {
      w.RemoveGameObject(id);
    }
  }

  /**
   * A heart stays exactly when it was there and its number is at most the
   * lives counter; no other object moves and the counter is left alone.
   */
  lemma GraphicLifeRules(s: WorldState, id: ObjId)
    requires IsGraphicLife(s, id)
    ensures var r := GraphicLifeUpdate(s, id);
      && (id in r.registry <==> id in s.registry && s.heap[id].kind.numOfLives <= s.lives)
      && (forall x :: x != id ==> (x in r.registry <==> x in s.registry))
      && r.lives == s.lives && r.bricks == s.bricks && r.camera == s.camera
  {
  }
}
