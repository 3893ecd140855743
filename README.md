# BrickBreaker++ collision strategies, modelled in Dafny

This project models the game logic of BrickBreaker++, a Java brick-breaker built on the `danogl` engine. It covers four parts:

- **The collision-strategy factory.** `BrickStrategyFactory.getStrategy` draws labels from a six-entry table. It escalates on "Double" to two and then three decorators, and always returns a chain whose innermost node is the `RemoveBrickStrategy`.
- **The decorator chain.** Each decorator (`PuckStrategy`, `AddPaddleStrategy`, `ChangeCameraStrategy`, `WidenOrNarrowObjectStrategy`) first forwards `onCollision` to the strategy it wraps and then acts. Each action has its own guard: the static `MockPaddle.isInstantiated` flag, a camera-is-null-and-tag-is-"ball" test, or a coin flip.
- **The short-lived objects.** These are the ball-collision countdown agent that turns the camera change off, the falling widen/narrow buff, and the numeric and graphic life indicators that poll the lives counter every frame.
- **BrickerGameManager's bookkeeping.** This covers building the 5 × 8 brick grid and the four hearts, repositioning the ball, the out-of-bounds sweep and the win/lose check. After the engine's own pass, each frame runs the sweep and then the check.

The world (module `World`) is a class `GameWorld`. It holds:

- every object ever created, as a sequence indexed by object id, so a reference stays readable after the object leaves the collection;
- the game-object collection, as a set of ids;
- the bricks and lives counters;
- the game manager's camera slot;
- the static MockPaddle flag;
- the manager's ball.

Each state change has two forms:

- a specification function over the value `WorldState`;
- a method on the `GameWorld` object, proved to perform exactly that change.

The lemmas state what the source promises about those functions.

Random draws, coin flips and the yes/no dialog's answer are parameters. Engine geometry is written over `real`.

Files: `wrappers.dfy` (Option), `chain.dfy`, `brick_strategy_factory.dfy`, `world.dfy`, `strategies.dfy`, `chain_properties.dfy`, `ephemeral_objects.dfy`, `bricker_game_manager.dfy`.

## Model

| member | source | states |
|---|---|---|
| Chain.Innermost | src/brick_strategies/RemoveBrickStrategyDecorator.java:15-18 | The node every decorator finally forwards to is a RemoveBrickStrategy. |
| Chain.ExactlyOneBase | src/brick_strategies/RemoveBrickStrategyDecorator.java:9-13 | Every chain holds exactly one RemoveBrickStrategy. A chain is bare exactly when it has no decorators. |
| Chain.CollectionIsBase | src/brick_strategies/RemoveBrickStrategyDecorator.java:20-23 | getGameObjectCollection of any layer is the collection of the innermost base. Every layer spawns into the base's collection. |
| Chain.ChainRoundTrip | src/brick_strategies/RemoveBrickStrategyDecorator.java:9-13 | A chain is determined by its base's collection and its decorator list. Rebuilding from those two gives back the same chain. |
| Chain.WrapRoundTrip | src/brick_strategies/RemoveBrickStrategyDecorator.java:9-13 | Wrapping a base with a list of decorators yields a chain with exactly that list, innermost first, and that collection. |
| StrategyFactory.ByLabel | src/brick_strategies/BrickStrategyFactory.java:79-99 | getStrategyAccordingString returns null exactly for Double. Remove gives a fresh bare base that drops its argument. Each decorator label wraps the argument once, keeping its base and adding one decorator. |
| StrategyFactory.Then | src/brick_strategies/BrickStrategyFactory.java:62-74 | Composing a decorator label onto a non-null inner chain gives a non-null chain with the same base and one more decorator. |
| StrategyFactory.GetStrategy | src/brick_strategies/BrickStrategyFactory.java:48-77 | For every admissible draw, getStrategy returns a non-null chain. Its innermost node is a RemoveBrickStrategy over the factory's collection, and it has at most three decorators. |
| StrategyFactory.TableShape | src/brick_strategies/BrickStrategyFactory.java:43-45 | The table holds Remove at index 0 and Double at the last index. Every index in between holds a decorator's label. |
| StrategyFactory.FirstDrawCoversEachLabelOnce | src/brick_strategies/BrickStrategyFactory.java:43-52 | The first draw ranges over all six labels, and each label appears once in the table. |
| StrategyFactory.SecondaryDrawPool | src/brick_strategies/BrickStrategyFactory.java:56-59 | The two secondary draws can give every label except Remove. Double is possible. |
| StrategyFactory.TertiaryDrawPool | src/brick_strategies/BrickStrategyFactory.java:65-70 | The three escalation draws give only the four decorator labels. Both Remove and Double are excluded. |
| StrategyFactory.SingleDraw | src/brick_strategies/BrickStrategyFactory.java:53-54 | A non-Double first draw gives the bare base for Remove. It gives exactly one decorator for the other labels. |
| StrategyFactory.DoubleDraw | src/brick_strategies/BrickStrategyFactory.java:61-63 | Double with no secondary Double gives second(first(base)). |
| StrategyFactory.EscalatedDraw | src/brick_strategies/BrickStrategyFactory.java:64-74 | Double with a secondary Double gives third(second(first(base))) from the three fresh draws: exactly three decorators. |
| StrategyFactory.FactoryImage | src/brick_strategies/BrickStrategyFactory.java:48-77 | A chain can come out of getStrategy if and only if its base is over the factory's collection and it has at most three decorators. |
| StrategyFactory.Witness | src/brick_strategies/BrickStrategyFactory.java:48-77 | For each such chain, it gives admissible draws that make getStrategy build exactly that chain. |
| Strategies.PuckDiameter | src/brick_strategies/PuckStrategy.java:44-46 | The puck diameter is one third of the brick's longer edge. |
| Strategies.GetPucksCenters | src/brick_strategies/PuckStrategy.java:58-69 | It fills a fresh array of the requested length, and entry i is the centre PuckCenter gives puck i. PuckLayout states the spacing. |
| Strategies.CreatePucks | src/brick_strategies/PuckStrategy.java:36-56 | It adds the NUM_PUCKS_TO_CREATE pucks in order. Each has the shared velocity, the diameter, and its centre from getPucksCenters. |
| Strategies.CreateMockPaddle | src/brick_strategies/AddPaddleStrategy.java:38-47 | It adds one mock paddle. The MockPaddle constructor raises the static flag. |
| Strategies.TurnOnCameraChange | src/brick_strategies/ChangeCameraStrategy.java:41-53 | The camera follows the ball, and a countdown agent is added whose target is the ball's collision count plus 4. |
| Strategies.TurnOffCameraChange | src/brick_strategies/ChangeCameraStrategy.java:37-39 | The camera slot is emptied. |
| Strategies.CreateWidenOrNarrowObject | src/brick_strategies/WidenOrNarrowObjectStrategy.java:30-49 | It adds one buff. The coin decides widen or narrow. |
| Strategies.DecoratorEffect | src/brick_strategies/AddPaddleStrategy.java:30-36 | A decorator's own action only appends objects to the heap and registers exactly those. It never touches the counters or the ball. |
| Strategies.Collide | src/brick_strategies/RemoveBrickStrategyDecorator.java:15-18 | For any chain, one onCollision leaves the brick out of the collection and the bricks counter exactly 1 lower. Other registered objects stay, only new objects are added, and lives are unchanged. |
| Strategies.OnCollision | src/brick_strategies/RemoveBrickStrategyDecorator.java:15-18 | The recursive forward-then-act method performs exactly the state change Collide describes. |
| ChainProperties.ForwardThenAct | src/brick_strategies/RemoveBrickStrategyDecorator.java:15-18 | Running a chain removes the brick first. The decorators' actions then run innermost first, each seeing the brick already gone. |
| ChainProperties.PuckStrategySpawns | src/brick_strategies/PuckStrategy.java:36-56 | Exactly one puck is added and registered. It is a third of the brick's longer edge across, centred per getPucksCenters, with velocity (±180, 180). The sign is negative exactly when the coin is true. Nothing else changes. |
| ChainProperties.PuckLayout | src/brick_strategies/PuckStrategy.java:58-69 | Puck centres share one y and are one diameter apart in x. With one puck, the centre is (left + width/2, top + height/2 + diameter/2). |
| ChainProperties.AddPaddleStrategySpawns | src/brick_strategies/AddPaddleStrategy.java:31-47 | With the flag up, nothing happens. With it down, exactly one mock paddle is added and the flag is raised. The paddle is 150 × 20, with top-left (brick's left, window height / 2), margin 21 and threshold 3. |
| ChainProperties.ChangeCameraStrategyAttaches | src/brick_strategies/ChangeCameraStrategy.java:29-53 | Without the guard (no camera and a "ball" tag), nothing changes. With it, the camera follows the other object, and exactly one agent is added, with target collision count + 4. |
| ChainProperties.TurnOffClearsCamera | src/brick_strategies/ChangeCameraStrategy.java:37-39 | turnOffCameraChange sets the camera to null and changes nothing else. |
| ChainProperties.WidenOrNarrowStrategySpawns | src/brick_strategies/WidenOrNarrowObjectStrategy.java:30-49 | Exactly one buff is added. It widens iff the coin is true, has the brick's size and centre, and has velocity (0, 180). |
| ChainProperties.EffectsCamera | src/brick_strategies/ChangeCameraStrategy.java:29-53 | Over any list of actions: the camera is attached iff a ChangeCamera layer is present, no camera was set and the other object is the ball. The number of agents added is 1 in that case and 0 otherwise. |
| ChainProperties.EffectsAgentsAimed | src/brick_strategies/ChangeCameraStrategy.java:50-52 | Every agent a list of actions adds watches the other object, with target its collision count + 4. |
| ChainProperties.EffectsPaddle | src/brick_strategies/AddPaddleStrategy.java:31-36 | Afterwards the flag is up iff it was up or an AddPaddle layer ran. Mock paddles added: 1 if AddPaddle is present and the flag was down, otherwise 0. |
| ChainProperties.EffectsSpawnCount | src/brick_strategies/PuckStrategy.java:30-34 | Objects added = pucks per Puck layer + one per WidenOrNarrow layer + the mock paddle (if let through) + the agent (if attached). |
| ChainProperties.CollisionOutcome | src/brick_strategies/RemoveBrickStrategyDecorator.java:15-18 | For any chain: the brick is gone and the counter is 1 lower. At most one countdown agent is added, only if ChangeCamera is present and its guard holds. At most one mock paddle is added, only with the flag down. The exact number of new objects is as above. |
| ChainProperties.CollisionKeepsOthers | src/brick_strategies/RemoveBrickStrategyDecorator.java:15-18 | A collision never changes lives. It removes no object but the brick and never re-registers an object that had left. |
| EphemeralObjects.CountdownUpdate | src/gameobjects/BallCollisionCountdownAgent.java:30-37 | When the ball's collision count equals the target, the camera is cleared and the agent leaves the collection. On any other count, nothing changes. |
| EphemeralObjects.CountdownAgentUpdate | src/gameobjects/BallCollisionCountdownAgent.java:30-37 | The agent's update performs exactly CountdownUpdate. |
| EphemeralObjects.CountdownNeverFiresPastTarget | src/gameobjects/BallCollisionCountdownAgent.java:33-33 | Once the ball's count has passed the target, no number of further collisions makes the agent fire. |
| EphemeralObjects.CameraDetachesAfterFourCollisions | src/gameobjects/BallCollisionCountdownAgent.java:30-37 | After turnOnCameraChange, with one ball collision per frame, the camera follows the ball while fewer than 4 collisions have happened. It is detached from the 4th on, and the agent is present exactly until then. |
| EphemeralObjects.BuffCollisionEnter | src/gameobjects/WidenOrNarrowObject.java:37-46 | onCollisionEnter keeps the heap size and always removes the buff from the collection. |
| EphemeralObjects.BuffContact | src/gameobjects/WidenOrNarrowObject.java:61-64 | The engine's contact keeps the heap size. BuffOutcome states the filter. |
| EphemeralObjects.OnBuffCollisionEnter | src/gameobjects/WidenOrNarrowObject.java:37-46 | The buff's onCollisionEnter performs exactly BuffCollisionEnter. |
| EphemeralObjects.BuffOutcome | src/gameobjects/WidenOrNarrowObject.java:37-64 | A non-paddle contact changes nothing, and the buff stays. A paddle's dimensions are scaled by exactly 1.2 (widen) or 0.8 (narrow), with the rest of the paddle kept. The buff leaves. No other object, counter, camera or flag changes. |
| EphemeralObjects.BuffDirection | src/gameobjects/WidenOrNarrowObject.java:37-46 | For a paddle of positive size, widening strictly enlarges it and narrowing strictly shrinks it. |
| EphemeralObjects.WidenThenNarrow | src/gameobjects/WidenOrNarrowObject.java:10-11 | A widen followed by a narrow leaves the paddle at 24/25 of its size, not at its original size. |
| EphemeralObjects.NewNumericLifeCounter | src/gameobjects/NumericLifeCounter.java:24-32 | The indicator starts out showing the lives counter's value. |
| EphemeralObjects.NumericLifeUpdate | src/gameobjects/NumericLifeCounter.java:44-53 | After update, the object is still a numeric indicator. NumericLifeRules states the rules. |
| EphemeralObjects.NumericLifeCounterUpdate | src/gameobjects/NumericLifeCounter.java:44-53 | The indicator's update performs exactly NumericLifeUpdate. |
| EphemeralObjects.NumericLifeRules | src/gameobjects/NumericLifeCounter.java:44-53 | The displayed number drops by exactly 1 iff lives are below it, and is otherwise unchanged. It never rises, and never falls below lives if it was not below them. The lives counter is not touched. The indicator leaves the collection iff lives are at most 0. |
| EphemeralObjects.NumericLifeCatchesUp | src/gameobjects/NumericLifeCounter.java:47-49 | With lives fixed, n updates bring a lagging display to max(lives, displayed − n). |
| EphemeralObjects.GraphicLifeUpdate | src/gameobjects/GraphicLifeCounter.java:42-48 | update never changes any object's state. |
| EphemeralObjects.GraphicLifeCounterUpdate | src/gameobjects/GraphicLifeCounter.java:42-48 | The heart's update performs exactly GraphicLifeUpdate. |
| EphemeralObjects.GraphicLifeRules | src/gameobjects/GraphicLifeCounter.java:45-47 | A heart stays iff it was shown and its number is at most the lives counter. No other object's membership changes, and the counter is left alone. |
| GameManager.Repositioned | src/BrickerGameManager.java:136-148 | Each velocity component is ±200, negative exactly when its own coin is true. The ball is centred at half the window, (350, 250). Kind, tag, size and collision count are kept. |
| GameManager.RepositionBall | src/BrickerGameManager.java:136-148 | repositionBall replaces the ball by Repositioned. |
| GameManager.CreateBall | src/BrickerGameManager.java:127-134 | It adds a 35 × 35 ball tagged "ball", repositioned, and records it as the manager's ball. |
| GameManager.CreatePaddle | src/BrickerGameManager.java:150-157 | It adds a 150 × 20 paddle, centred horizontally 30 above the bottom edge. |
| GameManager.CreateBrick | src/BrickerGameManager.java:200-208 | One inner-loop iteration increments the counter and adds the brick at grid position (i, j), with its factory chain. |
| GameManager.CreateBricks | src/BrickerGameManager.java:184-210 | The nested loops add the 40 grid bricks in row order and leave the fresh counter at 40. |
| GameManager.BrickCounterMatchesGrid | src/BrickerGameManager.java:192-209 | After createBricks, the counter equals the number of bricks added, 5 × 8 = 40. All are registered, each carries a chain with the base innermost, and each has at most three decorators. |
| GameManager.BrickGridLayout | src/BrickerGameManager.java:185-203 | Every brick lies between the walls plus the 5 margin. Row neighbours are exactly 1 apart, and no two bricks overlap. |
| GameManager.Hearts | src/BrickerGameManager.java:229-236 | There are exactly four hearts, and the i-th heart added carries the number i + 1. |
| GameManager.CreateGraphicLives | src/BrickerGameManager.java:220-237 | The lives counter is set to 4, and the four hearts are added in order. |
| GameManager.HeartsShowLives | src/BrickerGameManager.java:227-236 | From the fresh hearts, with lives at L, after each heart's update exactly the hearts numbered at most L remain. |
| GameManager.CreateNumericLifeCounter | src/BrickerGameManager.java:239-250 | It adds the numeric indicator, showing the current lives. |
| GameManager.InitializeGame | src/BrickerGameManager.java:91-125 | It builds the ball, paddle, bricks, hearts and numeric indicator in source order. The MockPaddle flag carries over. |
| GameManager.LevelStart | src/BrickerGameManager.java:91-125 | A fresh level has 40 bricks and 4 lives, and all four hearts are shown. The indicator shows 4, the tagged ball is registered, there is no camera, and the flag is as the reset left it. |
| GameManager.RemoveObjectsOutOfBounds | src/BrickerGameManager.java:271-278 | The loop over the collection performs exactly the Swept filter. |
| GameManager.SweepRules | src/BrickerGameManager.java:271-278 | A registered object is removed iff it is not tagged "ball" and its centre is below the window. Nothing is added, the ball survives, and sweeping twice equals sweeping once. |
| GameManager.GameEndCheck | src/BrickerGameManager.java:280-306 | Lives drop by exactly 1 iff the ball is below. Lose iff below with at most 1 life left; lose overrides win. Win iff no bricks are left and the check did not lose. No prompt means no dialog. "Yes" resets and clears the flag; "no" closes. The ball is repositioned iff it is below and lives remain. Collection, bricks and camera are untouched. |
| GameManager.CheckForGameEnd | src/BrickerGameManager.java:280-306 | checkForGameEnd's statements perform exactly GameEndCheck and return its prompt and action. |
| GameManager.Update | src/BrickerGameManager.java:264-269 | A frame runs the sweep, then the end check. |
| GameManager.BallLostWithLivesLeft | src/BrickerGameManager.java:288-296 | A ball lost with more than one life costs exactly one life. The ball stays registered and is put back at the window centre. The game continues unless no bricks are left. |
| GameManager.DisplayLag | src/gameobjects/NumericLifeCounter.java:44-53 | With the indicator updated in the engine pass, "lives ≤ displayed ≤ lives + 1" holds after every frame if it held before. The display never shows fewer lives than remain, and lags by at most one. |
| GameManager.ResetRoundTrip | src/BrickerGameManager.java:297-305 | Answering yes to a prompt gives ResetGame. The next initializeGame restores 40 bricks, 4 lives, no camera and a lowered MockPaddle flag. |
| GameManager.DeclineCloses | src/BrickerGameManager.java:297-305 | Answering no to a prompt closes the window and leaves the flag alone. |

## Left out

- **The danogl engine.** Collision detection, the order in which the engine updates objects, rendering, layers (`BACKGROUND`, `STATIC_OBJECTS`), the camera viewport (the window × 1.2), the indicator's text, images, sounds and the dialog are engine-defined. The model keeps one collection, and the dialog's answer is a parameter. `resetGame` and `closeWindow` become the `Action` the check returns. A new level is `InitializeGame` on a new world.
- **java.util.Random.** Every draw and coin is a parameter, with the range `nextInt` guarantees. Probabilities are not modelled.
- **Float arithmetic.** Positions, sizes and velocities are exact reals: 1.2 is 6/5 and 0.8 is 4/5. Java float rounding is not modelled.
- **Classes this model does not include.** `RemoveBrickStrategy`, `Ball`, `Paddle`, `MockPaddle`, `Puck` and `Brick` are not part of this model. Their behaviour is written as stubs:
  - the base strategy removes the brick (a no-op if it is already gone) and decrements the bricks counter;
  - a ball's collision count rises by one per collision;
  - constructing a `MockPaddle` raises `MockPaddle.isInstantiated`;
  - a `MockPaddle` is a `Paddle` for the buff's filter.
- **The mock paddle's own lifecycle.** The mock paddle disappearing after 3 collisions, and the paddle itself lowering the flag, are not modelled. The model does not claim an at-most-one-paddle invariant beyond the flag check.
- **Borders and background.** `createBorders` and `createBackground` only place fixed scenery and are not modelled.
- **Removal while iterating.** The loop in `removeObjectsOutOfBounds` is modelled as a filter over a snapshot of the collection.
- **The agent's owner.** `turnOffCameraChange` writes the game manager's single camera slot. The agent's owner field is therefore implicit.
- EphemeralObjects.CameraDetachesAfterFourCollisions: assumes exactly one ball collision per frame before the agent's update. Several collisions in one frame can skip the target, and then the agent never fires (CountdownNeverFiresPastTarget).
- StrategyFactory.Then: where Java would pass a null inner strategy on, the model propagates `None`. GetStrategy proves this path is never taken.
- **The third level of Double.** One description of this game leaves Double at the third level unresolved. The code draws the three escalation labels with bound `length - 2` (src/brick_strategies/BrickStrategyFactory.java:65-70), so Double cannot occur there. The model follows the code (TertiaryDrawPool, EscalatedDraw).
