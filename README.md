# Bricker, modelled in Dafny

Bricker is a brick-breaker game. A ball bounces between three walls, a
user-controlled paddle and a wall of bricks. Each brick carries a collision
strategy, drawn at random when the brick is built:

- Basic removes the brick;
- Puck adds two pucks;
- Paddle adds an extra paddle, if there is none;
- Turbo speeds up the ball;
- Heart drops a falling heart that the paddle can catch for an extra life;
- Double runs two strategies.

A session keeps track of:

- the lives, shown as hearts and a coloured counter;
- the turbo flag, and the primary ball's count of collisions while it is on;
- the current extra paddle.

Once per frame it settles the lives, replaces a fallen ball, checks for a
win, culls whatever left the window, and expires the extra paddle and turbo.

The model has six modules:

- `Basics` (`basics.dfy`): an option type for nullable references, object identities, and 2-D vectors over reals.
- `Strategies` (`collision_factory.dfy`): the strategy tree as a datatype. It also has the factory `Create`, a recursive function over an oracle of random draws, and what it produces at each depth.
- `Effects` (`effects.dfy`): a pure specification of what each strategy does to a session. A `World` holds the objects created so far, the live collection, the turbo flag, the primary ball's velocity and the extra-paddle reference. `Effect` gives the world after a strategy has handled a collision.
- `Entities` (`entities.dfy`): the classes `Ball`, `ExtraPaddle` and `Paddle` with their counters, velocity and clamp, and the heart's collision filter.
- `Health` (`health.dfy`): the `HealthUI` class over its array of four heart slots.
- `Game` (`game.dfy`): the `BrickerGame` class, which models `BrickerGameManager`. It holds the object collection as a map from identities to objects plus the set of live identities, the turbo flag, the primary `Ball`, the `ExtraPaddle` reference and the `HealthUI`.

`BrickerGame.View()` reads the session as a `World`. `Apply`, which runs a
strategy through the session's own operations, is proved to produce exactly
`Effect`. `BrickerGame.Valid()` is the session's invariant. It says:

- identities are fresh, and at most one extra paddle is live (the referenced one);
- the primary ball's squared speed is the base one exactly when turbo is off, and 1.4² times it exactly when turbo is on;
- the ball's turbo counter is 0 whenever turbo is off;
- the health display is well formed, and a caught heart waiting for deletion is a falling heart.

The constructor establishes `Valid()`. These operations require it and keep it:

- the three collision handlers `BrickCollision`, `BallCollision` and `HeartCollision`;
- `Update` and each of its steps: `SettleHealth`, `Judge`, `BallOutBounds`, `ReplaceBall`, `Referee`, `Cull`, `ExpireExtraPaddle`, `ExpireTurbo` and `Tidy`.

The session's primitive operations do not keep it on their own. `SetTurbo` with turbo already on would boost the ball twice. `CreateExtraPaddle` with an extra paddle live would leave two. As in the source, only guarded callers use them: the Turbo and Paddle strategies, and the ball replacement when turbo is on.

Random choices are inputs:

- the factory's draws come from an oracle `rand(i, n)` that returns a value in `[0, n)`;
- `createBall`'s two coin flips are parameters.

## Model

| member | source | states |
|---|---|---|
| Strategies.Create | brick_strategies/CollisionFactory.java:37-79 | the factory consumes at least one draw, and the recursion terminates because the depth only grows |
| Strategies.CreateGenerated | brick_strategies/CollisionFactory.java:37-79 | whatever the draws, the strategy produced at a depth has that depth's shape, so the null `default` arms are never reached |
| Strategies.GeneratedBounds | brick_strategies/CollisionFactory.java:48-49 | a strategy of a depth's shape nests Doubles no deeper than the levels left and has at most one effect more; no Double has a Basic child; only depth 0 yields Basic |
| Strategies.TopLevelBounds | brick_strategies/CollisionFactory.java:37-79 | from depth 0, Doubles nest at most 2 deep and a tree has at most 3 effects, none of them a Basic under a Double |
| Strategies.Depth0Choice | brick_strategies/CollisionFactory.java:39-52 | at depth 0, draws 0-4 give Basic, 5 Puck, 6 Paddle, 7 Turbo, 8 Heart; 9 gives a Double whose first child is drawn at depth 1 and its second at depth 2, after it |
| Strategies.Depth1Choice | brick_strategies/CollisionFactory.java:55-66 | at depth 1, draws 0-3 give the four effects, never Basic; 4 gives a Double of two depth-2 strategies drawn in order |
| Strategies.DeeperChoice | brick_strategies/CollisionFactory.java:68-78 | at any other depth one draw picks Puck, Paddle, Turbo or Heart, never Basic or Double |
| Strategies.CreateReplay | brick_strategies/CollisionFactory.java:37-79 | replaying the recorded draws of a strategy of a depth's shape makes the factory produce that strategy, consuming exactly those draws |
| Strategies.CreateComplete | brick_strategies/CollisionFactory.java:37-79 | every strategy of a depth's shape can be produced by some draws |
| Effects.Single | brick_strategies/HeartCollisionStrategy.java:32-38 | the definition of the five single strategies' `onCollision` (Basic, Puck, Paddle, Turbo, Heart) on a world; the Effects lemmas below state its properties |
| Effects.Effect | brick_strategies/DoubleCollisionStrategy.java:35-40 | the definition of a strategy's `onCollision` on a world, a Double being the removal and then its two children in order; the lemmas below state its properties |
| Effects.EffectGrows | brick_strategies/BasicCollisionStrategy.java:30-33 | every strategy only adds objects, never changes an existing one, and keeps turbo on once it is on; the subject is out of the collection afterwards and nothing else left it |
| Effects.EffectInv | brick_strategies/PaddleCollisionStrategy.java:30-37 | every strategy keeps the bookkeeping; in particular there is no live extra paddle other than the referenced one |
| Effects.EffectTurboOk | brick_strategies/TurboCollisionStrategy.java:28-34 | every strategy keeps the ball boosted exactly when turbo is on |
| Effects.AtMostOneExtraPaddle | main/BrickerGameManager.java:381-396 | in a session that keeps the bookkeeping, at most one extra paddle is live, and none while the reference is null |
| Effects.SubjectRemovedOthersKept | brick_strategies/BasicCollisionStrategy.java:30-33 | whatever the strategy, the subject leaves the collection, while the counterpart and every other live object stay in it unmodified |
| Effects.SpawnBound | brick_strategies/DoubleCollisionStrategy.java:35-40 | a strategy creates at most two objects per effect it contains |
| Effects.BrickSpawnsAtMostSix | brick_strategies/CollisionFactory.java:37-79 | hitting a brick the factory built creates at most six objects |
| Effects.BasicEffect | brick_strategies/BasicCollisionStrategy.java:30-33 | Basic removes the subject and changes nothing else (health, turbo and the extra paddle included); with the subject absent it is a no-op; applying it twice is applying it once |
| Effects.PuckEffect | brick_strategies/PuckCollisionStrategy.java:29-37 | Puck removes the subject and adds exactly two new pucks centred at the subject's centre, whether or not the subject was live; turbo, the ball and the extra paddle are unchanged |
| Effects.PaddleEffect | brick_strategies/PaddleCollisionStrategy.java:30-37 | Paddle removes the subject; only when no extra paddle is referenced does it create one at the window centre, referenced and live; afterwards an extra paddle is always referenced |
| Effects.TurboEffect | brick_strategies/TurboCollisionStrategy.java:28-34 | Turbo removes the subject; if turbo was off it multiplies the primary ball's velocity by 1.4 and sets the flag, otherwise it does nothing more; the flag is on afterwards; a second application changes nothing |
| Effects.HeartEffect | brick_strategies/HeartCollisionStrategy.java:32-38 | Heart adds a falling heart, speed 100, 10 below the subject's centre, exactly when its removal found the subject; an absent subject changes nothing |
| Effects.NoHeartWithoutSubject | brick_strategies/HeartCollisionStrategy.java:33-37 | once the subject is gone, no strategy, however nested, drops a heart |
| Effects.DoubleNeverDropsHeart | brick_strategies/DoubleCollisionStrategy.java:35-40 | a Double never drops a heart, because it removes the subject before its children run |
| Effects.DoubleSequence | brick_strategies/DoubleCollisionStrategy.java:35-40 | a Double is the removal, then its first child, then its second, all on the same subject; the children run even though the subject is gone |
| Effects.TurboThenPaddle | brick_strategies/DoubleCollisionStrategy.java:38-39 | Double(Turbo, Paddle) leaves turbo on and exactly the referenced extra paddle as the only possible live one |
| Basics.ScaleNorm2 | main/BrickerGameManager.java:402-406 | multiplying a velocity by k multiplies its squared speed by k² |
| Basics.ScaleInverse | main/BrickerGameManager.java:411-416 | the slowdown by 1 / 1.4 undoes the speed-up by 1.4 exactly |
| Entities.FlipKeepsSpeed | gameobjects/Ball.java:43-44 | a bounce off a unit normal keeps the ball's speed |
| Entities.Ball.constructor | gameobjects/Ball.java:14-30 | a new ball has counter 0 |
| Entities.Ball.OnCollisionEnter | gameobjects/Ball.java:40-48 | the velocity is flipped about the normal; the counter grows by exactly 1 when turbo is on and the tag is "ball", and otherwise stays (so pucks never count) |
| Entities.Ball.GetCollisionCounter | gameobjects/Ball.java:53-55 | returns the counter |
| Entities.Ball.SetCollisionCounter | gameobjects/Ball.java:61-63 | overwrites the counter and leaves the velocity |
| Entities.ExtraPaddle.constructor | gameobjects/ExtraPaddle.java:27-31 | hits start at 0 |
| Entities.ExtraPaddle.OnCollisionEnter | gameobjects/ExtraPaddle.java:41-46 | hits grow by exactly 1 on contact with a ball or a puck and stay otherwise, so they never decrease |
| Entities.ExtraPaddle.GetHits | gameobjects/ExtraPaddle.java:54-56 | returns the hits |
| Entities.Paddle.constructor | gameobjects/Paddle.java:30-35 | a new paddle has the given corner, size and window width, and is at rest |
| Entities.ShouldCollideWith | gameobjects/Heart.java:53-55 | the definition of the heart's filter: true exactly for an object tagged "paddle"; `HeartCollision` states its effect |
| Entities.ClampXProperties | gameobjects/Paddle.java:62-70 | after the clamp the right edge is inside the window, the left edge too when the paddle fits; a paddle already inside stays put; clamping twice is clamping once |
| Entities.Paddle.Update | gameobjects/Paddle.java:43-56 | only left held gives velocity (-300, 0), only right (300, 0), both or neither (0, 0); then the top-left corner is clamped and y is unchanged |
| Entities.Paddle.StayInWindow | gameobjects/Paddle.java:62-70 | the two guarded rewrites amount to the clamp, with y and the velocity unchanged |
| Health.SerialsCount | main/HealthUI.java:65-73 | hearts created in order are as many in the UI layer as there are slots |
| Health.SerialsDropLast | main/HealthUI.java:89-93 | taking off the last heart removes exactly that heart from the UI layer |
| Health.HealthUI.constructor | main/HealthUI.java:34-38 | a new tracker has no hearts; the shared pending flag and deletion slot keep their values |
| Health.HealthUI.AddHeart | main/HealthUI.java:65-73 | at 4 nothing happens; below it the new heart goes into slot `cur`, at x = 20 (cur + 1) on the bottom row, joins the UI layer, and the count grows by 1; earlier slots are untouched |
| Health.HealthUI.RemoveHeart | main/HealthUI.java:89-93 | at 0 nothing happens; otherwise the count drops by 1 and exactly the most recently added heart leaves the UI layer |
| Health.HealthUI.StartHealth | main/HealthUI.java:79-84 | three addHeart calls, capped at 4, so a fresh tracker holds 3 hearts; the counter shows 3 |
| Health.HealthUI.UpdateHealth | main/HealthUI.java:99-112 | the count rises by 1 exactly when a heart was caught and the count was below 4; the flag is clear afterwards; the counter shows the count in its colour; the pending heart is handed back for deletion and the slot cleared |
| Health.ColorFor | main/HealthUI.java:117-126 | the definition of the colour band: green from 3, yellow at 2, red at 1, the previous colour otherwise; `UpdateText` states the update |
| Health.HealthUI.UpdateText | main/HealthUI.java:117-126 | the counter shows the count, green from 3, yellow at 2, red at 1, and keeps its colour at 0 |
| Health.HealthUI.RecordCaughtHeart | gameobjects/Heart.java:37-41 | a caught heart sets the pending flag and takes the single deletion slot, overwriting it |
| Health.HealthUI.GetCurHealth | main/HealthUI.java:146 | returns the count |
| Health.HealthUI.HeartsMatchHealth | main/HealthUI.java:65-93 | the hearts in the UI layer are exactly as many as the count |
| Game.OutOfBounds | main/BrickerGameManager.java:300-304 | the definition of `outOfBounds`: the centre lies strictly outside the window on some side; `InWindowMeaning` and `RemoveAllOutOfBounds` state its use |
| Game.InWindowMeaning | main/BrickerGameManager.java:300-304 | an object survives the cull exactly when its centre has 0 <= x <= width and 0 <= y <= height, which is the negation of outOfBounds |
| Game.InitialVelocity | main/BrickerGameManager.java:221-230 | the definition of createBall's velocity, 300 on each axis with the sign each coin picks; `InitialVelocitySpeed` states its properties |
| Game.InitialVelocitySpeed | main/BrickerGameManager.java:217-234 | a new ball moves at (±300, ±300), each sign flipped by its own coin, so at the base speed |
| Game.BrickAt | main/BrickerGameManager.java:255-259 | the definition of brick (i, j): top-left corner at (15 + j * width, 15 + 15 i), tagged "brick" with the given strategy; `PlaceRow` states the wall built from it |
| Game.PlaceRow | main/BrickerGameManager.java:253-261 | a row of n bricks adds exactly n live objects tagged "brick", under fresh identities, each with a strategy the factory can draw at depth 0; nothing existing changes and turbo, the ball and the extra paddle stay as they were |
| Game.PlaceRows | main/BrickerGameManager.java:250-263 | the brick wall of m rows of `cols` bricks adds exactly m * cols such bricks and changes nothing else |
| Game.InitialLevel | main/BrickerGameManager.java:140-146 | laying the wall on a frame without bricks or extra paddles keeps the bookkeeping, turbo, the ball's speed and the ball live at the window's centre, and leaves exactly rows * cols live bricks, each with a strategy the factory can draw at depth 0 |
| Game.BrickerGame.LayInitialWall | main/BrickerGameManager.java:140-145 | on the frame of a new session (walls, ball, paddle), createBrickWall leaves a valid collection with turbo off, no extra paddle, the ball live at the centre and rows * cols factory-built bricks |
| Game.BrickerGame.constructor | main/BrickerGameManager.java:117-147 | a new session has no extra paddle, turbo off, the ball at the centre with counter 0, rows * cols bricks from depth 0 and 3 hearts, the counter showing 3 in its initial colour, and is valid |
| Game.BrickerGame.CreateBrickWall | main/BrickerGameManager.java:250-263 | the nested loops place brick (i, j) with the factory's next draw, as the wall specification says |
| Game.BrickerGame.LayRow | main/BrickerGameManager.java:254-261 | the inner loop lays row i brick by brick, each with the factory's next draw, exactly as `PlaceRow` says |
| Game.BrickerGame.AddBrick | main/BrickerGameManager.java:257-260 | a created brick joins the collection under a new identity |
| Game.BrickerGame.RemoveObject | main/BrickerGameManager.java:324-326 | the object leaves the collection, reporting whether it was in it |
| Game.BrickerGame.AddObject | main/BrickerGameManager.java:344-346 | the object joins the collection |
| Game.BrickerGame.AddPuck | brick_strategies/PuckCollisionStrategy.java:33-35 | a puck centred at the given point joins the collection under a new identity |
| Game.BrickerGame.HasExtraPaddle | main/BrickerGameManager.java:381-383 | true exactly when there is no extra paddle |
| Game.BrickerGame.CreateExtraPaddle | main/BrickerGameManager.java:390-396 | a new extra paddle with 0 hits, centred in the window, becomes the referenced one but is not yet in the collection |
| Game.BrickerGame.SetTurbo | main/BrickerGameManager.java:402-406 | the primary ball's velocity is multiplied by 1.4 and turbo is on |
| Game.BrickerGame.RemoveTurbo | main/BrickerGameManager.java:411-416 | the primary ball's velocity is multiplied by 1 / 1.4, its counter is 0 and turbo is off |
| Game.BrickerGame.AddCollisionHeart | main/HealthUI.java:134-139 | a falling heart with the given speed joins the collection at the given centre |
| Game.BrickerGame.Apply | brick_strategies/DoubleCollisionStrategy.java:35-40 | running a strategy through the session's operations yields exactly `Effect`, leaving the primary ball's counter and the health display alone; a newly granted extra paddle has 0 hits |
| Game.BrickerGame.BrickCollision | gameobjects/Brick.java:39-42 | a hit brick runs its bound strategy once, as the subject, and the session stays valid; the primary ball, its turbo count and the health tracker are left as they were; a newly granted extra paddle has 0 hits |
| Game.BrickerGame.BallCollision | gameobjects/Ball.java:40-48 | the primary ball bounces at unchanged speed and counts the hit only while turbo is on, so the session stays valid |
| Game.BrickerGame.HeartCollision | gameobjects/Heart.java:37-55 | only the user's paddle catches a falling heart, which then asks for a life and waits for deletion; anything else leaves the tracker as it was |
| Game.BrickerGame.IsLose | main/BrickerGameManager.java:271-273 | true exactly when no life is left |
| Game.BrickerGame.IsWin | main/BrickerGameManager.java:280-291 | true exactly when the W key is down or no live object is tagged "brick" |
| Game.BrickerGame.RemoveAllOutOfBounds | main/BrickerGameManager.java:309-315 | the collection afterwards is exactly the old one without the objects outside the window |
| Game.BrickerGame.CreateBall | main/BrickerGameManager.java:217-234 | a new primary ball, counter 0, centred in the window, moving at (±300, ±300) with the coins' signs, joins the collection |
| Game.BrickerGame.Fell | main/BrickerGameManager.java:423-424 | the definition of the fall test: the ball's centre is below the window's bottom edge; `BallOutBounds` states what follows from it |
| Game.BrickerGame.BallOutBounds | main/BrickerGameManager.java:422-440 | when the ball's centre is below the window: a life is lost (floored at 0), the loss is reported exactly when none is left, and a new ball with counter 0 appears at the centre, boosted once exactly when turbo is on; otherwise nothing changes |
| Game.NewBallSpeed | main/BrickerGameManager.java:433-438 | the replacement ball, boosted once when turbo is on, has the squared speed turbo calls for, so the replacement keeps the ball boosted exactly when turbo is on |
| Game.BrickerGame.ReplaceBall | main/BrickerGameManager.java:433-438 | createBall then, when turbo is on, setTurbo: a new primary ball joins the collection at the window's centre, moving at the base velocity times 1.4 exactly when turbo is on, with counter 0, and the session stays valid |
| Game.BrickerGame.SettleHealth | main/HealthUI.java:99-112 | the per-frame health step: the life is added as `UpdateHealth` says, the counter shows the count in its colour band, and the caught heart leaves the collection; the bricks are untouched |
| Game.BrickerGame.Cull | main/BrickerGameManager.java:173-176 | the collection afterwards is exactly the old one culled to the window, and the ball's counter and velocity are as before |
| Game.BrickerGame.ExpireExtraPaddle | main/BrickerGameManager.java:178-183 | the extra paddle leaves the collection and the reference is cleared exactly when its hits are 4; otherwise nothing changes |
| Game.BrickerGame.ExpireTurbo | main/BrickerGameManager.java:184-186 | exactly when the counter is 6, turbo ends: the slowdown, counter 0, flag off; otherwise nothing changes |
| Game.BrickerGame.TurboRoundTrip | main/BrickerGameManager.java:402-416 | setTurbo followed by removeTurbo gives the primary ball back its old velocity, restarts its count and turns turbo off, leaving the collection and references unchanged |
| Game.BrickerGame.Judge | main/BrickerGameManager.java:163-172 | `ballOutBounds` then `isWin`: a fallen ball costs a life (floored at 0) and is replaced by a new one with counter 0, boosted exactly when turbo is on; a loss is reported exactly when the ball fell with at most one life; a win exactly when W is down or no brick is live |
| Game.BrickerGame.Referee | main/BrickerGameManager.java:158-172 | the health step, the ball check and the win check. A win is reported exactly when W is down or the frame began with no brick. A loss is reported exactly when the ball fell and at most one life was left after the health step. The new count is the settled one, less one if the ball fell, while the counter shows the settled count in its colour band. The caught heart leaves the collection, and a fallen ball's replacement joins it |
| Game.BrickerGame.Tidy | main/BrickerGameManager.java:173-186 | the cull, then the extra paddle's expiry at exactly 4 hits, then turbo's expiry at exactly 6 collisions; the collection is the old one culled to the window without an expiring extra paddle; turbo, the ball's velocity and its counter change only at 6 |
| Game.BrickerGame.Update | main/BrickerGameManager.java:155-187 | one frame, in the source's order, keeps the session valid and its health tracker. It reports a win and a loss as `Referee` says, and states the new count and what the counter shows: the settled count, in its colour band, since the counter is refreshed only in the health step. The collection afterwards is the old one, minus the caught heart, plus the replacement ball if the ball fell, culled to the window, minus the extra paddle if it had exactly 4 hits. A fallen ball's replacement has counter 0 and keeps turbo. Otherwise turbo ends, with the slowdown and counter 0, exactly when the counter was 6, and the ball is unchanged when it was not |

## Left out

- Rendering, images, sounds and the counter's text object are left out. The counter is modelled by the number it shows and its colour.
- The yes/no dialogs, `resetGame` and `closeWindow` are left to the caller. `Update` returns whether the lose and win dialogs open. A reset is a new `BrickerGame` built from the same dimensions, which carries the caught-heart flag over. The pending heart of the old session is not part of the new collection, so removing it would do nothing; the new session starts with an empty slot.
- The background object is not modelled. It is a camera-space object in its own layer.
- The engine's physics, movement and collision detection are left out. Object centres change only through `BrickerGame.Move`, which stands for the engine's movement step: it sets one object's centre and keeps its kind and the session's invariant. The collision handlers are methods for the caller to invoke.
- Removals in the model take effect at once, while the engine may defer removals made while it iterates.
- The engine's layers are not modelled. The hearts of the UI layer are tracked by the health display, not by the object collection.
- Floating-point arithmetic is modelled with exact reals. This covers `TURBO_FACTOR` 1.4f and its inverse, the brick width and the window midpoint.
- `Vector2.flipped` is modelled as the reflection v - 2 (v . n) n. That class is not part of this model.
- A puck's random angle and speed are not modelled: pucks are objects with a kind and a centre, without a velocity.
- Entities.Ball.OnCollisionEnter: the velocity and counter of balls other than the primary one are not tracked by the session. This covers pucks and replaced balls still in the collection; their counters never influence the game.
- The counters are unbounded integers. Java's 32-bit wrap-around would need 2^31 collisions in one turbo period.
- Argument parsing in `main` and the getters `getImageReader` and `getWindowDimensions` are plumbing and are left out. The layer-taking overloads of `removeObject` and `addObject` are left out too.
- `Heart.getCollisionHeartDelete` and `Heart.setCollisionHeart` are folded into `Health.HealthUI.UpdateHealth`, which hands back the pending heart and clears the slot.
- The number of rows and columns is not validated: zero or negative counts are accepted, as in the code, and a negative count runs no loop iteration.
- The cull in `update` removes every object outside the window, the primary ball included. The code saves the ball's counter before the cull and restores it after. The model does the same.
