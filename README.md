# Neon runner: the per-frame simulation in Dafny

This project models the simulation core of a small Java side-scrolling arcade game. A craft
flies through a corridor of obstacles, avoids three kinds of enemies, and collects two kinds of
pickups. A Swing timer drives the game at about 60 frames per second, and a mouse press gives a
thrust, or restarts the game once it is over.

The model follows the source class by class.

- `Geometry` holds:
  - the 800 by 600 panel;
  - integer rectangles and the overlap test every collision uses;
  - Java's `(int)` cast, as truncation toward zero.
- `Players`, `Obstacles`, `Enemies` and `PowerUps` each model one entity class in two layers:
  - a value datatype holding the object's fields (`PlayerView`, `ObstacleView`, …), with pure
    functions that specify each operation;
  - a `class` with the same fields, whose methods update them in place. Each method is proved to
    move its `View()` exactly as the specification function says.
- `Sweep` describes a reverse-index update-and-remove pass once, for any element type: which
  elements survive, in which order, and how many satisfy a test.
- `Rules` states the game panel's rules on values:
  - the scoring session (score, high score, combo multiplier and its 180-frame window, game over);
  - the three passes of a frame, as tail-recursive functions that take the last element first,
    as the Java loops do;
  - the spawn rules, a frame (`Advance`), a timer tick, a mouse press and a restart;
  - lemmas about all of these, and an invariant every reachable state keeps.
- `Panel` is the `GamePanel` class. It has the craft, three sequences of object references, and
  the scoring fields. Each of its methods is proved against the `Rules` functions:
  - each loop step of a pass (`PassObstacle`, …);
  - each pass (`UpdateObstacles`, …), whose loop invariant ties the objects' states to the
    recursive pass;
  - each spawn step, the frame (`UpdateGame`), the timer callback (`ActionPerformed`) and
    `MousePressed`.

Each `Math.random()` call becomes a draw: an input value in [0, 1), collected for one frame in
`TickDraws` and named for what it decides. Positions of the craft and of enemies, and the
craft's speed, are `real`. Obstacle and pickup positions are `int`, which is exact, because they
start at integers and move by 3.0. The pickup glow is counted in twentieths, so each step of
0.05 becomes a step of 1.

## Model

| member | source | states |
|---|---|---|
| `Geometry.IntersectsIffSharedPixel` | src/Enemy.java:82-85 | Taken as the behaviour of `Rectangle.intersects`: two rectangles intersect exactly when some pixel lies in both. |
| `Geometry.Intersects` | src/Obstacle.java:55 | The overlap test of `java.awt.Rectangle`, taken as an assumption: strict overlap of two non-empty rectangles. When they overlap, the pixel at the later left edge and the later top edge lies in both. |
| `Geometry.IntersectsSymmetric` | src/PowerUp.java:65-68 | It does not matter which box asks: pickups test `pickup.intersects(player)`, obstacles test `player.intersects(band)`. |
| `Geometry.Trunc` | src/Player.java:113-115 | The `(int)` cast: for r ≥ 0 it is the largest integer ≤ r; for r < 0 it is the smallest integer ≥ r. |
| `Geometry.TruncNegative` | src/Enemy.java:82-85 | On a negative non-integer, the cast gives one more than the floor. |
| `Geometry.TruncOfInt` | src/Obstacle.java:47-53 | Casting an integral double gives the integer back, so `(int)x` of an obstacle is its x. |
| `Geometry.Abs` | src/Player.java:43-49 | `Math.abs`: non-negative and equal to r or -r. |
| `Players.Spawned` | src/Player.java:13-20 | A new craft is at the given position, motionless, at health 3, without a boost. |
| `Players.FreeVelocity` | src/Player.java:30-31 | Gravity then dampening. The speed grows exactly when it is below 14.7, the uncapped terminal speed. |
| `Players.FreeY` | src/Player.java:34 | Below that speed, the craft moves further down than its old speed alone would take it. |
| `Players.Updated` | src/Player.java:22-50 | After a frame, y lies in [0, 600]. x and health are unchanged. A running boost timer drops by 1, and the boost ends when the timer reaches 0. Without a boost, the flag and timer are unchanged. |
| `Players.UpdateClamps` | src/Player.java:37-49 | A bounce off the top leaves y = 0 and a speed ≥ 0. A bounce off the bottom leaves y = 600 and a speed ≤ 0. Otherwise y moves freely and the speed is capped at 7. |
| `Players.BoostCountdown` | src/Player.java:22-28 | A running boost with timer t, after n ≤ t frames, has timer t - n, and is on exactly while n < t. |
| `Players.BoostLastsItsDuration` | src/Player.java:61-64 | After a boost pickup, the boost holds for the next 299 frames and is off after the 300th. |
| `Players.ThrustVelocity` | src/Player.java:52-59 | The impulse is always negative and one of -6, -9, -7.8, -10.8. Which one it is tells whether the craft was falling fast and whether it was boosted, both ways. |
| `Players.ThrustOrdering` | src/Player.java:52-59 | A boosted thrust is stronger than an unboosted one, and a falling-fast thrust is stronger than a normal one. |
| `Players.Thrusted` | src/Player.java:52-59 | A thrust sets only the vertical speed: negative, and falling fast means a speed above 4. |
| `Players.Boosted` | src/Player.java:61-64 | A boost sets the flag and a 300-frame timer whatever the state before, and changes nothing else. |
| `Players.Damaged` | src/Player.java:66-70 | A hit lowers health by exactly 1 and changes nothing else; under a boost it changes nothing. |
| `Players.RepeatedDamage` | src/Player.java:66-70 | Unboosted, n hits cost exactly n units of health with no lower bound; boosted, hits change nothing. |
| `Players.Healed` | src/Player.java:72-76 | Healing adds at most 1, never goes past 3 from a valid state, is a no-op exactly at full health, and changes nothing else. |
| `Players.PlayerBox` | src/Player.java:113-115 | The collision box is 40 by 20 at the truncated position; for y ≥ 0 its top is within 1 of y. |
| `Players.Player.constructor` | src/Player.java:13-20 | The new object's state is `Spawned`. |
| `Players.Player.Update` | src/Player.java:22-50 | The object's new state is `Updated` of its old state, and y lies within the panel. |
| `Players.Player.Thrust` | src/Player.java:52-59 | The new state is `Thrusted` of the old, so the speed is negative. |
| `Players.Player.ActivateBoost` | src/Player.java:61-64 | The new state is `Boosted` of the old. |
| `Players.Player.TakeDamage` | src/Player.java:66-70 | The new state is `Damaged` of the old. |
| `Players.Player.Heal` | src/Player.java:72-76 | The new state is `Healed` of the old, so health stays ≤ 3. |
| `Players.Player.GetBounds` | src/Player.java:113-115 | The box is `PlayerBox` of the state. |
| `Obstacles.GapHeight` | src/Obstacle.java:17 | The gap is 120 when narrow, and otherwise in [150, 200). |
| `Obstacles.ScaledDraw` | src/Obstacle.java:17-19 | The cast of a draw in [0, 1) times a positive range lies in [0, range). |
| `Obstacles.GapPosition` | src/Obstacle.java:18-22 | Both walls are at least 50 high. A drawn position leaves the bottom wall above 549. A forced position is clamped into [50, 600 - gap - 50], and is kept when already in range. |
| `Obstacles.Spawn` | src/Obstacle.java:15-23 | A new obstacle is well formed, at the given x, with the gap height of its kind. |
| `Obstacles.Scrolled` | src/Obstacle.java:25-27 | A frame moves the obstacle exactly 3 to the left, changes nothing else, and keeps it well formed. |
| `Obstacles.ScrolledTimesMoves` | src/Obstacle.java:25-27 | After n frames the obstacle has moved exactly 3n to the left and is otherwise the same. |
| `Obstacles.OffScreenTiming` | src/Obstacle.java:43-45 | Off-screen after n frames exactly when x - 3n + 80 < 0. Once off-screen it stays so. From x = 800 it is first off-screen after 294 frames. |
| `Obstacles.BandsSolid` | src/Obstacle.java:47-53 | Both walls of a well-formed obstacle are at least 50 high, and with the gap they fill the panel. |
| `Obstacles.TopBand` | src/Obstacle.java:49 | The top wall spans the obstacle's 80 columns, from row 0 down to the top of the gap. |
| `Obstacles.BottomBand` | src/Obstacle.java:50-53 | The bottom wall spans the same columns, from the bottom of the gap down to row 600. |
| `Obstacles.OffScreen` | src/Obstacle.java:43-45 | Off-screen means x + 80 < 0; then both walls end left of column 0. |
| `Obstacles.Collides` | src/Obstacle.java:47-56 | A box hits when it meets the top wall or the bottom wall; a hit needs a non-empty box that overlaps the obstacle's columns. |
| `Obstacles.OffScreenMissesPanel` | src/Obstacle.java:43-56 | An off-screen obstacle hits no box that starts at column 0 or to its right, so removing it before the collision test loses no hit. |
| `Obstacles.CollidesIff` | src/Obstacle.java:47-56 | A box hits exactly when it overlaps the obstacle's columns and reaches above or below the gap. A box clear of the columns, or inside the gap, never hits. |
| `Obstacles.Obstacle.constructor` | src/Obstacle.java:15-23 | The new object's state is `Spawn` of the arguments and draws. |
| `Obstacles.Obstacle.Unforced` | src/Obstacle.java:11-13 | The one-argument constructor is the full one with no forced position and no narrow gap. |
| `Obstacles.Obstacle.Update` | src/Obstacle.java:25-27 | The new state is `Scrolled` of the old. |
| `Obstacles.Obstacle.IsOffScreen` | src/Obstacle.java:43-45 | The test on the object's fields equals `OffScreen` of its state. |
| `Obstacles.Obstacle.CollidesWith` | src/Obstacle.java:47-56 | The two-rectangle test on the fields and the craft's bounds equals `Collides` of the states. |
| `Enemies.Spawned` | src/Enemy.java:14-33 | Horizontal speed is -3 for drones and turrets and -2.25 for hunters. A drone's vertical speed is in [-1, 1); the others start at 0. Every new enemy is well formed. |
| `Enemies.Signum` | src/Enemy.java:49 | `Math.signum`: -1, 0 or 1, with sign times value equal to the absolute value, and 0 exactly at 0. |
| `Enemies.Moved` | src/Enemy.java:35-56 | Every kind adds its horizontal speed to x, which never changes. A turret keeps y and vertical speed. A hunter sets its vertical speed to 1.5 times the sign of the craft's offset and moves by it. A drone keeps the magnitude of its speed, reverses it exactly when the moved y is ≤ 0 or ≥ 570, and is not clamped. Well-formedness is kept. |
| `Enemies.HunterPursuit` | src/Enemy.java:46-51 | A hunter at distance d ends the frame at distance abs(d - 1.5), which is closer whenever d ≥ 0.75. |
| `Enemies.EnemyBox` | src/Enemy.java:82-85 | Every kind uses a 30 by 30 box at the truncated position. |
| `Enemies.TruncatedBoxAtLeftEdge` | src/Enemy.java:78-85 | An enemy just past the left edge (-1 < x < 0) still has its box start at column 0 and is not off-screen. |
| `Enemies.OffScreen` | src/Enemy.java:78-80 | Defines off-screen as x + 30 < 0. |
| `Enemies.Collides` | src/Enemy.java:82-85 | The enemy's 30 by 30 box meets the given box, asked from either side. |
| `Enemies.OffScreenMissesPanel` | src/Enemy.java:78-85 | Despite the truncated box, an off-screen enemy hits no box that starts at column 0 or to its right. |
| `Enemies.Enemy.constructor` | src/Enemy.java:14-33 | The new object's state is `Spawned` of the arguments and the drone draw. |
| `Enemies.Enemy.Update` | src/Enemy.java:35-56 | The new state is `Moved` of the old, at the craft's current height. |
| `Enemies.Enemy.IsOffScreen` | src/Enemy.java:78-80 | The test on the object's fields equals `OffScreen` of its state. |
| `Enemies.Enemy.CollidesWith` | src/Enemy.java:82-85 | The rectangle test on the fields and the craft's bounds equals `Collides` of the states. |
| `PowerUps.Spawned` | src/PowerUp.java:14-18 | A new pickup is at the given place, of the given kind, with no glow and the glow rising. |
| `PowerUps.Pulsed` | src/PowerUp.java:24-34 | The glow moves by one step in its direction, turns at 20 and at 0, and stays in range. |
| `PowerUps.GlowRises` | src/PowerUp.java:24-28 | A rising glow climbs one step per frame and turns on reaching the peak. |
| `PowerUps.GlowFalls` | src/PowerUp.java:29-34 | A falling glow drops one step per frame and turns on reaching 0. |
| `PowerUps.GlowPeriod` | src/PowerUp.java:20-35 | From a new pickup, the glow peaks after 20 frames and is back at its start after 40. |
| `PowerUps.Moved` | src/PowerUp.java:20-35 | A frame moves the pickup exactly 3 to the left, keeps y and kind, and steps the glow. |
| `PowerUps.PickupBox` | src/PowerUp.java:65-68 | The collision box is 20 by 20 at the pickup's position. |
| `PowerUps.GlowIsCosmetic` | src/PowerUp.java:61-68 | The glow plays no part in the off-screen test or the collision test. |
| `PowerUps.OffScreen` | src/PowerUp.java:61-63 | Off-screen means x + 20 < 0; then the pickup's box ends left of column 0. |
| `PowerUps.Collides` | src/PowerUp.java:65-68 | The pickup's 20 by 20 box meets the given box, asked from either side. |
| `PowerUps.OffScreenMissesPanel` | src/PowerUp.java:61-68 | An off-screen pickup cannot be collected by a box that starts at column 0 or to its right. |
| `PowerUps.PowerUp.constructor` | src/PowerUp.java:14-18 | The new object's state is `Spawned`. |
| `PowerUps.PowerUp.Update` | src/PowerUp.java:20-35 | The new state is `Moved` of the old. |
| `PowerUps.PowerUp.IsOffScreen` | src/PowerUp.java:61-63 | The test on the object's fields equals `OffScreen` of its state. |
| `PowerUps.PowerUp.CollidesWith` | src/PowerUp.java:65-68 | The rectangle test on the fields and the craft's bounds equals `Collides` of the states. |
| `PowerUps.PowerUp.GetType` | src/PowerUp.java:70-72 | The type is the one given at construction. |
| `Sweep.KeptExactly` | src/GamePanel.java:159-163 | A reverse-index pass keeps exactly the moved elements that are not gone. The number dropped is the number gone. |
| `Rules.Cleared` | src/GamePanel.java:162-175 | A cleared obstacle adds 10 times the multiplier, raises the multiplier by 1, and sets the combo window to 180. The high score becomes the larger of itself and the new score. The craft and the game-over flag are unchanged. |
| `Rules.Hit` | src/GamePanel.java:183-192 | A hit damages the craft. The game is over after it exactly when it was before or health is at most 0. Nothing else changes. |
| `Rules.Collected` | src/GamePanel.java:229-247 | A collected pickup adds 5 points. A boost sets the boost on with a full timer and keeps health; a data pack heals. The craft's box and the rest of the session are unchanged. |
| `Rules.ObstacleStep` | src/GamePanel.java:162-195 | An off-screen obstacle scores at the current multiplier, raises it, refills the window, and the high score catches up. Otherwise a hit resets the multiplier to 1 without points and damages the craft. Otherwise nothing changes. The craft's box never moves. |
| `Rules.ObstaclePass` | src/GamePanel.java:159-196 | The obstacle loop, from the last index to the first. It keeps at most as many obstacles as it was given. |
| `Rules.ObstaclePassHitResetsCombo` | src/GamePanel.java:180-183 | When an obstacle hits, the lowest-index hit is the last one the loop sees. The multiplier after the pass is 1 plus the obstacles cleared below that index. |
| `Rules.EnemyStepEffect` | src/GamePanel.java:207-220 | An enemy on the panel that meets the craft damages it and ends the game at health 0 or below; any other enemy changes nothing. Only health and the game-over flag change. |
| `Rules.EnemyPass` | src/GamePanel.java:199-221 | The enemy loop, from the last index to the first. It keeps at most as many enemies as it was given. |
| `Rules.PowerUpStepEffect` | src/GamePanel.java:229-247 | A pickup on the panel that meets the craft is collected for 5 points; any other changes nothing. Only the craft and the score change. |
| `Rules.PowerUpPass` | src/GamePanel.java:224-249 | The pickup loop, from the last index to the first. It keeps at most as many pickups as it was given. |
| `Rules.ObstaclePassKeeps` | src/GamePanel.java:159-196 | The obstacle pass keeps exactly the scrolled obstacles still on the panel, in their order. |
| `Rules.ObstaclePassDamage` | src/GamePanel.java:180-195 | Each obstacle that hits costs one unit of health (none under a boost). The game is over after the pass exactly when it was before, or health has reached 0 or below. |
| `Rules.ObstaclePassScore` | src/GamePanel.java:162-179 | Score and high score never drop, and the multiplier stays ≥ 1. With no obstacle cleared, score, high score and combo window are as before. With one cleared, the window is 180 and the high score has caught up with the score. |
| `Rules.ObstaclePassCombo` | src/GamePanel.java:164-170 | Without a hit, n obstacles cleared from multiplier m earn 10m + 10(m+1) + … and raise the multiplier by n. |
| `Rules.ComboPointsClosedForm` | src/GamePanel.java:164-170 | Those points come to 5n(2m + n - 1). |
| `Rules.EnemyPassKeeps` | src/GamePanel.java:199-221 | The enemy pass keeps exactly the moved enemies still on the panel, in order; an enemy that hits stays. |
| `Rules.EnemyPassDamage` | src/GamePanel.java:207-220 | Each enemy that hits costs one unit of health (none under a boost). Nothing else but the game-over flag changes, and the game ends exactly when health reaches 0 or below. |
| `Rules.PowerUpPassKeeps` | src/GamePanel.java:224-249 | The pickup pass keeps exactly the moved pickups that are neither off-screen nor collected. |
| `Rules.PowerUpPassEffects` | src/GamePanel.java:229-247 | Each collected pickup adds 5 points. Data packs add health up to 3. A collected boost leaves the boost on with a full timer. Nothing else in the session changes. |
| `Rules.ObstacleWave` | src/GamePanel.java:252-268 | One obstacle at x = 800. A second one at 1100 needs score > 30 and the hard draw, or at 1050 needs score > 15 and the medium draw. All are well formed. |
| `Rules.WithNewObstacles` | src/GamePanel.java:252 | A wave is appended only when fewer than three obstacles remain. |
| `Rules.ComboCountdown` | src/GamePanel.java:271-276 | A positive combo window drops by 1. The multiplier resets to 1 exactly on the frame the window reaches 0. Nothing else changes. |
| `Rules.ComboExpires` | src/GamePanel.java:271-276 | With no obstacle cleared, a window of t frames ends after exactly t frames and then resets the multiplier. |
| `Rules.EnemyKindFor` | src/GamePanel.java:282-292 | Below 10 points only drones spawn. Hunters need 20 points. The thresholds 0.7, 0.5 and 0.8 pick the kind, both ways. |
| `Rules.NewEnemy` | src/GamePanel.java:279-294 | A new enemy is at x = 800 with y in [0, 550), of the weighted kind, and well formed. |
| `Rules.WithNewEnemy` | src/GamePanel.java:279-297 | An enemy is appended exactly when score > 0 and the chance draw is below 0.01. |
| `Rules.PowerUpKindFor` | src/GamePanel.java:302-308 | At health 1, a favour draw below 0.7 forces a data pack. Otherwise the kind is a boost exactly when the draw is below 0.5. |
| `Rules.NewPowerUp` | src/GamePanel.java:300-310 | A new pickup is at x = 800 with y in [0, 570), of the chosen kind, with a fresh glow. |
| `Rules.WithNewPowerUp` | src/GamePanel.java:300-313 | A pickup is appended exactly when the chance draw is below 0.003. |
| `Rules.Stuck` | src/GamePanel.java:316-317 | The stuck test. A craft clear of both edges, or moving at speed 0.1 or more, is never stuck. |
| `Rules.RestingOnTheFloorGetsStuck` | src/GamePanel.java:316-323 | A craft lying on the floor without speed bounces up at 0.147 and is not stuck. One frame later it moves at under 0.075 and is stuck, so resting on the floor ends the game on the second frame. |
| `Rules.Advance` | src/GamePanel.java:155-324 | One frame of the running game. It always leaves between 1 obstacle and 2 more than before, and adds at most one enemy and one pickup. |
| `Rules.CraftMoved` | src/GamePanel.java:156 | The first step of a frame updates the craft and nothing else. |
| `Rules.ObstaclesSpawned` | src/GamePanel.java:252-268 | Spawning obstacles changes only the obstacle list. |
| `Rules.ComboTicked` | src/GamePanel.java:271-276 | The countdown changes only the session. |
| `Rules.EnemySpawned` | src/GamePanel.java:279-297 | Spawning an enemy changes only the enemy list. |
| `Rules.PowerUpSpawned` | src/GamePanel.java:300-313 | Spawning a pickup changes only the pickup list. |
| `Rules.StuckChecked` | src/GamePanel.java:316-323 | The stuck test sets game over exactly when the craft is stuck, and changes nothing else. |
| `Rules.AdvanceInSteps` | src/GamePanel.java:155-324 | A frame is its steps in the order `updateGame` takes them. |
| `Rules.TimerTick` | src/GamePanel.java:148-153 | A tick leaves a finished game unchanged, and otherwise runs a frame. |
| `Rules.Initial` | src/GamePanel.java:37-51 | After construction: a new craft at (100, 300), empty lists, score and high score 0, multiplier 1, and the game running. |
| `Rules.Restarted` | src/GamePanel.java:37-51 | A restart makes a new craft and empty lists, sets score 0, and runs the game. High score, multiplier and combo window carry over. |
| `Rules.Press` | src/GamePanel.java:328-335 | A press while running only thrusts, so the speed becomes negative. A press after game over restarts. |
| `Rules.FramePasses` | src/GamePanel.java:155-249 | Over the three passes of a frame, the craft loses one unit of health per obstacle or enemy hit (none under a boost), and each list keeps exactly its survivors. |
| `Rules.AdvanceGameOver` | src/GamePanel.java:155-324 | After a frame the game is over exactly when it was before, or the unboosted craft took at least as many hits as its health, or it ended stuck. No frame restarts a game. |
| `Rules.AdvanceHealth` | src/GamePanel.java:155-249 | Health after a frame is the health before, minus the frame's hits (none under a boost), plus the data packs collected, capped at 3. |
| `Rules.AdvanceScore` | src/GamePanel.java:155-276 | A frame never lowers score or high score. With no obstacle hit, the score grows by exactly the combo points plus 5 per pickup. The combo window after a frame with a clearance is 179. In a frame that clears no obstacle, the high score does not move, whatever the pickups added. |
| `Rules.PickupLeavesHighScoreBehind` | src/GamePanel.java:173-175 | An example of the rule `AdvanceScore` states in general: from the start, a frame that only collects a pickup ends with score 5 and high score still 0. |
| `Rules.AdvanceLists` | src/GamePanel.java:155-313 | After a frame, each list is its survivors in order followed by what the frame spawned. There are between 1 and 4 obstacles. |
| `Rules.PowerUpPassKeepsSessionInv` | src/GamePanel.java:224-249 | The pickup pass keeps the session invariant. |
| `Rules.PassesKeepSessionInv` | src/GamePanel.java:155-249 | The three passes of a frame keep the session invariant. |
| `Rules.AdvanceKeepsObstaclesInv` | src/GamePanel.java:159-268 | After a frame there are at most four obstacles, all well formed. |
| `Rules.AdvanceKeepsEnemiesInv` | src/GamePanel.java:199-297 | After a frame every enemy moves at the speeds of its kind. |
| `Rules.AdvanceKeepsGlowsInv` | src/GamePanel.java:224-313 | After a frame every pickup's glow is in range. |
| `Rules.AdvanceKeepsSessionInv` | src/GamePanel.java:155-324 | A frame keeps the invariant on the session: the multiplier is ≥ 1; the counters are not negative; health is ≤ 3 and is ≤ 0 only once the game is over; the boost is on only while its timer runs. |
| `Rules.AdvanceKeepsListsInv` | src/GamePanel.java:155-313 | A frame keeps the invariant on the lists: at most four obstacles, all well formed; enemies with their kind's speeds; glows in range. |
| `Rules.AdvanceKeepsInv` | src/GamePanel.java:155-324 | A frame keeps the whole invariant. |
| `Rules.TimerTickKeepsInv` | src/GamePanel.java:148-153 | A timer tick keeps the invariant. |
| `Rules.PressKeepsInv` | src/GamePanel.java:328-335 | The initial state satisfies the invariant, and a press keeps it. |
| `Panel.GamePanel.constructor` | src/GamePanel.java:29-51 | The new panel's state is `Initial`, which satisfies the invariant. |
| `Panel.GamePanel.InitializeGame` | src/GamePanel.java:37-51 | The new state is `Restarted` of the old. |
| `Panel.GamePanel.PassObstacle` | src/GamePanel.java:160-195 | One loop step on obstacle i. The obstacle scrolls. It is removed exactly when it is off-screen. The session takes that obstacle's step. |
| `Panel.GamePanel.UpdateObstacles` | src/GamePanel.java:159-196 | The obstacles' states and the session become those of `ObstaclePass` over the old states. No object is listed twice. |
| `Panel.GamePanel.PassEnemy` | src/GamePanel.java:200-220 | One loop step on enemy i. It moves toward the craft and is removed exactly when off-screen. The session takes its step. |
| `Panel.GamePanel.UpdateEnemies` | src/GamePanel.java:199-221 | The enemies' states and the session become those of `EnemyPass` over the old states. |
| `Panel.GamePanel.PassPowerUp` | src/GamePanel.java:225-248 | One loop step on pickup i. It moves and is removed exactly when off-screen or collected. The session takes its step. |
| `Panel.GamePanel.UpdatePowerUps` | src/GamePanel.java:224-249 | The pickups' states and the session become those of `PowerUpPass` over the old states. |
| `Panel.GamePanel.NewWave` | src/GamePanel.java:253-264 | The new obstacle objects are fresh and distinct, and their states are `ObstacleWave`. |
| `Panel.GamePanel.SpawnObstacles` | src/GamePanel.java:252-268 | The new state is `ObstaclesSpawned` of the old. |
| `Panel.GamePanel.TickMultiplierTimer` | src/GamePanel.java:271-276 | The new state is `ComboTicked` of the old. |
| `Panel.GamePanel.SpawnEnemy` | src/GamePanel.java:279-297 | The new state is `EnemySpawned` of the old. |
| `Panel.GamePanel.SpawnPowerUp` | src/GamePanel.java:300-313 | The new state is `PowerUpSpawned` of the old. |
| `Panel.GamePanel.CheckStuck` | src/GamePanel.java:316-323 | The new state is `StuckChecked` of the old. |
| `Panel.GamePanel.UpdateGame` | src/GamePanel.java:155-324 | The new state is `Advance` of the old. |
| `Panel.GamePanel.ActionPerformed` | src/GamePanel.java:148-153 | The new state is `TimerTick` of the old, and the invariant is kept. |
| `Panel.GamePanel.MousePressed` | src/GamePanel.java:328-335 | The new state is `Press` of the old, and the invariant is kept. |

## Left out

- Drawing is not modelled: `paintComponent`, the health and game-over overlays, and every `render` method. They have no effect on the state.
- Sound cues (`SoundManager.playSound`) are not modelled. The class does audio synthesis and playback.
- `Main` and the window setup are left out.
- The headless-mode console logging is left out.
- The Swing `Timer` and `SwingUtilities.invokeLater` are left out. A tick is `ActionPerformed` with its draws, and a press is `MousePressed`.
- `initializeGame` starts a new 16 ms timer on every call and never stops the old ones (src/GamePanel.java:44-50). After k restarts, k + 1 timers call `actionPerformed`. Timers are outside the model, so this is not captured.
- `Panel.GamePanel.constructor` models the state after the deferred `initializeGame` call has run, not the moment between construction and that call.
- `Math.random` is replaced by explicit draws in [0, 1). Distributions and probabilities are not stated.
- Floating point is idealised as exact real arithmetic:
  - the craft's gravity and dampening, and the drone speeds, are reals;
  - the glow steps of 0.05 are integer twentieths, so rounding drift in the turn-around of the glow is not modelled;
  - the stuck test's `Math.abs(velocityY) < 0.1` is exact.
- `Geometry.Trunc` does not model the saturation of `(int)` at the 32-bit range. Positions in the game stay far from it.
- `Geometry.IntersectsIffSharedPixel` is a stated assumption about `java.awt.Rectangle.intersects`, whose JDK code (including its overflow handling) is not part of this model.
- Integer overflow of score, multiplier and health is not modelled; the model's integers are unbounded.
- The getters (`getX`, `getY`, `getHealth`, `hasBoost`, `getVelocityY`, `getPanelWidth`, `getPanelHeight`) are direct field reads of the classes. They have no members of their own.
- The loop body of each pass is its own method (`PassObstacle`, `PassEnemy`, `PassPowerUp`), and the obstacle wave is built in `NewWave`. The statements and their order are those of `updateGame`.
- The three lists hold distinct objects (`GamePanel.Valid`). Every object is created by the panel and added once, so nothing can make two entries alias.
- On a restart, the code keeps the multiplier and its combo window (src/GamePanel.java:37-51). `Rules.Restarted` carries them over.
