# Lahma runner: a verified model of the game step

Lahma is a small browser runner game. The player is a cube that jumps over
obstacles that scroll toward the camera. This project models the part of
`src/index.js` that has behaviour worth stating: the per-frame `update` and
the functions it calls. The step runs four parts in a fixed order:

1. `checkCollisions` looks for the first obstacle whose bounding box meets the player's box.
2. Jump kinematics advance a phase angle and set the player's height to `max(sin(angle) + 1.38, 0.4)`.
3. The spawn timer appends one obstacle at x = 40 once the clock passes `nextObstacleTime`.
4. The move loop shifts each obstacle it visits by `10 * delta` and removes it when it passes x = -20.

Modules:

- `Collision` (collision.dfy): boxes and the six-plane intersection test.
- `Kinematics` (kinematics.dfy): jump constants, the clamped height, and the player's reachable states.
- `Obstacles` (obstacles.dfy): obstacles, spawning, the spawn time, and `MovePass`, the result of one
  pass of the move loop. It comes with an independent characterisation, `Explains`/`Survivors`:
  each obstacle gets a fate (moved, removed, skipped) fixed by local rules.
- `GameLoop` (game.dfy): the class `Game` holds the module-level state: `playerAngle` (the source's
  `playervAngle`), the player's y, `nextObstacleTime` and the obstacle group. Its methods mirror `jump`, `spawnObstacle`,
  `checkCollisions` and `update`. `FrameScenarios` is a client that runs three frames from a fresh game.

Modelling decisions:

- Doubles are `real`. `Math.sin` is the field `Game.sine`, a function the model knows nothing about.
  `Math.random` draws are parameters constrained to [0, 1). The clock's `delta` and `elapsedTime`
  are parameters of `Update`.
- Bounding boxes come from the rendering library. `Update` therefore receives `playerBoxOf`
  (the player's box for a given height) and `boxOf` (an obstacle's box).
  Intersection uses closed intervals: boxes that touch intersect. This follows the six-plane test of
  the library's `Box3.intersectsBox`.
- The move loop iterates with `for...of` over `obstacles.children` and calls `obstacles.remove(o)`
  inside the loop. The model assumes `remove` splices the children array in place. It also assumes
  the array iterator re-reads the length at every step. So the model walks an index over a sequence
  that shrinks during the loop. The obstacle right after a removed one slides into the freed index
  and is not visited in that frame. It is neither moved nor culled.
- Obstacles are values (x and uniform scale). The y and z stay at the template's defaults.
  Each obstacle is a distinct object that only the loop mutates, so value semantics lose nothing.

Behaviour of the code worth noting:

- The player mesh is created at height 0, the library default (src/index.js:107). `update` only
  calls `jump` when the input is pressed or y > 0.4, so the player stays at 0 until the first
  press. From the first jump on, the height is at least 0.4 (`Kinematics.PlayerAt`).
- The timer test is strict (`elapsed > nextObstacleTime`, src/index.js:206). With the timer at its
  initial 0, a frame whose elapsed time is 0 does not spawn (`FrameScenarios`).
- An obstacle right after a removed one is not visited in that pass. It can stay even when moving
  it would have put it past -20 (`Obstacles.SkippedObstacleStays`, `Obstacles.SkippedObstacleExample`). Still, every obstacle left at
  the end of a frame has x >= -20, because a skipped obstacle keeps the x it already had
  (`Obstacles.MovePassKeepsInPlay`, `Game.Valid`).
- `OBSTACLE_N` (src/index.js:34) is declared but never used.

## Model

| member | source | states |
|---|---|---|
| `Collision.IntersectsIffSharedPoint` | src/index.js:188 | the closed six-plane box test holds exactly when the two well-formed boxes share a point |
| `Kinematics.Height` | src/index.js:178 | the jump height is the larger of `sine(angle) + 1.38` and the floor 0.4; it is never below 0.4, and it equals 0.4 exactly when the lifted sine is at most 0.4 |
| `Kinematics.PlayerNeverBelowFloorAfterJump` | src/index.js:176-179 | in any reachable player state the height is 0 before the first jump and at least 0.4 after |
| `Kinematics.HeightBounds` | src/index.js:178 | for sine values in [-1, 1] the height lies in [0.4, 2.38] |
| `Obstacles.NewObstacle` | src/index.js:168-174 | a spawned obstacle starts at x = 40 with a scale in [1, 2) |
| `Obstacles.NextSpawnTime` | src/index.js:208 | the next spawn time lies in [elapsed, elapsed + 4) |
| `Obstacles.MovePass` | src/index.js:212-216 | one pass of the move loop never adds obstacles |
| `Obstacles.ExplanationExists` | src/index.js:212-216 | every collection has a fate assignment that obeys the loop's rules |
| `Obstacles.ExplainsUnique` | src/index.js:212-216 | the loop's rules fix every obstacle's fate: two fate assignments that obey them are equal |
| `Obstacles.MovePassCharacterized` | src/index.js:212-216 | for any fate assignment that obeys the rules, the pass leaves exactly the survivors in order: each visited obstacle moves by exactly dx; it is removed in that step iff it is then past -20; the obstacle after a removed one is untouched; nothing else is removed |
| `Obstacles.MovePassAppend` | src/index.js:206-217 | an obstacle spawned this frame ends the frame at 40 - dx if the loop reaches it and it stays on screen; it is removed if it goes off screen; it stays at 40 if the obstacle before it was removed; the older obstacles are passed over as without it |
| `Obstacles.MovePassWithoutRemoval` | src/index.js:212-216 | when no obstacle goes off screen, every obstacle is moved by exactly dx and all are kept in order |
| `Obstacles.MovePassKeepsInPlay` | src/index.js:212-216 | if every obstacle has x >= -20 and scale in [1, 2) before a pass, the same holds after it |
| `Obstacles.SkippedObstacleStays` | src/index.js:212-216 | for every collection, step and index whose predecessor is removed, that obstacle is left in place with its x unchanged, between the survivors of the obstacles before it and those after it |
| `Obstacles.SkippedObstacleExample` | src/index.js:212-216 | example: in `[(-19.9, 1), (-19.95, 1.5)]` with step 0.2 the first obstacle is removed and the second stays at -19.95, although moving it would have put it off screen |
| `GameLoop.Game.constructor` | src/index.js:28-32 | a new game has angle 0, player height 0, timer 0 and no obstacles, and satisfies the frame invariant |
| `GameLoop.Game.Jump` | src/index.js:176-179 | the angle grows by exactly `speed`; the height becomes the clamped sine of the new angle (at least 0.4); nothing else changes |
| `GameLoop.Game.SpawnObstacle` | src/index.js:168-174 | exactly one obstacle is appended, at x = 40 with scale 1 + r in [1, 2); the rest are unchanged |
| `GameLoop.Game.CheckCollisions` | src/index.js:181-193 | reports a hit iff some obstacle's box meets the player's box; the scan stops at the first hit, and every obstacle before it misses; nothing is modified |
| `GameLoop.Game.AdvanceObstacles` | src/index.js:212-216 | the in-place index loop leaves exactly `MovePass` of the old collection with step `10 * delta` |
| `GameLoop.Game.Update` | src/index.js:195-220 | keeps the frame invariant. The hit is judged on the frame's starting state. Pressed: the angle grows by 0.05. Released above 0.4: it grows by 0.1. Released at or below 0.4: the angle and height are unchanged. A spawn happens iff elapsed > timer. A spawn appends one obstacle and moves the timer strictly forward into [elapsed, elapsed + 4). Otherwise the timer is unchanged. The obstacles are then passed over with step `10 * delta` |

## Left out

- Scene construction (camera, lights, floor, sky, clouds, renderer, orbit controls) and window
  resizing: rendering setup with no game logic.
- DOM input listeners and the start dialog: `jumpPressed` is a parameter of `Update`. The one-shot
  start is the `Game` constructor.
- `animate`, `requestAnimationFrame` and the clock: `delta` and `elapsed` are parameters.
- How boxes are computed from mesh geometry and world transforms: boxes are inputs.
- `console.log("HIT")`: it is output. The model only returns `hit`, and a hit changes no state.
- The sky rotation `sky.rotation.y += 0.002`: cosmetic.
- IEEE-754 rounding and the actual values of `Math.sin` and `Math.random`: reals, an unknown
  sine function, and random draws constrained to [0, 1).
- webpack.config.js: build configuration.
