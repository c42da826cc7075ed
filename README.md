# Swan game: input state machine and collision geometry

A model of the core of a browser "swan" endless-runner (`game.js`). Three parts:

- **Collision geometry** (`geometry.dfy`, module `Geometry`). It covers the
  axis-aligned `Box`, the swan's pose-dependent hitbox (`getSwanHitbox`), the
  obstacle's 80%-scale, 10%-inset hitbox (`getObstacleHitbox`) and the strict
  overlap test (`isColliding`). These are pure functions over exact reals, so
  the factors 0.1, 0.8 and 0.64 hold exactly.
- **Plant size table** (`plants.dfy`, module `Plants`). It holds the six plant
  images and their drawn sizes.
- **Input and reset state machine** (`game.dfy`, module `Game`). The swan
  record and the run flags change in only three places: `resetGame`, the
  `keydown` handler and the `keyup` handler. Each is a pure function on a
  snapshot (`AfterReset`, `AfterKeyDown`, `AfterKeyUp`). The classes `Swan`
  and `GameState` hold the same fields and update them in place. Their methods
  `Reset`, `KeyDown` and `KeyUp` are proved to produce exactly
  `State() == After…(old(State()))`.
  - Key codes are the enum `Key`. Every code the handlers do not test is
    `Other`, and `KeyOf` maps a browser code string to it.
  - `Replay` folds a sequence of key events over a state. The event-sequence
    lemmas are stated with it.

The game loop in `game.js` is empty (lines 175-177). The model therefore has no
gravity, no landing, no spawning, no speed ramp and no score accumulation.
It also proves the consequences of this:

- the swan stays at `y == 120`;
- `jumping` and `jumpCount` are cleared only by a reset;
- `gameOver` is never set;
- a started run never stops.

## Model

| member | source | states |
|---|---|---|
| Geometry.ObstacleHitbox | game.js:131-138 | the box keeps the obstacle's centre and runs from x + 0.1w to x + 0.9w and from y + 0.1h to y + 0.9h; its area is 0.64 of the obstacle's; for non-negative width and height it lies within the obstacle |
| Geometry.SwanHitbox | game.js:122-130 | the box is 28 narrower than the sprite and centred on x + 18 in both poses; its top is 30 below the sprite top when ducking and 10 below when standing; its bottom is 6 (ducking) or 10 (standing) above the sprite bottom |
| Geometry.SwanPosesCompared | game.js:122-130 | ducking keeps the x and width of the standing box, moves its top 20 lower, makes it 16 shorter and puts its bottom 4 lower |
| Geometry.SwanHitboxNonEmpty | game.js:122-130 | a sprite wider than 28 and taller than 36 gives a hitbox of positive size in both poses |
| Geometry.CollidingSymmetric | game.js:139-146 | the overlap test gives the same answer with its arguments swapped |
| Geometry.IsColliding | game.js:139-146 | two boxes collide if and only if neither lies wholly left of, right of, above or below the other (touching counts as apart) |
| Geometry.TouchingDoesNotCollide | game.js:139-146 | boxes that only share a vertical or horizontal edge do not collide, in either order |
| Geometry.SelfCollision | game.js:139-146 | a box collides with itself if and only if its width and height are positive |
| Geometry.CollidingIffCommonPoint | game.js:139-146 | for boxes of positive size, the test holds if and only if some point lies strictly inside both boxes |
| Geometry.DuckingClearsBoxAbove | game.js:122-146 | a ducking swan's hitbox never collides with a box whose bottom is at or above the sprite's y + 30 |
| Geometry.ObstacleHitboxCollisionImpliesBoundsCollision | game.js:131-146 | a box that collides with an obstacle's hitbox also collides with the obstacle's bounds |
| Plants.PlantSize | game.js:34-49 | the i-th plant is 56 high with widths 27.2, 54.4, 81.6 for the three small images, and 80 high with widths 40, 80, 120 for the three large ones; all sizes are positive |
| Plants.PlantTableComplete | game.js:34-49 | there are six plant images, all distinct, and the size table has exactly those keys |
| Game.KeyOf | game.js:179-203 | each of the codes "Space", "ArrowUp", "ArrowDown", "KeyH", "KeyM" maps to its own key and no other code does; a code is Other exactly when it is none of the five |
| Game.AfterReset | game.js:147-153 | the result has y = 120, vy = 0, no jump, no duck, jumpCount 0, no obstacles, score 0, speed 5, frameCount 0, obstacleFrequency 90, started, not over, not inverted; it keeps the swan's x, width, height, frame and both toggles; it satisfies the reachable-state invariant |
| Game.AfterKeyDown | game.js:193-203 | a key press changes only the swan; it preserves the invariant that the swan never jumps and ducks at once and that 0 <= jumpCount <= 2, and the stronger reachable-state invariant |
| Game.AfterKeyUp | game.js:179-191 | a key release preserves both invariants and never turns a started game back to not started |
| Game.Initial | game.js:23-75 | the program-start values satisfy the reachable-state invariant; the game has not started, the hitbox display is off and the music is on |
| Game.ResetIdempotent | game.js:147-153 | resetting twice is the same as resetting once |
| Game.JumpGuard | game.js:194-198 | a Space or ArrowUp press sets vy = -9, jumping and jumpCount + 1 if and only if jumpCount < 2 and the swan is not ducking, whether or not the game has started; otherwise the state is unchanged |
| Game.DuckGuard | game.js:199-202 | after an ArrowDown press the swan ducks if and only if it was ducking or it was not jumping in a started game; the press either changes nothing or sets only ducking |
| Game.OtherKeyDownIsNoOp | game.js:193-203 | pressing KeyH, KeyM or any unlisted key changes nothing |
| Game.OtherKeyUpIsNoOp | game.js:179-191 | releasing a key none of the branches tests changes nothing |
| Game.StartGuard | game.js:180-181 | a Space or ArrowUp release resets the game if it has not started, and otherwise changes nothing |
| Game.DuckRelease | game.js:182-183 | an ArrowDown release clears ducking unconditionally and changes nothing else |
| Game.TogglesAreInvolutions | game.js:184-187 | a KeyH release flips only showHitbox and a KeyM release flips only bgmOn; releasing either twice restores the state |
| Game.ReplayAppend | game.js:179-203 | handling two event sequences in turn is handling their concatenation |
| Game.ReplayKeepsReachable | game.js:147-203 | every key-event sequence preserves the reachable-state invariant |
| Game.NeverOverNeverAirborne | game.js:175-203 | from program start, no key-event sequence sets gameOver, moves the swan off y = 120 or breaks the swan invariant |
| Game.StartedStaysStarted | game.js:179-203 | once the game has started, no key-event sequence makes it not started |
| Game.JumpClearedOnlyByReset | game.js:147-203 | a key press or release either resets the game or leaves jumpCount no smaller and keeps a jump under way |
| Game.JumpsKeptOnceStarted | game.js:179-203 | once the game has started, no key-event sequence lowers jumpCount or clears jumping |
| Game.ContinuationKeepsRunAndJumps | game.js:179-203 | from program start, once a prefix of the events has started the game, every continuation keeps it started and keeps jumpCount no smaller |
| Game.StepKeepsSwanShape | game.js:147-203 | a single key press or release leaves the swan's x, width, height and frame unchanged |
| Game.ReplayKeepsSwanShape | game.js:147-203 | no key-event sequence changes the swan's x, width, height or frame |
| Game.StartPress | game.js:179-203 | pressing and releasing Space at program start gives exactly the reset state: the jump from the press is cleared by the reset on release |
| Game.DoubleJump | game.js:194-198 | in a fresh run two jump presses give jumpCount 2 with jumping set, and a third press changes nothing |
| Game.JumpAndDuckExclusive | game.js:194-202 | a jumping swan ignores ArrowDown presses and a ducking swan ignores jump presses |
| Game.Swan.constructor | game.js:55-65 | the swan starts at x 50, y 120, at rest, 64 by 64, not jumping or ducking, frame 0, no jumps used |
| Game.GameState.constructor | game.js:23-75 | the game starts with the initial swan, not started, not over, hitbox display off, music on, score 0, speed 5, no obstacles, frameCount 0, obstacleFrequency 90, not inverted |
| Game.GameState.Reset | game.js:147-153 | the new state is AfterReset of the old one |
| Game.GameState.KeyDown | game.js:193-203 | only the swan object is modified; the new state is AfterKeyDown of the old one, and the swan invariant is kept |
| Game.GameState.KeyUp | game.js:179-191 | the new state is AfterKeyUp of the old one, and the swan invariant is kept |

## Left out

- Score submission and the ranking list (`saveScore`, `showRanking`, `onGameOver`, game.js:78-112): remote document-store I/O and a `prompt()` dialog.
- Canvas drawing, text overlays and image loading (`drawStartText`, `drawCreditTag`, `drawBGMStatus`, `loadImage`, background and ground images): presentation only.
- The background and ground scroll offsets `bgX` and `groundX` (game.js:72-73): none of the modelled handlers reads or writes them.
- Audio: the sound objects and every `play`, `pause` and `currentTime` call (in `resetGame`, the KeyM branch, the jump and the duck): foreign side effects. Only the `bgmOn` flag is kept.
- The page filter reset in `resetGame` (game.js:151), the `window.onload` wiring and the `console.log` call: DOM and console side effects.
- Frame-loop behaviour (physics, landing, obstacle spawning and pruning, speed ramp, score accumulation, game over on collision): `gameLoop` has an empty body in `game.js`, so there is no code to model.
- Floating point: positions and sizes are exact reals. JavaScript doubles round some table entries (34 * 0.8 is not exactly 27.2 in binary floating point) and some hitbox products; that rounding is not modelled.
- Key codes other than the five the handlers test are one value, `Other`. The handlers treat them all alike.
