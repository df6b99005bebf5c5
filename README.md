# astrogame: a verified model of the frame simulation

This project models the game loop of the browser game in `game.js`: a player ship in a
playfield dodges asteroids (obstacles that drift left) and collects stars. Stars raise a combo
multiplier and the score, and may grant one of three timed power-ups: shield, speed boost or
shrink. An unshielded hit ends the game and settles the high score. The model covers:

- one call of `update` without drawing and re-scheduling;
- `startGame`, `endGame`, `spawnObstacle` (with its every-tenth wave), `spawnStar`,
  `spawnParticles` and `checkCollision`;
- the space-bar, `touchstart` and `touchmove` handlers.

The model has two layers.

- **Specification functions on values** (modules `Seqs`, `Entities`, `PlayerControl`,
  `Collisions`, `Spawning`, `Frame`). `Frame.Step` is one frame as a function of the session
  state (`Frame.World`), the held keys and the frame's random draws. The lemmas state what the
  game promises about it.
- **The imperative session** (`Game.Session`). A class whose fields are the module-level globals
  of the source: `player`, `obstacles`, `stars`, `particles`, `score`, `highScore`, `gameSpeed`,
  `gameRunning`, `combo`. Its methods walk the collections the way the source does:
  - index loops for `forEach`, including the `splice` inside it;
  - a callback per visited element;
  - `push` in the `spawnParticles` loop and the wave loop.

  Each method is proved against the specification layer; for example, `Update` ensures
  `Snapshot() == Step(old(Snapshot()), canvas, keys, rng)`.

Randomness is a parameter. Each frame draws from one stream `rng: nat -> real`, read in the
order the source calls `Math.random()`:

1. the obstacle pass: 3 draws per particle of each burst;
2. the star pass: the burst of each collected star, then one power-up draw;
3. the obstacle spawn roll, then 3 draws if an obstacle spawns;
4. the star spawn roll, then 1 draw if a star spawns.

The source's quirks are kept, even where they differ from what the game's rules suggest:

- **The `splice` skips the next obstacle.** `obstacles.splice(i, 1)` inside `forEach` moves the
  next obstacle into index `i`, so this frame never examines it, even when it touches the player.
  `Collisions.ObstacleSweep` models this and `Collisions.SpliceSkipsNext` shows it. So "a shielded
  hit destroys the obstacle" holds only for the obstacles the pass visits.
- **`endGame` runs on every hit.** An unshielded pass calls `endGame` once per touching obstacle,
  not exactly once. This is harmless: `Frame.EndGameIdempotent` shows the repeated call changes
  nothing.
- **Stars still score after a crash.** After an unshielded hit the rest of `update` still runs,
  so the frame's stars add to the score after `endGame` has settled the high score with the
  earlier score (`Frame.CrashEndsRun`, `Frame.StepScoring`).
- **The clamp can be outgrown.** The position is clamped with the current size (game.js:151-152)
  before the shrink timer counts down and restores the normal size (game.js:161-164). In the
  frame a shrink ends, a player resting at the right or bottom edge therefore ends up to 10
  past it (`Frame.ShrinkEndOvershoots`); the next frame's clamp pulls it back.
- **`touchmove` is not clamped.** It places the player without clamping; the clamp applies at
  the next movement step. The position bound (`PlayerControl.MoveStaysInside`) holds only when
  the player fits in the playfield.

## Model

| member | source | states |
|---|---|---|
| Seqs.Filter | game.js:225-226 | the survivors of a filter are no more than the input, and each satisfies the predicate |
| Seqs.FilterEmbeds | game.js:225-226 | the survivors of a filter are a subsequence of the input, in their original relative order |
| Seqs.FilterCount | game.js:225-226 | a filter keeps every copy of an element it accepts and no copy of one it rejects |
| Seqs.FilterExactly | game.js:225-226 | an element survives a filter exactly when it was in the input and satisfies the predicate |
| Seqs.FilterSnoc | game.js:215-221 | filtering one more element at the end appends it exactly when it is accepted (the step of the particle loop) |
| Entities.CollisionSymmetric | game.js:293-298 | `checkCollision(a, b) == checkCollision(b, a)` |
| Entities.CollisionIsDistanceTest | game.js:293-298 | for non-negative sizes, the squared test agrees with comparing the Euclidean distance of the centres with the sum of half-sizes |
| PlayerControl.Clamp | game.js:151-152 | `Math.max(0, Math.min(hi, v))`: never negative, at most `hi` when `hi >= 0`, `v` itself inside the range, 0 below it, `hi` above it |
| PlayerControl.Glide | game.js:140-149 | thrust, friction and displacement change only the position and velocity of the player |
| PlayerControl.MoveStaysInside | game.js:140-152 | after the movement step x, y >= 0, and x <= width - size and y <= height - size whenever the player fits; an in-range glide is kept, one past an edge stops at it; only position and velocity change |
| PlayerControl.Decay | game.js:156 | the trail filter never lengthens the trail |
| PlayerControl.DecayIsAgedFilter | game.js:156 | the trail filter keeps exactly the entries whose life was positive before the step, in order, each one frame older |
| PlayerControl.DecayAppend | game.js:155-156 | an appended live entry survives one frame older, behind the decayed older entries |
| PlayerControl.TrailStep | game.js:155-156 | the newest trail entry is the current position with life 10 - 1, behind the decayed older trail |
| PlayerControl.TrailStepShaped | game.js:155-156 | the trail step keeps the trail's countdown shape: at most 10 entries, lives rising by one to 9 |
| PlayerControl.TickPowerUps | game.js:159-164 | each positive timer drops by exactly one, a zero timer stays zero; while shrink is still positive after its decrement the size is 10, and when it reaches 0 the size is 20; nothing else changes |
| PlayerControl.Countdown | game.js:159-164 | over n frames every timer loses exactly n and bottoms out at 0; after a running shrink timer the size tracks whether it is still positive |
| PlayerControl.GrantPowerUp | game.js:198-201 | one draw changes at most one timer, and sets it to its full duration (150, 100 or 200) by assignment |
| PlayerControl.PowerUpBands | game.js:198-201 | shield for r < 0.1, speed boost for 0.1 <= r < 0.15, shrink for 0.15 <= r < 0.2, nothing otherwise |
| PlayerControl.GrantMatchesOdds | game.js:198-201 | the threshold chain equals a weighted table (0.1, 0.05, 0.05) read by cumulative ranges |
| Collisions.ShieldNeverCrashes | game.js:177-181 | with a shield the obstacle pass never calls `endGame` and never lengthens the list |
| Collisions.SweepOnlyRemoves | game.js:177-190 | the obstacle pass only removes: no obstacle is kept more often than it was given |
| Collisions.ShieldKeepsMisses | game.js:177-181 | with a shield, every copy of an obstacle that does not touch the player survives the pass |
| Collisions.ShieldClearsSomeHit | game.js:177-181 | with a shield, a pass in which some obstacle touches the player removes at least one |
| Collisions.ShieldRemovesFirstHit | game.js:177-181 | with a shield, the first obstacle that touches the player is always visited and removed: fewer copies of it are kept than were given |
| Collisions.SpliceSkipsNext | game.js:177-181 | of two touching obstacles in a row under a shield, only the first is removed that frame |
| Collisions.CrashIffHit | game.js:177-189 | without a shield nothing is removed, and the pass calls `endGame` exactly when some obstacle touches the player |
| Collisions.ObstacleSparksFresh | game.js:121-134 | every particle the obstacle pass emits starts with life 30 |
| Collisions.ComboGainBounds | game.js:193-194 | each pickup adds between 5 and 50 points, exactly 50 once the combo has reached the cap |
| Collisions.StarSweepScores | game.js:191-206 | the star pass raises the combo by one per collected star and the score by exactly `5 * min(combo, 10)` per pickup, combo counted after the increment |
| Collisions.StarSweepPlayer | game.js:191-206 | across the star pass only the player's power-up timers may change |
| Collisions.StarSweepRemovesHits | game.js:191-206 | a star that touches the player is never kept; every copy of one that does not touch it is kept |
| Collisions.StarSparksFresh | game.js:196 | every particle the star pass emits starts with life 30 |
| Spawning.NewObstacleBounds | game.js:90-97 | for draws in [0, 1) a new obstacle is 30 to 60 wide, starts right of the playfield, fits vertically when it can, and is no slower than the game speed |
| Spawning.Wave | game.js:100-108 | the wave has 4 obstacles; the i-th (from 1) is at x = width + size + 80 i and y = height / 2 + 100 sin i, 0.8 times the size, at the bare game speed |
| Spawning.SpawnObstacle | game.js:89-110 | `spawnObstacle` keeps the list as a prefix, appends the new obstacle from its three draws, and, exactly when the new length is a multiple of 10, appends after it the `Wave` of that obstacle's size |
| Spawning.SpawnOnlyAppends | game.js:209-210 | the spawn rolls only append (at most 5 obstacles and 1 star), leaving both lists as prefixes |
| Frame.HighScoreAfter | game.js:300-306 | `endGame` never lowers the high score, and the result is the score or the old high score |
| Frame.EndGameIdempotent | game.js:300-306 | repeating `endGame` with the same score changes nothing |
| Frame.AgeParticlesBounds | game.js:215-221 | particles that enter with at most 30 frames of life leave with life left, strictly between 0 and 30 frames |
| Frame.PruneObstaclesExactly | game.js:225 | after pruning the obstacles are exactly those with `x + size > 0`, every copy of each, in their original relative order |
| Frame.PruneStarsExactly | game.js:226 | after pruning the stars are exactly those with `x + size > 0`, every copy of each, in their original relative order |
| Frame.StepInPhases | game.js:136-226 | a running frame is the motion phase, then the collision phase, then the closing phase, the last drawing after the collisions |
| Frame.StepWhenStopped | game.js:137 | `update` is a no-op when the game is not running |
| Frame.StepScoring | game.js:192-212 | the frame's score grows by exactly the combo-weighted value of its pickups, at least 5 per pickup; the combo becomes the old combo plus the pickups, except that it drops to 0 exactly when that sum is positive and no star is left on the list after the spawn rolls |
| Frame.StepScoreNeverDecreases | game.js:194 | the score never decreases from one frame to the next |
| Frame.StepHighScore | game.js:300-306 | the high score never drops, and a change makes it the session's score |
| Frame.CrashEndsRun | game.js:177-189 | without a shield, touching a (moved) obstacle stops the game, and the high score is settled with the score from before that frame's pickups |
| Frame.ShieldKeepsRunning | game.js:177-181 | with a shield the frame keeps running and leaves the high score alone |
| Frame.NoHitKeepsRunning | game.js:177-190 | a frame in which no moved obstacle touches the player keeps the game running |
| Frame.StepPrunes | game.js:225-226 | after a running frame nothing on either list is wholly past the left edge |
| Frame.InitialIsGood | game.js:15-35 | the page's initial state satisfies the session invariant |
| Frame.RestartIsGood | game.js:73-84 | `startGame` restores the invariant, runs, and keeps the high score |
| Frame.PlayerPhaseGood | game.js:140-164 | the player's part of the frame keeps the trail shaped and the size at 10 or 20 |
| Frame.FrameParticlesGood | game.js:215-221 | the frame's old particles and fresh bursts keep their lives in (0, 30] through the particle filter |
| Frame.StepKeepsGood | game.js:136-226 | every frame keeps the session invariant: shaped trail, size 10 or 20, score >= 0, particle lives in (0, 30] |
| Frame.RunKeepsGood | game.js:136-229 | over any number of frames the invariant holds, the score never decreases and the high score never drops |
| Frame.TrailStaysShort | game.js:155-156 | from a restart on, the trail never holds more than 10 entries |
| Frame.GameOverIsFinal | game.js:137 | once the game is over, no number of frames changes anything |
| Frame.ShrinkEndOvershoots | game.js:151-164 | the clamp uses the size from before the shrink countdown, so on a 600 by 800 playfield a shrunken player at x = 590 ends the frame in which shrink runs out with size 20, 10 past the right edge |
| Game.Session.constructor | game.js:15-35 | the initial session is `Frame.Initial`: not running, the stored high score |
| Game.Session.StartGame | game.js:73-87 | the session becomes a one-frame step of `Frame.Restart` of its old state |
| Game.Session.EndGame | game.js:300-306 | the high score becomes `HighScoreAfter(score, old high score)`; nothing else changes |
| Game.Session.SpawnParticles | game.js:121-134 | appends `count` particles built from three draws each, and returns the next unused draw |
| Game.Session.SpawnObstacle | game.js:89-110 | the obstacle list becomes `Spawning.SpawnObstacle` of the old one |
| Game.Session.SpawnStar | game.js:112-119 | appends one star at the right edge, its height from one draw |
| Game.Session.MovePlayer | game.js:140-152 | the player becomes `Move` of the old player (see MoveStaysInside) |
| Game.Session.UpdateTrail | game.js:155-156 | the player's trail becomes `TrailStep` of the old trail at the new position |
| Game.Session.UpdatePowerUps | game.js:159-164 | the player becomes `TickPowerUps` of the old player |
| Game.Session.MoveObjects | game.js:167-174 | every obstacle moves by its speed and every star by the game speed, in place |
| Game.Session.VisitObstacle | game.js:177-190 | one `forEach` callback keeps the pass so far consistent with `ObstacleSweep` |
| Game.Session.ShieldedHit | game.js:178-181 | a shielded hit splices the obstacle at index i out of the list, appends 15 grey particles from it and uses 45 draws |
| Game.Session.Crash | game.js:182-188 | an unshielded hit stops the game, appends 30 red particles from the player using 90 draws, and runs `endGame` |
| Game.Session.CollideObstacles | game.js:177-190 | the index loop leaves exactly `ObstacleSweep` of the old list: kept obstacles, emitted particles, running flag, high score and next draw |
| Game.Session.VisitStar | game.js:191-206 | one `filter` callback keeps the pass so far consistent with `StarSweep` and returns whether the star stays |
| Game.Session.CollectStar | game.js:193-201 | a pickup raises the combo by one, adds `5 * min(combo, 10)`, emits 15 yellow particles and applies `GrantPowerUp` to the next draw |
| Game.Session.CollectStars | game.js:191-206 | the filter leaves exactly `StarSweep` of the old stars: kept stars, player, combo, score, particles and next draw |
| Game.Session.FadeParticles | game.js:215-221 | the particle list becomes `AgeParticles` of the old one |
| Game.Session.Update | game.js:136-226 | the session becomes `Frame.Step` of its old state, so every Frame lemma applies to it |
| Game.Session.AdvancePhase | game.js:140-174 | the motion phase: the session becomes `Frame.Advance` of its old state |
| Game.Session.CollisionPhase | game.js:177-206 | the collision phase: the session becomes `Frame.AfterCollisions` of its old state |
| Game.Session.FinishPhase | game.js:209-226 | the closing phase: the session becomes `Frame.Finish` of its old state |
| Game.Session.Spawn | game.js:209-210 | the two spawn rolls leave the lists `SpawnPhase` gives |
| Game.Session.Jump | game.js:51-53 | the space bar lowers the vertical velocity by 12 while running and changes nothing otherwise |
| Game.Session.TouchStart | game.js:57 | a touch start lowers the vertical velocity by 12 whether or not the game is running |
| Game.Session.TouchMove | game.js:58-61 | a touch move places the player at the touch point, unclamped |

## Left out

- Drawing (`draw`, game.js:232-291), DOM lookups and text updates, the start and game-over
  screens, and the commented-out audio: these are output only.
- The `keydown`/`keyup` bookkeeping of the `keys` object: the arrow keys held during a frame
  are a `Keys` record given to `Update`. Other keys have no effect on the simulation.
- `touchmove`'s conversion from client to canvas coordinates: `TouchMove` takes the
  canvas-relative point.
- Canvas sizing from the window (game.js:11-12): the canvas is a parameter with whole-pixel sides.
- `localStorage` (game.js:32, 304): the stored high score enters the constructor as a number.
  Its string coercion and the write-back are persistence I/O.
- `requestAnimationFrame` (game.js:229): scheduling is the caller's. `Frame.Run` models
  consecutive frames.
- `Math.random`: its values are the parameter `rng`. Lemmas about ranges require draws in
  [0, 1) where they need them.
- Floating point: positions, speeds and friction are exact reals, with no IEEE rounding.
  `Math.sin(i) * 100` for the wave (game.js:103) is given as four constants rounded to 8 decimals.
- Background stars (game.js:36, 67-71, 222-223) and particle `alpha` (derived from `life` and
  used only by `draw`): these are cosmetic.
- The player's `speed` field is kept but nothing reads it, as in the source.
- Concurrency: event handlers run between frames, as separate method calls on the session.
- Aliasing of the entity records: obstacles, stars and particles are values in sequences, and
  their in-place updates in `forEach` become reassigning the element. No other reference to
  an element exists in the source, so no observable behaviour is lost.
