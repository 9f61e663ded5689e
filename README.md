# Flappy-bird simulation core in Dafny

This project models the game simulation of a small side-scrolling game, using its
TypeScript source. A bird falls under gravity and flaps upward when the player
presses space or taps. Pairs of tubes (an upper and a lower one with a fixed
opening between them) scroll in from the right. The bird is tested against each
tube. Touching a tube or falling below the screen resets the game. The score is
the time accumulated since the last reset.

Files:

- `consts.dfy` (module `Consts`): the constants of `src/consts.ts`, as exact reals. `BIRD_FLAP_MAX_SPEED` is `9.8 * 1.5`.
- `utils.dfy` (module `Utils`): `collisionCheck` of `src/utils.ts` as the predicate `CollisionCheck`, with lemmas about it.
- `main.dfy` (module `Main`): the state of `src/main.ts` as the class `Main.Game`. Its fields are `hasBird`, `birdX`, `birdY`, `velocity`, `time`, `upperTubes` and `lowerTubes`. Its methods `Setup`, `AddTube`, `Reset`, `Tick` (gameLoop) and `Flap` change them as the script does. The two `forEach` loops of gameLoop are the method `Sweep`, with the callback as `Visit`. Each method's postcondition equates the new state with a function of the old one on the value type `World`: `SetupWorld`, `AddTubeWorld`, `ResetWorld`, `TickWorld`, `FlapVelocity`.
- `main_properties.dfy` (module `MainProperties`): what those functions promise, proved as lemmas.

Inputs that come from outside the script become parameters:

- `app.ticker.FPS` is `fps`, which must be positive.
- The screen size is a `Screen` value, passed to every call that reads it.
- Each `Math.random()` is taken in order from a sequence `rs`. `Tick` asks for `|upperTubes| + |lowerTubes| + 2` values. That is enough for every `addTube` one tick can make: one per upper tube hit, at most one per lower tube, and one recycle.
- The range `0 <= r < 1` is assumed only by the lemma about the gap's position (`GapTopInRange`).

Behaviour of the code that the model keeps as written:

- A bird below the bottom boundary resets and ends the tick (`BottomFailureEndsTick`).
- A tube hit calls `reset`, but its `return` only leaves the `forEach` callback. So:
  - the upper loop goes on over the old array, testing the reset bird and moving tubes no one sees any more;
  - the lower loop then walks the new lower array;
  - the recycle check and `time += delta` still run.
- After a collision tick, time therefore equals `delta`, not 0 (`CollisionTick`).
- After a hit in the upper loop, the new lower tube has been moved but the new upper one has not. The new pair ends the tick one step apart (`UpperHitMisalignsNewPair`). Normal ticks keep that offset until the pair is recycled (`NormalTickKeepsFrontOffset`). The upper tube is hit-tested at its own x, so its hit window sits one step to the right of the lower tube's (`OffsetMovesUpperHitWindow`). For that pair the bird must stay within the gap for one extra step of travel. Recycling looks only at the lower tube, so when the pair is dropped up to one step of the upper tube can still be on screen.

Behaviour of the code worth knowing:

- A positive velocity moves the bird up (`bird.y -= velocity`).
- Tube movement is exact, with no rounding to whole pixels.
- Each tube is hit-tested just before it is moved, not after all tubes have moved.

The gap's lower edge lies in `[80, height - 260]` when the screen is at least 340 high. It lies strictly below `height - 260` only when the screen is more than 340 high. At exactly 340 the value is always 80, which equals that bound.

## Model

| member | source | states |
|---|---|---|
| `Utils.CollisionCheck` | src/utils.ts:16 | the point (x1, y1) lies strictly inside the width-by-height rectangle with top-left corner (x2, y2) |
| `Utils.EdgesDoNotCount` | src/utils.ts:16 | a point on any edge of the rectangle is not a hit (the inequalities are strict) |
| `Utils.DegenerateRectangleNeverHits` | src/utils.ts:16 | a rectangle of width or height at most 0 contains no point |
| `Utils.HitBounds` | src/utils.ts:16 | a hit implies a positive width and height and a point strictly between the edges |
| `Utils.TranslationInvariant` | src/utils.ts:16 | shifting point and rectangle by the same dx, or by the same dy, keeps the verdict |
| `Utils.SingleCornerTest` | src/utils.ts:16 | only the bird's anchor point is tested: for every tube, an anchor less than BIRD_SIZE / 2 left of its left edge misses although the centred BIRD_SIZE-wide sprite overlaps the tube |
| `MainProperties.HitIsCollisionCheck` | src/main.ts:207-208 | the inline test of gameLoop (both loops) equals collisionCheck(bird.x, tube.x, tube.width, bird.y, tube.y, tube.height) |
| `Main.Hit` | src/main.ts:207-208 | the bird's anchor lies strictly inside the tube's rectangle (the inline test of both loops) |
| `Main.Fall` | src/main.ts:186-198 | velocity drops by exactly (GRAVITY / FPS) * delta; the bird then moves by minus the new velocity, or is clamped to BOUNDARY_TOP; afterwards y >= BOUNDARY_TOP; nothing else changes |
| `Main.SweepFrom` | src/main.ts:206-229 | one forEach loop: it uses no random value exactly when no tube of the walked array is hit; then every tube from the index on moves left by one step; otherwise the result is the reset state of the last hit; it uses at most one random value per remaining tube |
| `Main.Game.constructor` | src/main.ts:56-62 | at load there is no bird, no tube, and velocity and time are zero |
| `Main.Game.Setup` | src/main.ts:86-117 | the new state is SetupWorld of the old: bird created at (width/3, height/2), one pair added |
| `Main.Game.AddTube` | src/main.ts:127-154 | the new state is AddTubeWorld of the old: one new tube pushed on each array, nothing else changes |
| `Main.Game.Reset` | src/main.ts:156-179 | the new state is ResetWorld of the old |
| `Main.Game.Visit` | src/main.ts:207-215 | one forEach callback: on a hit the new state is the reset of the old one, one random value is used and the loop is detached from the state; otherwise tube i moves left by step and only the state's array changes, and only while the loop is attached; either way the rest of the sweep gives what it gave from the old state |
| `Main.Game.Sweep` | src/main.ts:206-229 | the loop's new state and random-value count are SweepFrom of the old state |
| `Main.Game.Recycle` | src/main.ts:232-238 | the new state is RecycleWorld of the old |
| `Main.Game.Tick` | src/main.ts:182-247 | the new state is TickWorld of the old |
| `Main.Game.Flap` | src/main.ts:250-256 | the new velocity is FlapVelocity of the old; no other field changes |
| `MainProperties.FlapCap` | src/main.ts:250-256 | after a flap the velocity is at most BIRD_FLAP_MAX_SPEED; below the cap it is exactly velocity + BIRD_FLAP_SPEED, above it the cap |
| `MainProperties.FlapAtCap` | src/main.ts:250-256 | flapping at the cap leaves the velocity unchanged |
| `MainProperties.FlapNeverSlows` | src/main.ts:250-256 | from a velocity at most the cap, a flap never lowers it |
| `MainProperties.FlapsAccumulateToCap` | src/main.ts:250-256 | n >= 1 flaps in a row give min(v + n * BIRD_FLAP_SPEED, BIRD_FLAP_MAX_SPEED) |
| `MainProperties.FlapsNeverExceedCap` | src/main.ts:250-256 | no number of consecutive flaps exceeds the cap |
| `MainProperties.NewPairGeometry` | src/main.ts:127-150 | both new tubes are at x = width + TUBE_WIDTH, TUBE_WIDTH wide and screen-high; upper.y + height == lower.y - TUBE_OPENING |
| `MainProperties.GapTopInRange` | src/main.ts:130-140 | for 0 <= r < 1 and height >= 340, 80 <= lower.y <= height - 260, strictly below when height > 340 |
| `MainProperties.AddTubeAppends` | src/main.ts:141-150 | addTube keeps both arrays as prefixes, adds exactly NewUpper and NewLower at the back, and changes nothing else |
| `MainProperties.ResetState` | src/main.ts:156-174 | after reset: bird at (width/3, height/2), velocity 0, time 0, each array exactly one new tube |
| `MainProperties.ResetTwice` | src/main.ts:156-174 | two consecutive resets give the state of the second alone |
| `MainProperties.ResetDiffersOnlyInGap` | src/main.ts:156-174 | two resets with different random values differ only in the tubes' y |
| `MainProperties.SetupState` | src/main.ts:86-117 | setup creates the bird at the reset position, keeps velocity and time, appends one pair |
| `MainProperties.NewPairIsPaired` | src/main.ts:134-149 | a new upper and lower tube form a pair: same size, TUBE_OPENING between them |
| `MainProperties.AddTubeKeepsWellFormed` | src/main.ts:141-150 | pushing in pairs keeps equal lengths and index-wise pairing |
| `MainProperties.ResetIsWellFormed` | src/main.ts:172-174 | reset leaves equal lengths and paired tubes whatever came before |
| `MainProperties.SetupKeepsWellFormed` | src/main.ts:117 | setup keeps equal lengths and pairing |
| `MainProperties.MovingKeepsWellFormed` | src/main.ts:215-228 | moving tubes left changes no y, width or height and so keeps the pairing |
| `MainProperties.RecycleKeepsWellFormed` | src/main.ts:232-238 | shifting both arrays and adding a pair keeps equal lengths and pairing |
| `MainProperties.SweepKeepsWellFormed` | src/main.ts:206-229 | a forEach loop of gameLoop keeps equal lengths and pairing |
| `MainProperties.TickKeepsWellFormed` | src/main.ts:182-241 | every tick keeps upperTubes and lowerTubes of equal length, index-wise paired |
| `MainProperties.TickBeforeSetup` | src/main.ts:183 | before the bird exists a tick changes nothing |
| `MainProperties.BottomFailureEndsTick` | src/main.ts:200-202 | a bird below height - BOUNDARY_BOTTOM gives exactly the reset state: no tube moved, time 0 |
| `MainProperties.NormalTick` | src/main.ts:182-241 | with no failure and no hit, the result is the physics step with every tube moved by Step(delta, screen), then recycled, with time + delta |
| `MainProperties.NormalTickMovesTubes` | src/main.ts:215-241 | in such a tick time grows by exactly delta; each tube x drops by delta * (GAME_SPEED * width / 360 + 0.5); on a recycle the rest move up one place and a new pair is last |
| `MainProperties.NormalTickKeepsAligned` | src/main.ts:215-228 | in such a tick upper[i].x == lower[i].x is preserved |
| `MainProperties.CollisionTick` | src/main.ts:205-241 | a tick with a hit ends with the reset bird and velocity and one pair per array, but time == delta |
| `MainProperties.UpperHitMisalignsNewPair` | src/main.ts:205-229 | after a hit in the upper loop, the new upper tube is at width + TUBE_WIDTH and the new lower tube one step left of it |
| `MainProperties.NormalTickKeepsFrontOffset` | src/main.ts:215-228 | a normal tick without a recycle keeps upper[0].x - lower[0].x unchanged |
| `MainProperties.OffsetMovesUpperHitWindow` | src/main.ts:207-208 | an upper tube offset by d to the right is hit by a bird it would miss at the aligned position |
| `MainProperties.RecycleShape` | src/main.ts:232-238 | a pair is recycled exactly when lower[0].x < -lower[0].width: the front pair goes, order is kept, a new pair is last, lengths unchanged; nothing else changes |
| `MainProperties.TickKeepsVelocityCapped` | src/main.ts:186-202 | for delta >= 0 a tick never raises the velocity above BIRD_FLAP_MAX_SPEED |

## Left out

- Rendering is presentation and is not modelled. This includes the PixiJS application, sprites, textures, text, `MotionBlurFilter`, `addChild`/`removeChild`, and background and ground `tilePosition` scrolling and resetting (src/main.ts:176-178, src/main.ts:244-246).
- `bird.rotation` and `bird.animationSpeed` (src/main.ts:190-191) use transcendental float maths that only feeds visuals.
- The score text `Math.floor(time / 60)` (src/main.ts:242) is display only.
- The font loader and the `window.WebFontConfig` bootstrap (src/main.ts:30-37) are not modelled; `src/fonts.ts` is not part of this model. `Setup` stands for the call of `setup` they make.
- The DOM listeners (src/main.ts:120-121, src/main.ts:258-266) are input plumbing. Only a keydown of `' '` or `'Spacebar'` and any pointerdown call `flap`, which is `Main.Game.Flap`.
- `Math.random()` and `app.ticker.FPS` are foreign calls and become parameters.
- IEEE float rounding is not modelled: all arithmetic is over `real`.
- `TUBE_DISTANCE` is unused by the code. `BIRD_SIZE` only sizes the sprite, so it takes no part in the hit test (`SingleCornerTest` shows what that means).
- Tubes are values in sequences, not shared sprite objects. A tube sprite belongs to exactly one array, so the model loses no aliasing. The old array that a loop keeps walking after a reset is a local copy, and moving its tubes is invisible, just as in the script.
- The bird's coordinates before `setup` are undefined in the script. The model sets them to 0, and nothing reads them before `Setup` sets them.
- Screen resizes happen between calls. Each call receives the current screen, and tubes keep the height they were created with.
