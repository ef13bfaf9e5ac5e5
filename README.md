# Endless-jump gameplay core, modelled in Dafny

This project models the gameplay simulation of `src/main.c` in MoonFind, an endless vertical
jumping game written in C on raylib. The player climbs platforms that are kept in a fixed pool of 22 slots.

- **Platform pool** (`Pool.PlatformPool`, specified in `PoolSpec`): a class over an `array<Platform>`.
  - `InitPlatforms` lays out slot 0 and seven platforms stepping upward.
  - `GeneratePlatform` is a first-fit allocator: it fills the lowest inactive slot with a platform placed relative to a reference point.
  - `UpdatePlatforms` despawns slots that scrolled below the camera, finds the highest active platform (an `Option` instead of the `-INFINITY` sentinel) and, when needed, requests five more.
- **Player** (`Players.Player`, driven by `Game.Game.UpdatePlayer`): each frame runs the key input, a jump from the ground (which requests a platform above the current one), gravity with a fall-speed cap, integration, and the landing scan. The scan picks the first slot whose rectangle catches the feet band. The frame ends with the IDLE/WALKING/JUMPING state and its animation, the running-maximum score and the clamped speed multiplier.
- **Animation** (`Animations.Animation.UpdateAnimation`): a frame counter that is either rewound, or accumulates time and advances one frame modulo the frame count. C's truncating `%` is written out (`CRem`).
- **Camera and game over** (`Game.Game.UpdateGameCamera`, `Game.Game.CheckGameOver`): the camera target never goes below the start height; falling more than 50 px past the bottom of the view ends the run and keeps the best score.

Coordinates and time are exact `real`s. Every `GetRandomValue` result enters as a parameter:
- `PlatformRoll(gap, offsetX, width, kind)` holds the four values one platform consumes, and its `Valid()` states their ranges;
- `InitPlatforms` takes 7 rolls, `UpdatePlatforms` 5, and `UpdatePlayer` 1 (used only on a jump).

`IsKeyDown` is two booleans (`moveLeft`, `moveRight`), `IsKeyPressed(KEY_SPACE)` is `jumpPressed`, and `GetFrameTime()` is a `frameTime` real with `frameTime >= 0`.

`CheckCollisionRecs` belongs to raylib. The model assumes it is strict axis-aligned overlap on both axes (`Geometry.CheckCollisionRecs`).

Each pool method is proved equal to a function of the old pool:
- `Generated` for GeneratePlatform;
- `InitLayout` for InitPlatforms;
- `Despawned` for the despawn loop;
- `MinActiveY` for the highest-active scan;
- `Refill` for the refill loop;
- `UpdatedPool` for UpdatePlatforms;
- `FirstLanding` for the landing loop.

The lemmas in `PoolSpec` then prove what those functions promise. The player's movement is proved equal to `Fallen(Launched(...))`, and the contract of `Fallen` states the landing rule.

Right after a jump the vertical speed is not -450: the code sets -450 and then adds the same frame's gravity before moving (src/main.c:365-376). `Fallen(Launched(...))` models exactly that order.

## Model

| member | source | states |
|---|---|---|
| Geometry.CheckCollisionRecs | src/main.c:409 | the raylib overlap test, assumed strict on both axes: rectangles that only touch do not collide |
| Platforms.PlatformTypeOf | src/main.c:315 | the `(PlatformType)` cast of a roll in [0,2] yields the type with that ordinal (so the type is one of the three) |
| Platforms.ClampX | src/main.c:306-309 | the centre is pulled into [50, 750]; an in-band value is kept, values below or above become the nearer bound |
| Platforms.NewPlatform | src/main.c:300-316 | a generated platform is active, 32 high, of the rolled width in [80,180], its top `refY - gap` with gap in [50,100], its centre the clamped `refX + offset` in [50,750], its type the rolled one |
| PoolSpec.Generated | src/main.c:294-320 | the whole first-fit GeneratePlatform as a function of the pool: the lowest inactive slot, if any, receives `NewPlatform`; its properties are the two lemmas below |
| PoolSpec.GeneratedWritesFirstFree | src/main.c:294-320 | a full pool is unchanged; otherwise a lowest-index free slot exists and exactly that slot is replaced by the new platform, every other slot kept |
| PoolSpec.GeneratedCount | src/main.c:294-320 | GeneratePlatform raises the active count by one exactly when a slot is free and never overwrites an active slot |
| PoolSpec.GeneratedStaysAbove | src/main.c:301 | a generated platform lies at least the minimum gap above its reference, so a bound on active tops survives generation whenever the reference is at most 50 px below that bound |
| Pool.PlatformPool.constructor | src/main.c:81 | the zero-initialised global array: 22 inactive slots |
| Pool.PlatformPool.GeneratePlatform | src/main.c:294-320 | the first-fit loop with early return leaves the array equal to `Generated` of the old array |
| PoolSpec.Chain | src/main.c:259-291 | the eight platforms InitPlatforms lays out: slot 0, then one `NewPlatform` per roll from the previous centre and top |
| PoolSpec.InitLayout | src/main.c:252-292 | the pool after InitPlatforms: the chain in slots 0..7 and the earlier slots 8..21 with their flags cleared |
| PoolSpec.ChainSteps | src/main.c:259-291 | the chain starts at slot 0 and each later platform is generated from the centre and top of the one before it |
| PoolSpec.ChainShape | src/main.c:259-291 | every chain platform is active with centre in [50,750]; each step is exactly the rolled gap (50..100) higher, 32 high, 80..180 wide |
| PoolSpec.InitLayoutShape | src/main.c:252-292 | after InitPlatforms slots 0..7 are active, slots 8..21 are the old slots with the flag cleared, slot 0 is (300,500,200,32), the steps are 50..100 up from y = 500, centres in [50,750] |
| Pool.PlatformPool.InitPlatforms | src/main.c:252-292 | the clear loop and the fill loop leave the array equal to `InitLayout` of the old array and the seven rolls |
| PoolSpec.BottomLimit | src/main.c:480 | the despawn line, 100 px below the bottom edge of the view |
| PoolSpec.Despawned | src/main.c:480-487 | a slot is active afterwards iff it was active with top y at or above the bottom limit; rectangles and types are untouched; no active slot lies below the limit |
| Pool.PlatformPool.DespawnBelow | src/main.c:479-487 | the despawn loop leaves the array equal to `Despawned` of the old array at the given limit (`UpdatePlatforms` passes `cameraTargetY + 400`) |
| PoolSpec.MinActiveY | src/main.c:489-499 | the highest-active scan as a function, with None for the `-INFINITY` sentinel; what it yields is stated by the lemma below |
| PoolSpec.MinActiveYIsMinimum | src/main.c:489-499 | the highest-active scan is None iff no slot is active, and otherwise the least top y over active slots, attained by one of them |
| Pool.PlatformPool.HighestActiveY | src/main.c:489-499 | the scan loop returns `MinActiveY` of the array |
| Pool.PlatformPool.FirstAtHeight | src/main.c:504-513 | the loop with break returns the first active slot whose top equals the highest y |
| PoolSpec.NeedsRefill | src/main.c:501 | the refill condition: no active platform, or the highest one more than 150 px below the top edge of the view |
| PoolSpec.Refill | src/main.c:520-523 | the refill loop as a function: one `Generated` per roll, the j-th from `baseY - j * 132` |
| PoolSpec.RefillBounds | src/main.c:520-523 | a refill of n requests activates at most n slots, keeps every active slot, and puts new platforms no lower than the limit when the base is at most 50 px below it |
| Pool.PlatformPool.RefillFrom | src/main.c:520-523 | the refill loop leaves the array equal to `Refill`: one GeneratePlatform per roll, each 132 px higher |
| PoolSpec.UpdatedPool | src/main.c:478-525 | the whole of UpdatePlatforms as a function of the pool, the camera target and five rolls: despawn, scan, and a refill from the highest platform or the view top when `NeedsRefill` holds |
| PoolSpec.UpdatedPoolBounds | src/main.c:478-525 | after UpdatePlatforms no active slot lies below the bottom limit, surviving slots are unchanged, and at most five slots are activated, none when no refill is needed |
| Pool.PlatformPool.UpdatePlatforms | src/main.c:478-525 | the array afterwards is `UpdatedPool`: refill only when no slot is active or the highest is more than 150 px below the view's top, from the highest slot's centre or the screen centre |
| PoolSpec.Feet | src/main.c:402-407 | the feet band tested for landing: full hitbox width, 15 px tall, starting 10 px above the hitbox bottom |
| PoolSpec.LandsOn | src/main.c:398-412 | a slot catches the player when active, overlapping the feet band, and the previous bottom was at most 1 px below its top |
| PoolSpec.FirstLanding | src/main.c:396-421 | the landing loop as a function: the first slot for which `LandsOn` holds; its meaning is stated by the lemma below |
| PoolSpec.LandingIsFirstQualifying | src/main.c:394-421 | the landing choice is None iff no slot catches the feet, otherwise the lowest-index active slot overlapping the feet band with the previous bottom at most 1 px below its top |
| Pool.PlatformPool.FindLanding | src/main.c:396-421 | the landing loop with `continue` and `break` returns `FirstLanding` of the array |
| Players.DeriveState | src/main.c:424-435 | JUMPING iff not on ground, WALKING iff on ground and moving, IDLE iff on ground and not moving |
| Players.HorizontalVelocity | src/main.c:345-360 | left wins over right, each at `200 * gameSpeed`; no key gives 0 |
| Players.Facing | src/main.c:345-360 | left faces left, right (without left) faces right, no key keeps the facing |
| Players.FallVelocity | src/main.c:376-382 | gravity for one frame is `min(vy + gravity * dt, 800)`: at most both, equal to one of them, and never lowers a speed under the cap |
| Players.Trunc | src/main.c:455 | the `(int)` cast truncates toward zero: within one unit below a non-negative value, above a negative one |
| Players.RaisedScore | src/main.c:452-456 | the score never decreases, stays when the height climbed does not exceed it, and otherwise becomes the whole part of that height |
| Players.SpeedFor | src/main.c:458-460 | the speed is `min(1 + score * 0.0005, 2.5)`: at most both, equal to one of them, and in [1, 2.5] for a non-negative score |
| Players.Launched | src/main.c:341-373 | the input step sets the horizontal speed from the keys; a jump from the ground sets vy to -450 and leaves the ground; position, hitbox and current slot are kept |
| Players.Fallen | src/main.c:376-421 | after gravity and the move the player is on the ground iff vy >= 0 and some slot catches the feet; it then stands on the lowest such slot with its feet on its top and vy = 0, otherwise it keeps its slot and falls with the capped speed; the hitbox follows the integrated position |
| Players.Player.constructor | src/main.c:80 | the zero-initialised global player with three distinct, unset animations |
| Players.Player.ApplyInput | src/main.c:345-360 | sets vx and the facing as HorizontalVelocity and Facing say, nothing else |
| Players.Player.Integrate | src/main.c:376-389 | applies the capped gravity, moves by velocity times frame time and re-anchors the hitbox at the feet |
| Players.Player.LandOn | src/main.c:414-417 | snaps the feet to the slot's top, stops the fall, sets onGround and the current slot |
| Players.Player.AnimateState | src/main.c:438-450 | advances exactly the current state's animation, rewinding it iff the state changed |
| Animations.CRem | src/main.c:333 | C's `%`: the dividend less the result is a multiple of the divisor, the result takes the sign of the dividend and is below the divisor's magnitude |
| Animations.NextFrame | src/main.c:333 | `(frame + 1) % frames` stays in range and is `frame + 1`, or 0 after the last frame |
| Animations.FrameAfterWraps | src/main.c:333 | n advances from a frame in range reach `(frame + n) mod frames` |
| Animations.Advance | src/main.c:322-336 | a reset gives frame 0 and time 0; otherwise time accumulates and, once it reaches frameTime, the frame advances by one and the time restarts; a frame in range stays in range |
| Animations.Animation.constructor | src/main.c:43-52 | the zero-initialised Animation struct |
| Animations.Animation.Setup | src/main.c:226-244 | sets the frame count and duration and rewinds the animation |
| Animations.Animation.UpdateAnimation | src/main.c:322-336 | the frame and elapsed time become `Advance` of the old ones; frames and frameTime are kept; a valid animation stays valid |
| Game.CameraTargetY | src/main.c:463-472 | the target y is the player y less a third of the screen, clamped to at most 50 px past half a screen above the start |
| Game.Game.constructor | src/main.c:79-86 | the globals before the first run: menu, zero score, speed 1, all slots inactive |
| Game.Game.InitPlayer | src/main.c:202-250 | the player stands centred 2 px above slot 0 at rest, facing right, on slot 0; idle 5 frames at 0.15 s, walk and jump 8 at 0.1 s, all rewound; score 0 and the start height is the hitbox top |
| Game.Game.StartRun | src/main.c:671-675 | starting a run yields the InitPlatforms layout and PLAYING; the player at rest at (400, 498) on slot 0 with hitbox (384, 466, 32, 32) as its previous hitbox too, facing right, IDLE before and now, no platforms hit; idle 5 frames at 0.15 s, walk and jump 8 at 0.1 s, all rewound; score 0, speed 1, camera and high score kept |
| Game.Game.ReadInput | src/main.c:341-373 | remembers the hitbox and state, applies `Launched`, sets JUMPING on a jump, and generates a platform from the current slot's centre and top exactly on a jump from the ground |
| Game.Game.LandingScan | src/main.c:392-421 | only when vy >= 0 the first qualifying slot stops the fall on its top; otherwise the player is airborne with position, velocity and slot kept |
| Game.Game.Fall | src/main.c:376-421 | the movement fields become `Fallen` of the old ones |
| Game.Game.Move | src/main.c:341-421 | the movement fields become `Fallen(Launched(...))`, the pool changes only by the jump's GeneratePlatform |
| Game.Game.FinishStep | src/main.c:424-460 | derives the state, advances only its animation (reset iff the state changed), then updates score and speed |
| Game.Game.UpdateScore | src/main.c:452-460 | the score is raised by `RaisedScore` and never decreases; the speed is `SpeedFor(score)`, in [1, 2.5] |
| Game.Game.UpdatePlayer | src/main.c:339-461 | the whole frame: the pool changes only by a jump's platform, the motion is `Fallen(Launched(...))`, the state is derived from the landing, only the current animation advances (reset iff the state changed), the score never decreases and the speed follows it |
| Game.Game.UpdatePlatforms | src/main.c:478-525 | runs UpdatePlatforms against the current camera target: the pool becomes `UpdatedPool` of the old pool at `camera.target.y` |
| Game.Game.UpdateGameCamera | src/main.c:463-475 | the camera is centred on screen and targets the player's x and `CameraTargetY` |
| Game.FellOff | src/main.c:529 | the game-over test: the player is more than 50 px below the bottom edge of the view |
| Game.Game.CheckGameOver | src/main.c:527-535 | falling more than 50 px past the bottom of the view sets GAME_OVER and raises the high score to the score; otherwise nothing changes; the high score never decreases |

## Left out

- Asset loading and unloading (src/main.c:116-200), every `Draw*` function (537-721) and the window/loop shell of `main` (723-794) are rendering, file I/O and event plumbing. They are not part of this model; neither is the texture-derived `frameWidth`/`frameHeight` of each animation (InitPlayer, lines 230-245).
- The menu button hit-test (src/main.c:666-670) is left out. `Game.Game.StartRun` models only the reset it triggers.
- raylib and C library calls are inputs, not modelled behaviour:
  - `GetRandomValue` results are `PlatformRoll` parameters with range preconditions;
  - `IsKeyDown`, `IsKeyPressed` and `GetFrameTime` are boolean and non-negative real parameters;
  - `srand` is left out.
- `CheckCollisionRecs` is assumed to be strict axis-aligned overlap. raylib's real definition is not part of this model.
- Floating point: positions, velocities, times and the speed are exact reals, so IEEE-754 rounding is not modelled.
- Integer range: `int` scores and counters are unbounded, so overflow is not modelled.
- Pool.PlatformPool.GeneratePlatform: when the pool is full, the C code draws no random values. The model still takes a roll, which it ignores, so the order in which the random stream is consumed is not modelled.
- Camera rotation and zoom are not modelled: the game never changes them during a run.
