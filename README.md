# Flappy-bird session engine in Dafny

A model of the game-session engine of `script.js`, a browser Flappy Bird variant. It covers:

- **Difficulty policy.** `currentConfig()` / `updateDifficulty()` map the difficulty slider and
  the score to a pipe gap, a pipe width, a scroll speed and a spawn interval.
- **Pipe spawning.** `spawnPipe()` draws a random gap-top in the playable band. It then clamps
  the draw so it moves no further than `max(80, floor(0.9 * gap))` from the previous pipe's
  gap-top, and appends the pipe.
- **One simulation frame.** `update()` does the following, in order:
  - the bird's gravity step;
  - the spawn cadence;
  - the backward pipe loop (scroll, score once, splice off-screen pipes);
  - the ceiling clamp;
  - the ground test;
  - the collision loop;
  - the backward particle loop.
- **Session transitions.** `reset()`, `endGame()`, `explode()`, `flap()`, the press handlers
  (reset first, then flap), and the bird-x clamp of `fitCanvas()`.

The modules, in dependency order:

- `Numbers`: `Option`, `Max`/`Min`, and `Round` (JavaScript's `Math.round`, i.e. `floor(x + 0.5)`).
- `Seqs`: `Keep`, the order-preserving filter that a backward loop with `splice(i, 1)` computes,
  plus the sequence facts the in-place loops need.
- `Difficulty`: the base config, the gap constants, `EffectiveDifficulty` (`Number(v) || 1`)
  and `ConfigFor`.
- `Entities`: the bird, pipe and particle rules for one frame. These are `Fall`, `Ceiling`,
  `MovePipe`, `AdvancePipes`, `NewlyPassed`, `Hits`/`Crashes`, `Burst`, `MoveParticle` and
  `AdvanceParticles`.
- `Spawning`: the spawn policy as functions of the random draw `frac` and the viewport.
- `Session`: the whole game state as a value (`State`), and the transitions as functions:
  - `Spawned`, `Ended`, `EndedTimes`, `Restarted`, `Flapped`, `Pressed`, `Fitted`;
  - `Frame` and its stages.

  It also holds the invariant `Inv` and the lemmas about all of these.
- `Game`: the controller as the browser runs it.
  - `class Bird` holds the `bird` object's fields.
  - `class World` holds the module-level variables. Its methods update them in place, and the
    two pipe and particle loops run backwards, splicing in place.
  - The session-level methods (`SpawnPipe`, `EndGame`, `Reset`, `Flap`, `Press`,
    `CheckCollisions`, `Tick`, `ScrollAndClampCeiling`, `Land`, `Advance`, `Update`) are proved to leave
    `Snapshot()` equal to the matching `Session` function of the old snapshot, and to keep
    `Valid()`.
  - `Settle` states its new snapshot in the same way but does not promise `Valid()` on its
    own; `Update` re-establishes it.
  - The helper methods `CurrentConfig`, `Explode`, `ScrollPipes` and `FadeParticles` state
    the new value of each field they change, and their `modifies` clauses name only those
    fields. `FitCanvas` states the bird's new
    pose and keeps `Valid()`.

Numbers are modelled as follows:

- Positions and velocities are `real`.
- Score, widths, gaps and the frame count are integers.
- `Math.floor` is `.Floor`, and `Math.round` is `Round`.
- `Math.random()` becomes inputs:
  - a draw `frac` in `[0, 1)` for a spawn;
  - the 24 `Jitter` pairs of an explosion.
- The canvas size is an input `Viewport`.
- The difficulty slider is an input `slider`.

## Model

| member | source | states |
|---|---|---|
| Numbers.Round | script.js:158 | `Math.round` returns the integer within half a unit of its argument (ties round up) |
| Numbers.RoundOfInteger | script.js:158 | rounding an integral value gives that integer back |
| Seqs.Keep | script.js:215 | the order-preserving filter that a backward loop with `splice(i, 1)` computes never lengthens its input; `KeepAppend` and `KeepMembers` characterise it |
| Difficulty.EffectiveDifficulty | script.js:148 | a zero reading falls back to difficulty 1 (slider 0 gives exactly 1), so the difficulty is never 0, and any non-zero reading is taken as is |
| Difficulty.GapFor | script.js:157-158 | the rounded interpolation from gapStart to gapMin over 10 points is exactly `240 - 14 * score` below score 10 and 100 from score 10 on |
| Difficulty.ConfigFor | script.js:149-161 | every config has width >= 48, spawnInterval >= 48 and a gap in [100, 240], for every difficulty and score |
| Difficulty.GapEnds | script.js:54-56 | the gap is 240 (floor(150 * 1.6)) at score 0 and 100 at every score from 10 on |
| Difficulty.GapNonIncreasing | script.js:157-158 | a higher score never gives a wider gap |
| Difficulty.AxesIndependent | script.js:152-158 | width, speed and spawn interval do not depend on the score, and the gap does not depend on the difficulty |
| Difficulty.DifficultyMonotone | script.js:152-154 | from difficulty 1 up, width is 72 + 6(d-1), speed is 2.6 + 0.6(d-1) and the spawn interval max(48, 92 - 12(d-1)); raising the difficulty never narrows the pipes, never slows the scroll and never lengthens the spawn interval |
| Entities.Fall | script.js:215 | after the gravity step dy is at most maxFall (14) and is either dy + 0.56 or the clamp, y moves by the new dy, and the rotation is dy/12 clamped to [-0.6, 1.2]: dy/12 when that is in range, -0.6 below it and 1.2 above it |
| Entities.Ceiling | script.js:215 | a bird whose top reaches y = 0 is set to y = r with dy = 0; any other bird is unchanged |
| Entities.Scores | script.js:215 | the pipe loop's scoring test (not yet passed, and passed after the move); `NewlyPassed` counts it and `NewlyPassedNone` characterises it |
| Entities.OnScreen | script.js:215 | the splice test of the pipe loop (right edge not left of x = -100); `AdvancePipesSurvivors` characterises it |
| Entities.MovePipe | script.js:215 | a pipe scrolls left by the speed; its `passed` flag never goes from true to false, and it is true afterwards exactly when it was true or the pipe's right edge is now left of the bird's left edge |
| Entities.NewlyPassed | script.js:215 | a frame earns at most one point per pipe |
| Entities.NewlyPassedNone | script.js:215 | a frame earns no point exactly when no pipe turns from unscored to scored |
| Entities.MovedPipes | script.js:215 | the pipe loop's move keeps the length and moves every pipe by `MovePipe` |
| Entities.AdvancePipes | script.js:215 | the pipe step never lengthens the list; `AdvancePipesSurvivors`, `AdvancePipesAppend` and `AdvancePipesStep` characterise it |
| Entities.AdvancePipesStep | script.js:215 | one step of the backward loop (overwrite slot i with the moved pipe, then splice it if off screen) extends the processed suffix by AdvancePipes of one more pipe, and the score by one exactly when that pipe scores |
| Entities.AdvancePipesSurvivors | script.js:215 | a pipe is in the list after the frame exactly when it is the move of an input pipe and is not left of x = -100 |
| Entities.AdvancePipesAppend | script.js:215 | culling preserves relative order: the pipe step of a concatenation is the concatenation of the pipe steps |
| Entities.ScoredAtMostOnce | script.js:215 | over two consecutive frames the points earned by a pipe list never exceed the number of its pipes that were unscored |
| Entities.Hits | script.js:215 | the collision test (horizontal overlap and outside the gap); `CrashesNone` and `CrashesPrefix` characterise it |
| Entities.Crashes | script.js:215 | the collision loop calls endGame() at most once per pipe |
| Entities.CrashesNone | script.js:215 | the collision loop calls endGame() not at all exactly when the bird overlaps no pipe outside its gap |
| Entities.CrashesPrefix | script.js:215 | the forward collision loop adds one endGame() call for pipe i exactly when the bird hits it |
| Entities.Spark | script.js:194 | every crash particle starts at the explosion point with 60 frames of life |
| Entities.Burst | script.js:194 | explode() creates exactly 24 particles, all at (x, y) with life 60 |
| Entities.Bursts | script.js:194 | k explosions add exactly 24k particles, all with life 60 |
| Entities.MoveParticle | script.js:216 | a particle moves by its velocity, its vertical velocity grows by 0.18, and its life drops by exactly 1 |
| Entities.MovedParticles | script.js:216 | the particle loop's move keeps the length and moves every particle by `MoveParticle` |
| Entities.Alive | script.js:216 | the negation of the particle loop's splice test `life <= 0`, applied after the decrement; `AdvanceParticlesSurvivors` characterises it |
| Entities.AdvanceParticles | script.js:216 | the particle step never lengthens the list; `AdvanceParticlesSurvivors`, `AdvanceParticlesAppend`, `AdvanceParticlesLife` and `AdvanceParticlesStep` characterise it |
| Entities.AdvanceParticlesStep | script.js:216 | one step of the backward particle loop extends the processed suffix by AdvanceParticles of one more particle |
| Entities.AdvanceParticlesSurvivors | script.js:216 | a particle survives the frame exactly when it is the move of an input particle and its life is still positive |
| Entities.AdvanceParticlesAppend | script.js:216 | removing spent particles preserves the relative order of the survivors |
| Entities.AdvanceParticlesLife | script.js:216 | particles with at most 60 frames of life come out of a frame with life in [1, 59] |
| Spawning.PlayableHeight | script.js:167 | the playable band is max(0, height - 140): never negative, at least height - 140, and one of the two |
| Spawning.MaxTop | script.js:169 | the lowest allowed gap-top is max(60, 60 + playable - gap): at least both and one of the two, so exactly 60 when the gap does not fit the band and the top that puts the gap's bottom at the band's bottom when it does |
| Spawning.MaxDelta | script.js:176 | the fairness bound is max(80, floor(0.9 * gap)): at least 80, more than 0.9 * gap - 1, and either 80 or at most 0.9 * gap |
| Spawning.AllowedMin | script.js:177 | the low end of the fair window is at least 60 and at least the previous top less maxDelta, and is one of the two |
| Spawning.AllowedMax | script.js:178 | the high end of the fair window is at most maxTop and at most the previous top plus maxDelta, and is one of the two |
| Spawning.Span | script.js:172 | the draw range is non-negative and reaches exactly from minTop to maxTop |
| Spawning.ScaleWithin | script.js:172 | a draw in [0, 1) scales a non-negative length to a value between 0 and that length |
| Spawning.Candidate | script.js:172 | the unclamped candidate lies in [minTop, minTop + span] |
| Spawning.ChooseTop | script.js:167-181 | the chosen top is at most maxTop; without a previous pipe it is exactly the random candidate (so at least 60); with one and a non-empty fair window, a candidate inside the window is kept, one below it goes to allowedMin and one above it to allowedMax, so the top is at least 60 and within maxDelta of the previous top; a previous top of at least 60 always yields a top of at least 60; an empty window yields allowedMax |
| Spawning.FairWindowNonEmpty | script.js:175-181 | the fair window is non-empty exactly when the previous top lies in [60 - maxDelta, maxTop + maxDelta] |
| Spawning.ShrunkViewportBreaksFairness | script.js:175-181 | a previous top of 1000 on a 600-high viewport with gap 240 gives a new top of 280, which is 720 away although maxDelta is 216: the fairness bound needs the window to be non-empty |
| Spawning.NewPipe | script.js:184-186 | the new pipe is unscored, has wobble 0, the chosen top and the config's width and gap; its x is an integer within half a unit of width - 20 (of width - max(20, 2% of the width) for the first pipe), ties rounding up |
| Session.SpawnAppendsOne | script.js:164-188 | spawnPipe() appends exactly one pipe and leaves the earlier ones unchanged; the new pipe is unscored with the current config's width and gap, sits at an integral x within half a unit of width - 20 for a later pipe, and has top ChooseTop of the draw, the previous top and the gap, which is recorded as lastPipeTop and is at least 60 when the previous top was; nothing else but the difficulty changes |
| Session.SpawnKeepsInv | script.js:164-188 | spawning keeps every pipe's width at least 48 and its gap in [100, 240] |
| Session.Spawned | script.js:164-188 | spawnPipe() as a function of the state; `SpawnAppendsOne` and `SpawnKeepsInv` characterise it |
| Session.BurstsAdd | script.js:194 | a explosions followed by b explosions at one spot are a + b explosions |
| Session.Ended | script.js:213 | endGame() as a function of the state; `EndedBest` and `EndedKeepsInv` characterise it |
| Session.EndedTimes | script.js:215 | k endGame() calls in a row; `EndedTimesEffect` and `EndedTimesAdd` characterise it |
| Session.EndedTimesEffect | script.js:213 | k calls of endGame() (no running guard) stop the session when k > 0, set best to max(best, score) from the first call on, append k bursts of 24 particles, and change nothing else |
| Session.EndedTimesAdd | script.js:215 | the ground call and the pipe calls of one frame compose into one run of endGame() calls |
| Session.EndedBest | script.js:213 | after endGame() best is at least its old value and at least the score, and is one of the two; exactly 24 particles are added |
| Session.EndedKeepsInv | script.js:213 | endGame() keeps the state invariant |
| Session.ResetEffect | script.js:196-212 | after reset() the session runs with score 0, frame count 0, no particles and exactly one unscored pipe, at an integral x within half a unit of width - max(20, 2% of the width), whose top is ChooseTop of the draw and the previous session's lastPipeTop and becomes the new lastPipeTop; the bird is at rest at mid-height, at least max(140, floor(width / 3)) from the left, with its rotation kept; best is unchanged |
| Session.ResetKeepsInv | script.js:196-212 | reset() keeps the state invariant |
| Session.Restarted | script.js:196-212 | reset() as a function of the state; `ResetEffect` and `ResetKeepsInv` characterise it |
| Session.Flapped | script.js:238 | flap() as a function of the state; `PressStarts` and `FlapKeepsInv` characterise it |
| Session.Pressed | script.js:239-241 | the press handlers (reset when stopped, then flap); `PressStarts` characterises it |
| Session.FlapKeepsInv | script.js:238 | flap() keeps the state invariant |
| Session.PressStarts | script.js:239-241 | a press always leaves a running session with dy = -11; on a running session nothing else changes; on a stopped one it first restarts with score 0, frame count 0, one pipe and no particles |
| Session.Fitted | script.js:34-37 | the bird-x clamp never moves the bird left and puts it at least at 140 and at floor(width / 3); it picks one of the three candidates and changes no other bird field |
| Session.Ticked | script.js:215 | the start of update() (frame count, difficulty, gravity); `LandedFacts` characterises it |
| Session.FrameConfig | script.js:215 | the config update() reads once at its start, from the re-read difficulty and the score before the pipe loop; `FrameCadence` and `FrameBookkeeping` characterise it |
| Session.Cadenced | script.js:215 | the spawn cadence of update(); `FrameCadence` and `CadencedSized` characterise it |
| Session.Scrolled | script.js:215 | the pipe loop of update(); `LandedFacts`, `FrameBookkeeping` and `AdvancePipesSized` characterise it |
| Session.Landed | script.js:215 | update() up to the ground test; `LandedFacts` characterises it |
| Session.GroundHit | script.js:215 | the ground test (bird bottom at or below height - 40); `FrameEndings` characterises it |
| Session.Grounded | script.js:215 | the ground test changes only y; a grounded bird ends up resting exactly on the ground line (never lower than before), any other bird is unchanged |
| Session.EndCalls | script.js:215 | a frame makes at most one endGame() call for the ground plus one per pipe |
| Session.Frame | script.js:215-216 | update() as a function of the state; `FrameEndings`, `FrameBookkeeping`, `FrameCadence`, `FrameBird`, `FrameCeiling` and `FrameKeepsInv` characterise it |
| Session.LandedFacts | script.js:215 | before the ground test a frame has counted one more frame, re-read the difficulty, run the pipe step over the pipes present after the spawn, added the newly scored pipes to the score, and applied gravity then the ceiling clamp to the bird; particles, best and running are untouched |
| Session.FrameEndings | script.js:215 | a frame calls endGame() once for the ground and once per hit pipe; it stops the session exactly when that count is non-zero, sets best to max(best, score) then, and adds that many bursts at the grounded bird, all put through the particle step |
| Session.FrameBookkeeping | script.js:215 | a frame raises the frame count by exactly 1 and the score by exactly the number of pipes newly passed, and the pipe list is the moved pipes less the culled ones |
| Session.FrameCadence | script.js:215 | a frame spawns a pipe exactly when the new frame count is a multiple of the spawn interval, and keeps the existing pipes as a prefix |
| Session.FrameBird | script.js:215 | after any frame dy <= 14 and rotation lies in [-0.6, 1.2], and the bird's x is unchanged |
| Session.FrameCeiling | script.js:215 | on a viewport taller than 40 + 2r (so a bird at the ceiling clears the ground), a bird pushed through the ceiling ends the frame at y = r with dy = 0, only a pipe hit can end the session, and without a hit running and best are unchanged |
| Session.CadencedSized | script.js:215 | the spawn cadence keeps every pipe sized by some config |
| Session.AdvancePipesSized | script.js:215 | the pipe step keeps every pipe sized by some config |
| Session.ScrolledAndClampedKeepsInv | script.js:215 | the pipe step and the ceiling clamp keep the state invariant |
| Session.FramePipesInv | script.js:215 | after any frame every pipe has width >= 48 and gap in [100, 240] |
| Session.FrameLastTopInv | script.js:164-188 | a frame keeps lastPipeTop at least 60 when it is set |
| Session.FrameParticlesInv | script.js:216 | after any frame every particle has life in [1, 60] |
| Session.FrameKeepsInv | script.js:215-216 | a frame keeps the state invariant: dy <= 14, rotation in [-0.6, 1.2], bird x >= 140, every particle's life in [1, 60], every pipe sized by a config, and lastPipeTop at least 60 when set |
| Game.Bird.constructor | script.js:59 | the bird starts at (140, 240) at rest and level |
| Game.World.constructor | script.js:45-57 | the page-load state: no session running, nothing on screen, no previous pipe, best and difficulty as stored |
| Game.World.CurrentConfig | script.js:148-161 | currentConfig() stores the effective difficulty and returns ConfigFor of it and the current score |
| Game.World.SpawnPipe | script.js:164-188 | spawnPipe() in place: the new state is Spawned of the old one, and the invariant is kept |
| Game.World.Explode | script.js:194 | the 24-step push loop appends exactly Burst(x, y) to the particles |
| Game.World.EndGame | script.js:213 | endGame() in place: the new state is Ended of the old one, with no guard on running |
| Game.World.Reset | script.js:196-212 | reset() in place: the new state is Restarted of the old one |
| Game.World.Flap | script.js:238 | flap() in place: the new state is Flapped of the old one |
| Game.World.Press | script.js:239-241 | the input handlers in place: the new state is Pressed of the old one |
| Game.World.FitCanvas | script.js:34-37 | the bird-x clamp in place: the new pose is Fitted of the old one |
| Game.World.ScrollPipes | script.js:215 | the backward loop with in-place splice leaves exactly AdvancePipes of the old list and adds NewlyPassed to the score |
| Game.World.CheckCollisions | script.js:215 | the forward collision loop makes exactly Crashes(pipes, bird) endGame() calls |
| Game.World.FadeParticles | script.js:216 | the backward loop with in-place splice leaves exactly AdvanceParticles of the old list |
| Game.World.Tick | script.js:215 | the start of update(): frames + 1, the difficulty re-read, the gravity step, and the config the rest of the frame uses |
| Game.World.ScrollAndClampCeiling | script.js:215 | the pipe loop then the ceiling clamp, keeping the invariant |
| Game.World.Land | script.js:215 | the ground test rests a grounded bird on the ground and makes exactly one endGame() call for it, none otherwise |
| Game.World.Advance | script.js:215 | the first half of update() leaves exactly Landed of the old state |
| Game.World.Settle | script.js:215-216 | the second half of update() makes EndCalls endGame() calls and then runs the particle step |
| Game.World.Update | script.js:215-216 | update() in place: the new state is Frame of the old one, and the invariant is kept |

## Left out

- Web Audio (`ensureAudio`, `setVolume`, `playSfx`, `startMusic`, `stopMusic`): these are foreign
  browser calls and timer scheduling. The score bubble and the sound effects requested by
  `update`, `endGame` and `flap` are not modelled.
- Canvas drawing (`draw`), the clouds, the asset preloading and `requestAnimationFrame` (`loop`):
  this is rendering and host scheduling. The model's `Update` is one call of `update()` from
  `loop` while running.
- The DOM: overlays, the game-over modal, the settings, share and audio buttons, and the text of
  the score labels.
- `localStorage`. The stored best score and difficulty are parameters of `World`'s constructor,
  and writes are not modelled.
- The hi-DPI resize part of `fitCanvas()` (script.js:26-31). Only its bird-x clamp is modelled.
- `Math.random()`, `getBoundingClientRect()` and the slider are inputs, not behaviour.
  - The slider's reading is an integer. A non-numeric reading (NaN), a fractional difficulty,
    and a missing slider element are not modelled.
- The pipe's `rot` amplitude and the particles' colour: only drawing uses them.
- Burst jitter: every `endGame()` call of one frame uses the same 24 `Jitter` pairs. In the
  browser each call draws fresh ones. Counts, positions and lives are unaffected.
- One viewport: `rect.height` and `canvas.clientHeight` are the same number `view.height`.
  - They agree in the page's full-viewport layout.
  - This also covers reset()'s `(rect.height/2) || (canvas.clientHeight/2)` fallback.
- `bird.x || 140` in the fitCanvas clamp falls back only when `bird.x` is exactly 0. That is
  what the model does.
- Three behaviours of the code differ from what a player would expect. The model follows the
  code each time:
  - `endGame()` has no guard on `running`, so a frame with a ground hit and overlapping pipes
    calls it several times. `EndedTimesEffect` and `FrameEndings` state the outcome.
  - The ceiling is a clamp, not a crash (`FrameCeiling`).
  - The fairness bound on consecutive gap-tops holds only when the fair window is non-empty.
    `ShrunkViewportBreaksFairness` shows an input where it fails.
- `reset()` keeps `lastPipeTop` and the bird's rotation from the previous session, as the code
  does. `ResetEffect` states both: the first pipe's top is clamped against the old
  `lastPipeTop`, and the rotation is unchanged.
- That a second pipe is on screen once spawnInterval frames have passed since a reset is not
  stated. Whether the first pipe is still on screen then depends on the viewport width and the
  speed. `FrameCadence` states the spawn rule it rests on.
