# fluppy, modelled in Dafny

fluppy is a pygame clone of Flappy Bird. A bird falls under gravity and
is pushed up by flaps. Pipe pairs scroll in from the right with a gap
between their halves. Passing a pair scores a point, and touching a pair
or the ground ends the round.

This project models the game's simulation and proves what it promises:

- **Entities** (`Entities`): the bird, a two-copy scrolling background band and a pipe pair. They are Dafny classes whose methods update their fields in place, as the Python objects do.
  - `Bird`: capped gravity, the flap impulse, animation-frame cycling, the idle bob and the tilt.
  - `ScrollingLayer`: two draw positions that wrap around.
  - `PipePair`: leftward motion, the gap between its halves, the optional sway, the off-screen test and pixel-exact collision.
- **The packaged game controller** (`App.FluppyGame`, from `fluppy/app.py`):
  - the READY / PLAYING / GAME_OVER machine driven by flap requests;
  - the spawn timer and the spawn range;
  - the pipe pass, which walks a copy of the live list, removes pairs that are off screen and scores each pair once;
  - the best-score latch;
  - the ordered collision checks: ceiling, then ground, then pipes.
- **The standalone game** (`Standalone.FluppyGame`, from `game.py`). Its entity classes are the package's, so the model reuses `Entities`. Its controller differs:
  - fixed settings and no difficulty;
  - a reset that always keeps the best score;
  - a fixed spawn margin;
  - a background scroll that leaves the sky alone;
  - a ceiling that clamps the bird without ending the round.
- **Difficulty** (`Difficulty`, `Settings`): the preset table, and the resolution of a difficulty name with its environment override and fallback. It also covers how a preset is copied into the settings globals. Those globals are reassigned at run time, so they are a `Config` value that is passed in and handed back.
- **Game phases** (`GameStates`): the three phases as a datatype, and the sound cues as a second datatype.

Modelling conventions:

- Positions, velocities and times are exact `real`s.
- pygame rectangle fields are `int`s.
- Python's `int()` and pygame's float-to-int conversion truncate toward zero. This is `Geometry.Trunc`, and it matters once a pipe's `x` is negative.
- A mask is a set of opaque pixels, and `Mask.overlap` is the offset test over those sets.
- The game's requests to play a sound are appended to a log `sfx`. The log distinguishes a ground crash (`Hit`, `Die`) from any other crash (`Hit`).
- Each `random` outcome of a spawn is a parameter, a `SpawnDraw`.
- `math.sin` is a parameter `sine`.
- `pygame.mask.from_surface` of the bird's sprite is a parameter `maskOf`.
- The environment variable `FLUPPY_DIFFICULTY` is an `Option<string>` parameter.

## Model

| member | source | states |
|---|---|---|
| Geometry.Trunc | fluppy/entities.py:49-50 | conversion to int truncates toward zero: the result is the integer within 1 of the value on the side of zero |
| Geometry.TruncShift | fluppy/entities.py:56-57 | on non-negative values, truncating after adding an integer is adding it after truncating |
| Geometry.CenteredRect | fluppy/entities.py:87 | `get_rect(center=...)` has the surface's size and the given centre |
| Geometry.Rect.WithMidTop | fluppy/entities.py:38 | setting `midtop` gives the requested centre column and top edge, with the size kept |
| Geometry.Rect.WithMidBottom | fluppy/entities.py:39 | setting `midbottom` gives the requested centre column and bottom edge, with the size kept |
| Geometry.Rect.WithCenterX | fluppy/entities.py:49-50 | setting `centerx` gives the requested centre column and moves the rectangle sideways only, with the size kept |
| Geometry.Rect.WithCenterY | fluppy/entities.py:126 | setting `centery` gives the requested centre row and moves the rectangle up or down only, with the size kept |
| Geometry.Rect.WithTop | fluppy/app.py:171 | setting `top` gives the requested top edge, with the column and the size kept |
| Geometry.Rect.WithBottom | fluppy/app.py:178 | setting `bottom` gives the requested bottom edge, with the column and the size kept |
| Geometry.FlipVertical | fluppy/entities.py:36-37 | the mask of the upside-down image holds exactly the mirrored opaque pixels, in both directions |
| Geometry.OverlapsIffSharedPixel | fluppy/entities.py:67-72 | `Geometry.Overlaps`, the `Mask.overlap` test at the offset between two rectangles' corners, holds exactly when the two drawn images share an opaque screen pixel |
| Settings.Lookup | fluppy/settings.py:60-72 | indexing the table by a key returns that key's entry |
| Settings.TableShape | fluppy/settings.py:60-72 | exactly three presets, keyed easy, normal, hard in that order, with distinct keys |
| Settings.DifficultyRises | fluppy/settings.py:61-70 | from easy to hard the gap strictly shrinks, the speed strictly rises and the spawn interval strictly shortens |
| Settings.OnlyHardSways | fluppy/settings.py:50-72 | a preset sways exactly when it is "hard", with amplitude 40 and speed 2.2; the others keep the defaults 0 and 0.0 |
| Settings.DefaultIsNormal | fluppy/settings.py:60-74 | the default selection is a key, and its preset equals the module-level speed, gap, spawn interval and scale |
| Settings.ConstantsAreSane | fluppy/settings.py:9-15 | a flap points up, the drop cap points down, and every gap is positive and even, so `gap / 2` is exact |
| Difficulty.ListDifficulties | fluppy/difficulty.py:9-13 | the names are easy, normal, hard in table order, and each is a key |
| Difficulty.Lower | fluppy/difficulty.py:17 | `str.lower()` keeps the length and lower-cases each character on its own |
| Difficulty.Normalize | fluppy/difficulty.py:16-20 | returns a value exactly when the lower-cased name is a key, and then that lower-cased name |
| Difficulty.NormalizeIgnoresCase | fluppy/difficulty.py:16-20 | a name normalises to a key exactly when it spells the key in any mix of letter cases |
| Difficulty.Resolve | fluppy/difficulty.py:23-32 | the stored selection afterwards is a key and the returned preset is its entry; no other global changes |
| Difficulty.EnvChoiceWins | fluppy/difficulty.py:24-29 | a non-empty environment choice naming a key in any case wins and is stored, lower-cased |
| Difficulty.StoredChoiceKept | fluppy/difficulty.py:30-32 | without a usable environment choice, a valid stored selection is kept and its preset returned |
| Difficulty.InvalidStoredFallsBackToEasy | fluppy/difficulty.py:30-32 | without a usable environment choice, an invalid stored selection becomes the first key, "easy" |
| Difficulty.ResolveIdempotent | fluppy/difficulty.py:23-32 | resolving again under the same environment returns the same preset and stores the same selection |
| Difficulty.ApplyDifficulty | fluppy/difficulty.py:35-43 | the resolved preset's speed, gap, spawn interval and scale are copied into the globals; the sway pair is the preset's when it sways and (0, 0.0) otherwise |
| Difficulty.ApplyIdempotent | fluppy/difficulty.py:35-43 | applying twice under the same environment changes nothing further |
| Difficulty.AppliedGapIsEven | fluppy/difficulty.py:35-43 | every applied gap is positive and even |
| GameStates.CrashNeedsFlight | fluppy/app.py:110-133 | every phase sequence that starts waiting and ends crashed passes through PLAYING |
| Entities.Fall | fluppy/entities.py:122-124 | the new velocity never exceeds the drop cap, and is either the velocity plus gravity·dt or the cap |
| Entities.Tilt | fluppy/entities.py:132-133 | the nose angle lies in [-25, 70]; it is -0.06·velocity inside that range and the nearer bound outside it |
| Entities.Animate | fluppy/entities.py:127-130 | the frame stays in range; it advances by one, wrapping, and the timer restarts exactly when the accumulated time reaches the frame period; otherwise time accumulates |
| Entities.Bobbed | fluppy/entities.py:115-117 | the direction stays a unit; the offset moves by speed·dt in that direction; the direction reverses exactly when the offset is now beyond the amplitude |
| Entities.BobStaysBounded | fluppy/entities.py:115-117 | with equal ticks of at most two amplitudes' travel, the bob stays within one step of the amplitude and heads back once beyond it |
| Entities.BobCanDriftWithUnevenTicks | fluppy/entities.py:115-117 | ticks of unequal length (4 s, 0.1 s, 4 s, 0.1 s from the baseline) leave the bob past twice the amplitude with its direction +1 at a positive offset, so still heading away from the baseline |
| Entities.Bird.constructor | fluppy/entities.py:79-94 | the bird starts centred at its start position on frame 0, at rest, with the bob at 0 heading down |
| Entities.Bird.Reset | fluppy/entities.py:96-104 | the same start state as construction, at the given position |
| Entities.Bird.Flap | fluppy/entities.py:106-107 | the velocity becomes the flap impulse whatever it was; nothing else changes |
| Entities.Bird.UpdateReady | fluppy/entities.py:109-119 | one animation tick and one bob tick; the bird sits at baseline plus bob offset and its rectangle follows; the velocity is untouched |
| Entities.Bird.Update | fluppy/entities.py:121-134 | capped gravity (velocity at most the drop cap), position advanced by the new velocity, rectangle follows, one animation tick, the frame shown tilted by `Tilt` |
| Entities.Bird.UpdateFalling | fluppy/entities.py:136-140 | the same capped gravity and motion, the death frame at 70 degrees, and the animation cursor untouched |
| Entities.ScrollKeepsSpacing | fluppy/entities.py:160-166 | scrolling, however far, keeps the two draw positions exactly one band-width apart |
| Entities.ScrollKeepsCover | fluppy/entities.py:160-166 | a scroll of at most one band-width keeps the left copy in (-width, 0], so the screen's left edge stays drawn over |
| Entities.ScrollRunCovers | fluppy/entities.py:154-166 | from the reset positions, any run of scrolls of at most one band-width each leaves no gap at the left edge |
| Entities.LongScrollLeavesGap | fluppy/entities.py:160-166 | the per-scroll bound is needed: one scroll of five band-widths leaves both copies off screen |
| Entities.ScrollingLayer.constructor | fluppy/entities.py:147-152 | a band starts at positions [0, width] with the given size, speed and row |
| Entities.ScrollingLayer.Reset | fluppy/entities.py:154-155 | the positions return to [0, width] |
| Entities.ScrollingLayer.Next | fluppy/entities.py:157-159 | a band with speed 0 never moves |
| Entities.ScrollingLayer.Update | fluppy/entities.py:157-166 | the new positions are one scroll of speed·dt: both shift left, then each in turn wraps one width past the other once a full width off screen |
| Entities.ResetAll | fluppy/app.py:78-79 | every band of the list is back at rest |
| Entities.UpdateAll | fluppy/app.py:147-148 | every band of the list moved one tick |
| Entities.SpawnGapIsExact | fluppy/entities.py:38-39 | with an even gap, the lower half's top and the upper half's bottom are exactly the gap apart, centred on the drawn centre |
| Entities.SwayGapIsExact | fluppy/entities.py:51-57 | halves re-placed around one swayed centre stay exactly the gap apart while the upper edge is not above the screen |
| Entities.PipePair.constructor | fluppy/entities.py:23-45 | the chosen variants' masks (the upper one flipped), both halves placed around the gap at column `x`, not passed, sway phase 0 |
| Entities.PipePair.Update | fluppy/entities.py:47-57 | `x` moves left by speed·dt and both halves' centres follow `int(x)`; a swaying pair advances its phase and re-places both halves around the swayed centre; without sway the rows stay; `passed` is untouched |
| Entities.PipePair.StaysOffscreen | fluppy/entities.py:47-64 | `is_offscreen` (the lower half's right edge left of -10) stays true once true: a pair moving left at a non-negative speed, centred on `int(x)`, never comes back |
| Entities.PipePair.CollidesWith | fluppy/entities.py:66-73 | a hit exactly when the bird's drawn mask shares an opaque screen pixel with the upper or the lower half |
| Entities.RemoveFirst | fluppy/app.py:155 | `list.remove` drops exactly one element |
| Entities.RemoveFirstAt | fluppy/app.py:155 | removing an element that does not occur earlier drops exactly its position |
| Entities.ListStep | fluppy/app.py:152-156 | one pass over a list without repeats keeps the pair or removes exactly that pair from the live list |
| Entities.SurvivingIsFilter | fluppy/app.py:152-156 | the surviving list holds exactly the pairs not off screen, and no more pairs than before |
| Entities.KeptIsSurviving | fluppy/app.py:152-156 | dropping the pairs whose state is off screen is the surviving filter |
| Entities.SurvivingDistinct | fluppy/app.py:152-156 | filtering keeps the pairs distinct |
| Entities.FlipsCountsRaisedFlags | fluppy/app.py:157-159 | the flip count is zero exactly when no latch went up, and is full exactly when every latch went up |
| App.Points | fluppy/app.py:160 | `n` point cues in a row |
| App.PointsAdd | fluppy/app.py:157-160 | two runs of point cues are one run of their total |
| App.CheckOutcomeEndsRound | fluppy/app.py:167-191 | in `CheckOutcome`, the outcome of the collision checks, the round ends exactly when the bird is at or above the ceiling, at or below the ground line or in a pair; a round that goes on keeps the bird strictly between the two with the log as it was; an ending adds a hit cue, then a death cry exactly for the ground |
| App.MinCenter | fluppy/app.py:85 | the lowest spawn centre is the larger of the 180-pixel margin and half the gap |
| App.MaxCenter | fluppy/app.py:86 | with an even gap, a pair spawned at the highest centre has its lower half's top edge on the ground line |
| App.SpawnedGapOnScreen | fluppy/app.py:83-87 | a centre drawn from the spawn range lies at or below the margin, and its whole gap lies between the top of the screen and the ground |
| App.MarginBoundsCenterOnly | fluppy/app.py:83-87 | with gap 260 the lowest centre, 180, puts the gap's upper edge 50 pixels below the top, above the margin |
| App.KeywordProblem | fluppy/app.py:88-97 | no problem exactly when every keyword names a parameter left unbound; otherwise an unknown or already-bound keyword |
| App.Bind | fluppy/app.py:88-97 | a call binds exactly when the positional arguments fit, every keyword names a parameter they left free, and every required parameter is covered |
| App.SpawnCallAsWrittenFails | fluppy/app.py:88-97 | the spawn call as written, with six positionals and the sway keywords, raises TypeError for `sway_amplitude` |
| App.SpawnCallCorrectedBinds | fluppy/app.py:88-97 | without the two stray positionals the call binds |
| App.AllSteppedMeans | fluppy/app.py:152-160 | the whole-list step holds exactly when each pair stepped |
| App.PassStep | fluppy/app.py:152-160 | one pass keeps the loop's account of the live list, the score, the best score and the cues |
| App.WalkDone | fluppy/app.py:152-160 | after the last pass the account covers the whole list |
| App.PassDone | fluppy/app.py:151-160 | after the loop the live list is the on-screen filter of the old one: distinct, with the same sway, holding exactly the old pairs not off screen; as values, `PassOver` then ties the walked list, the states before and after, the live list and the points gained |
| App.FluppyGame.constructor | fluppy/app.py:17-37 | the game applies the difficulty, builds the bird at a quarter width and half height, and starts waiting with no score and no pairs, all bands at rest |
| App.FluppyGame.Reset | fluppy/app.py:69-80 | waiting, score 0, timer 0, no pairs; the best score is kept or zeroed as asked; the bird is at its start and every band at rest |
| App.FluppyGame.SpawnPipe | fluppy/app.py:82-98 | one fresh pair is appended at the end, built from the draw with the difficulty's gap and sway (`SpawnedFrom`); the list of pair states gains exactly the spawn state; the rest of the list is unchanged |
| App.FluppyGame.OnFlapRequest | fluppy/app.py:110-119 | waiting: start playing, flap, swoosh; playing: flap, wing; crashed: reset keeping the best score; the phase moves only along `Move` |
| App.FluppyGame.ScrollBackground | fluppy/app.py:145-149 | the sky, every layer and the ground each moved one tick |
| App.FluppyGame.IncrementScore | fluppy/app.py:162-165 | the score grows by the amount and the best score is the larger of the old best and the new score |
| App.FluppyGame.TriggerGameOver | fluppy/app.py:187-191 | the round is over; a hit cue, then a death cue if it was the ground |
| App.FluppyGame.StepPipe | fluppy/app.py:153-158 | the pair moves one tick and its latch goes up exactly when it is newly passed and still on screen; no other pair changes |
| App.FluppyGame.SettlePipe | fluppy/app.py:154-160 | a pair off screen is removed from the live list and cannot score; otherwise a newly passed pair adds a point and a point cue |
| App.FluppyGame.UpdatePipe | fluppy/app.py:152-160 | one pass over one pair: it steps, then it is removed or it scores, as its new state says |
| App.FluppyGame.WalkPipe | fluppy/app.py:152-160 | one pass keeps the loop's account |
| App.FluppyGame.UpdatePipeList | fluppy/app.py:152-160 | the loop over the copy leaves the account complete for the whole old list |
| App.FluppyGame.UpdatePipes | fluppy/app.py:151-160 | every old pair stepped from its state in `before` to its state in `after`; the live list is the old one without the pairs now off screen; the score grew by the `gained` latches that went up, with one point cue each, and the best score followed it |
| App.FluppyGame.CheckCollisions | fluppy/app.py:167-185 | ceiling first (top clamped to 0, stopped, crash without death cue), then ground (bottom clamped to the ground line, crash with death cue), then any pair sharing a pixel with the sprite (crash); otherwise nothing changes; the bird, phase and log become `CheckOutcome` of what it found |
| App.FluppyGame.TickSpawnTimer | fluppy/app.py:136-139 | the timer gains dt; reaching the spawn interval resets it and appends exactly one fresh pair at the end, built from the draw as `SpawnPipe` builds it; otherwise the list is unchanged; the bird, phase and log are untouched |
| App.FluppyGame.MoveScene | fluppy/app.py:140-141 | the bird flew one tick and the background scrolled one tick; no pair changed |
| App.FluppyGame.StepWorld | fluppy/app.py:140-142 | the bird flew and the background scrolled; then the pipe pass: every pair stepped, the live list kept exactly the pairs not off screen, the score grew by the latches that rose, with a point cue per point |
| App.FluppyGame.AdvancePlay | fluppy/app.py:140-143 | the background scrolled and the bird animated; the pipe pass as in StepWorld; the checks found the bird where one flight tick (`Flown`) put it, and leave the game as `CheckOutcome` says, so the round ends exactly at the ceiling, on the ground or in a pair |
| App.FluppyGame.UpdatePlay | fluppy/app.py:135-143 | the spawn timer, then the pass over the old list with the drawn pair appended exactly when the spawn was due; then the flight and the collision outcome as in AdvancePlay; every live pair is old or new and on screen |
| App.FluppyGame.Update | fluppy/app.py:123-133 | waiting: the bird bobs and the background scrolls, with the round untouched; crashed: the background scrolls and the bird falls, with the round untouched; playing: the walked list, the pass from the pairs' states at the start of the tick (with the spawn state appended when due), the live list as the old pairs not off screen plus fresh ones, the score and the collision outcome of UpdatePlay, so the round ends exactly when the bird meets the ceiling, the ground or a pair |
| Standalone.SpawnedGapOnScreen | game.py:310-313 | a centre drawn from [180, ground top - 180] keeps both gap edges at least 50 pixels from the top and from the ground, the gap exactly apart |
| Standalone.CheckOutcomeEndsRound | game.py:370-392 | the ceiling never ends the round: in `CheckOutcome` the round ends exactly when the bird, once clamped at the ceiling, is at or below the ground line or in a pair; a round that goes on keeps the bird at or below the top and above the ground with the log as it was, and a bird that was at the ceiling is stopped; an ending adds a hit cue, then a death cry exactly for the ground |
| Standalone.FluppyGame.constructor | game.py:198-215 | a waiting round with no score and no pairs, the bird at its start |
| Standalone.FluppyGame.Reset | game.py:299-308 | waiting, score 0, timer 0, no pairs, best score kept, bird at its start, every band at rest |
| Standalone.FluppyGame.SpawnPipe | game.py:310-314 | one fresh non-swaying pair is appended at the end at SPAWN_X around the drawn centre with gap 260 (`SpawnedFrom`); the list of pair states gains exactly the spawn state |
| Standalone.FluppyGame.OnFlapRequest | game.py:322-331 | waiting: start playing, flap, swoosh; playing: flap, wing; crashed: reset; the phase moves only along `Move` |
| Standalone.FluppyGame.ScrollBackground | game.py:352-355 | every layer and the ground moved one tick; the sky did not |
| Standalone.FluppyGame.StepPipe | game.py:358-363 | the pair moves one tick and its latch goes up exactly when it is newly passed and still on screen |
| Standalone.FluppyGame.SettlePipe | game.py:359-367 | a pair off screen is removed; otherwise a newly passed pair adds a point, lifts the best score and asks for a point cue |
| Standalone.FluppyGame.UpdatePipe | game.py:358-367 | one pass over one pair: it steps, then it is removed or it scores |
| Standalone.FluppyGame.WalkPipe | game.py:358-367 | one pass keeps the loop's account |
| Standalone.FluppyGame.UpdatePipeList | game.py:358-367 | the loop over the copy leaves the account complete for the whole old list |
| Standalone.FluppyGame.UpdatePipes | game.py:357-367 | every old pair stepped from `before` to `after`; the live list is the old one without the pairs off screen; the score grew by the `gained` latches raised, with one cue each |
| Standalone.FluppyGame.TriggerGameOver | game.py:388-392 | the round is over; a hit cue, then a death cue if it was the ground |
| Standalone.FluppyGame.ClampAtCeiling | game.py:373-376 | a bird at or above the top is clamped there and stopped; the round goes on |
| Standalone.FluppyGame.CheckGroundAndPipes | game.py:377-386 | the ground clamps the bird and ends the round with a death cue; otherwise a pair sharing a pixel with the bird ends it |
| Standalone.FluppyGame.CheckCollisions | game.py:370-386 | the ceiling only clamps and stops the bird; then ground or pipe contact at the clamped place ends the round; the bird, phase and log become `CheckOutcome` of what it found |
| Standalone.FluppyGame.TickSpawnTimer | game.py:339-342 | the timer gains dt; reaching 1600 ms resets it and appends exactly one fresh pair at the end, built as `SpawnPipe` builds it; otherwise the list is unchanged; the bird, phase and log are untouched |
| Standalone.FluppyGame.MoveScene | game.py:343-344 | the bird flew one tick and the layers and ground scrolled; no pair changed |
| Standalone.FluppyGame.StepWorld | game.py:343-345 | the bird flew and the layers and ground scrolled; then the pipe pass: every pair stepped, the live list kept exactly the pairs not off screen, the score grew by the latches raised |
| Standalone.FluppyGame.AdvancePlay | game.py:343-346 | the layers and ground scrolled and the bird animated; the pass as in StepWorld; the checks found the bird where one flight tick put it and leave the game as `CheckOutcome` says (`Checked`), so the round ends exactly on ground or pipe contact after the ceiling clamp |
| Standalone.FluppyGame.UpdatePlay | game.py:338-347 | the spawn timer, then the pass over the old list with the drawn pair appended exactly when the spawn was due; then the flight and the collision outcome as in AdvancePlay; every live pair is old or new and on screen |
| Standalone.FluppyGame.Update | game.py:333-350 | waiting: bob and scroll with the round untouched; crashed: scroll and fall with the round untouched; playing: the walked list, the pass from the pairs' states at the start of the tick (with the spawn state appended when due), the live list as the old pairs not off screen plus fresh ones, the score and the collision outcome of the playing branch |

## Left out

- Loading images, sounds and fonts (`fluppy/assets.py`, the standalone's `_load_*` helpers), `draw`, `_draw_hud`, music, `handle_input`'s event decoding, and the frame loop in `fluppy/main.py`. These are I/O and rendering. `fluppy/main.py`, `fluppy/assets.py` and `scripts/build_pyinstaller.py` are not part of this model.
- The constructors take the loaded parts as parameters: bird frame sizes, the death frame, the background bands, the pipe variants and the sprite-to-mask map. In the standalone game `_load_background_layers` builds the sky as a side effect; here the sky is a parameter.
- `_play_sound` skips sounds that failed to load. The `sfx` log records every request, whether or not a sound exists.
- pygame internals: the pixels of `transform.rotozoom` are not modelled. A sprite records which frame is shown and at what angle. Its mask comes from the `maskOf` parameter.
- `math.sin` and `random` are parameters, so the model proves nothing about their distribution.
- Floating point: `real` arithmetic is exact, so no result depends on rounding.
- `Difficulty.Lower`: lower-cases ASCII letters only. Python's `str.lower` also folds other alphabets, but no key contains such letters.
- App.FluppyGame.SpawnPipe: models the evidently intended call (sway by keyword). The call as written raises TypeError; see Findings.
- App.FluppyGame.Update: a spawn tick requires the random draw to lie in the spawn range. Python's `randint` raises ValueError when that range is empty (a ground band taller than the screen allows); that error path is not modelled. Ticks that do not spawn require nothing of the draw. The same holds for `Standalone.FluppyGame.Update`.
- App.FluppyGame.AdvancePlay: the pairs' states after the pass (`after`) decide the live list and the points, but the contract does not restate that they are the pairs' current states. `App.FluppyGame.StepWorld` states it, and the collision checks change no pair.
- App.FluppyGame.UpdatePlay: as for `App.FluppyGame.AdvancePlay`, `after` is not restated as the pairs' current states. A pair appended by the spawn is described by its build (`BuiltFrom`) and its state before the pass, not by its state now.
- App.FluppyGame.Update: for PLAYING it states the walked list, the pass from the pairs' states at the start of the tick, the live list, the score and the collision outcome. The bird's animation, the background scroll, the spawn timer and the new pair's build are stated only by `App.FluppyGame.UpdatePlay`.
- Standalone.FluppyGame.AdvancePlay: as for `App.FluppyGame.AdvancePlay`, `after` is not restated as the pairs' current states.
- Standalone.FluppyGame.UpdatePlay: as for `App.FluppyGame.UpdatePlay`.
- Standalone.FluppyGame.Update: as for `App.FluppyGame.Update`: in PLAYING the animation, scroll, timer and build facts are stated only by `Standalone.FluppyGame.UpdatePlay`.
- App.FluppyGame.constructor: `configure_for_difficulty` (fluppy/app.py:60-67) is modelled only as the constructor's call. The settings, the sway pair and the bird are `const` fields here. A later call, which re-applies the difficulty and rebuilds the bird while the best score stays, cannot be expressed.
- Entities.SwayGapIsExact: exact only while the upper edge is not above the screen. Truncation toward zero can shift the two edges differently across y = 0.
- Entities.ScrollRunCovers: covers runs whose every scroll is at most one band-width. `Entities.LongScrollLeavesGap` shows that a longer single tick does leave a gap.
- Entities.BobStaysBounded: holds for equal-length ticks. `Entities.BobCanDriftWithUnevenTicks` shows the bob can drift when tick lengths vary.
- Unused settings (FPS, font sizes, asset names and clip rectangles, music volume, ground target height) carry no behaviour of the simulation and are not modelled.
- The standalone game's constants (game.py:11-20, 50-51) have the same values as `fluppy/settings.py`, so `Settings` serves both.

Behaviour of the code worth knowing when reading the model:

- The 180-pixel spawn margin bounds only the gap's centre (fluppy/app.py:83-87). `App.MarginBoundsCenterOnly` shows the gap's upper edge can sit 50 pixels from the top.
- `resolve_difficulty` stores the resolved name in `settings.DIFFICULTY`. For an invalid stored name it falls back to the first key, "easy", and not to the module's own initial value "normal" (fluppy/settings.py:74, fluppy/difficulty.py:30-32).
- `fluppy/app.py` ends the round at the ceiling (fluppy/app.py:171-176). `game.py` only clamps the bird there and goes on to the ground and pipe checks (game.py:373-386). Each controller is modelled as written.

## Findings

| source | as written | input that shows it | evidently intended | confidence | as-written member | corrected member |
|---|---|---|---|---|---|---|
| fluppy/app.py:88-97 | `spawn_pipe` passes `min_center` and `max_center` as fifth and sixth positional arguments, then `sway_amplitude=` and `sway_speed=` by keyword, to `PipePair(variants, x, gap_y, gap, sway_amplitude=0, sway_speed=0.0)` | the first spawn of any round: the fifth positional already binds `sway_amplitude`, so the keyword raises TypeError (multiple values for argument 'sway_amplitude') | pass the four required arguments positionally and the sway parameters by keyword | high; not executed | App.SpawnCallAsWrittenFails | App.SpawnCallCorrectedBinds, App.FluppyGame.SpawnPipe |
