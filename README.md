# Flappy Bird game engine, in Dafny

This project models the game engine inside the WinForms game `FlappyBird.cs`, with the
drawing, sound, file and timer plumbing taken away:

- **Difficulty table** (`Difficulty`): the Easy, Normal and Hard settings (pipe gap,
  spacing, starting pipe speed, speed-up period and speed-up step).
- **Bird** (`BirdPhysics`): asymmetric gravity, the jump cut when the key is released while
  rising, drag, the velocity clamp to [-12, 8], the velocity-driven tilt in [-20°, 90°] and
  the 5-pixel inset hitbox. The pure step functions `Fly` and `Flap` specify the `Bird`
  class, whose `Update` and `Jump` change its fields in place.
- **Pipes** (`Pipes`, `PipeManagement`): the pure rules are in `Pipes`. They cover spawning,
  the speed ramp, the uniform move, removal of off-screen pipes, the spawn rule, exactly-once
  scoring and the collision test. The `PipeManager` class holds the live list and is proved
  to apply exactly these rules with its loops.
- **Score board** (`ScoreBoard`): the top-5 list, kept as "sort descending, take five"
  after every run and after loading. The best score moves only on a strict improvement.
- **Crash effects** (`Effects`): the 20-particle burst, the backward in-place particle
  update and the 20-tick screen shake.
- **Session** (`Session`): the `FlappyBirdGame` form as a state machine. Key presses and
  button clicks are turned into commands by two tables, `KeyCommand` and `ClickCommand`,
  and `Perform` carries them out. `Tick` is the timer tick.

Random draws are parameters. The pipe top heights are `rolls`, each in
`[120, max(121, height - 280))`. The particle velocities are `draws`, pairs of numbers in
[0, 1). The timer is the boolean `timerRunning`. The class invariant `Valid` ties it to the
screen: the timer runs exactly while playing.

The model reproduces these behaviours of the code:

- **The gap is always 160.** The pipe constructor computes `TopHeight` and `BottomY` with
  the `Gap` field's default of 160. The difficulty's gap is written to the field only
  afterwards, so it never reaches the collision rectangles. `GapsAsBuilt` states this and
  `PipeManager.Valid` keeps it.
- **The first pipes assume an 800×600 window.** A new pipe manager lays out its first four
  pipes for 800×600, because the real window size is set only after construction.
- **`IsOffScreen` ignores its width argument.** It tests only the fixed edge
  `X + 70 < -50`.
- **The crash tick records the old score.** On that tick the best score and the top-5 list
  receive the score from before the tick's `GetScore`, which still runs afterwards.
- **The crash particles move once on the crash tick.** They are spawned during that tick and
  drift in the same tick. The shake counter is set to 20 and the same tick takes it to 19.

A top height can be 120, because `Random.Next`'s lower bound is inclusive. The top-5 list
keeps equal scores, since `OrderByDescending` followed by `Take` does not drop ties.

## Model

| member | source | states |
|---|---|---|
| `Geometry.Clamp` | FlappyBird.cs:117 | `Max(lo, Min(v, hi))` lies in [lo, hi], is `v` inside the interval and the violated bound outside it |
| `Geometry.ClampMonotone` | FlappyBird.cs:117 | clamping preserves order |
| `Geometry.IntersectsWithSymmetric` | FlappyBird.cs:429 | the strict overlap test used by `CheckCollision` is symmetric |
| `Difficulty.DefaultNormal` | FlappyBird.cs:53-56 | the Normal settings (160, 280, 2.5, 10, 0.2) are all positive |
| `Difficulty.For` | FlappyBird.cs:40-51 | every tier's settings are positive, Normal is `DefaultNormal`, Easy is no harder than Normal on any axis and Hard no easier |
| `BirdPhysics.NextVelocity` | FlappyBird.cs:106-117 | the velocity after gravity, drag and the clamp lies in [-12, 8] |
| `BirdPhysics.Rotation` | FlappyBird.cs:123-127 | the tilt lies in [-20, 90], and is -20 at or below velocity -12 and 90 at or above 8 |
| `BirdPhysics.Fly` | FlappyBird.cs:104-128 | one update keeps x and costume, leaves velocity and tilt in range, and moves y by exactly the new velocity |
| `BirdPhysics.Flap` | FlappyBird.cs:130-134 | a jump sets an upward velocity within the clamp and keeps position and tilt |
| `BirdPhysics.GetBounds` | FlappyBird.cs:267-270 | the hitbox lies 5 inside the 35×35 sprite on every side, a 25×25 square |
| `BirdPhysics.VelocityBounded` | FlappyBird.cs:115-127 | after any update the velocity is in [-12, 8] and the tilt is the map of that velocity |
| `BirdPhysics.RotationReferencePoints` | FlappyBird.cs:123-127 | velocity -12 maps to -20°, 8 to 90° and -2 to 35° |
| `BirdPhysics.RotationMonotone` | FlappyBird.cs:123-127 | the tilt never decreases as the velocity grows |
| `BirdPhysics.JumpCut` | FlappyBird.cs:108-113 | releasing the key while rising never gives a more upward velocity, strictly less upward unless clamped; while falling the key does not matter |
| `BirdPhysics.NextVelocityMonotone` | FlappyBird.cs:106-117 | the velocity update preserves order |
| `BirdPhysics.TerminalVelocity` | FlappyBird.cs:115-117 | a bird falling at the cap of 8 stays at the cap |
| `BirdPhysics.Bird.constructor` | FlappyBird.cs:97-102 | a new bird is at the given point, at rest, with the given costume |
| `BirdPhysics.Bird.Update` | FlappyBird.cs:104-128 | the fields become `Fly` of the old fields, so velocity and tilt are in range |
| `BirdPhysics.Bird.Jump` | FlappyBird.cs:130-134 | the fields become `Flap` of the old fields |
| `Pipes.TopHeightLimit` | FlappyBird.cs:287 | the exclusive bound `max(121, height - 160 - 120)` of the top-height draw |
| `Pipes.NewPipe` | FlappyBird.cs:284-289 | a new pipe is unscored at the given x, its top height is in [120, bound - 1], its opening is 160 and its gap field is the configured gap |
| `Pipes.BoundsFrameTheGap` | FlappyBird.cs:330-338 | both collision rectangles are inset 5 from the pipe's sides and leave open exactly the band from TopHeight to BottomY |
| `Pipes.GapPassage` | FlappyBird.cs:330-338 | a box within the window's vertical reach hits a pipe iff it overlaps the inset column and leaves the open band |
| `Pipes.InsideEveryGapIsSafe` | FlappyBird.cs:420-436 | a box inside every pipe's open band collides with nothing |
| `Pipes.MoveAllUniform` | FlappyBird.cs:393-397 | every pipe moves left by the current speed, takes it as its speed and keeps every other field |
| `Pipes.SurvivorsMembership` | FlappyBird.cs:400-401 | a pipe survives removal iff it was in the list and is not off screen, and the list never grows |
| `Pipes.SurvivorsAppend` | FlappyBird.cs:400-401 | removal distributes over concatenation, so survivors keep their relative order |
| `Pipes.SurvivorsKeepAllOnScreen` | FlappyBird.cs:400-401 | nothing is removed when no pipe is off screen |
| `Pipes.RecycleRule` | FlappyBird.cs:399-409 | the survivors come first in order; exactly one pipe is appended, at width + 50 and unscored, iff the list is empty or the last pipe is left of width - spacing; the list is never empty |
| `Pipes.RecycledKeepsGaps` | FlappyBird.cs:393-409 | moving and recycling keep every pipe's gap field and its 160 opening, and leave a non-empty list |
| `Pipes.UpdateKeepsIdentities` | FlappyBird.cs:393-401 | every surviving pipe is on screen and is an old pipe moved by the current speed, with its old `Scored` flag |
| `Pipes.InitialPipes` | FlappyBird.cs:373-382 | a fresh pipeline has exactly four pipes |
| `Pipes.InitialLayout` | FlappyBird.cs:373-382 | the four pipes sit at width + i * spacing, one spacing apart, with top heights in range, openings of 160 whatever the gap, and no score |
| `Pipes.RampRatchets` | FlappyBird.cs:387-392 | the speed never drops; it grows by exactly the delta, with the timer reset to 0, on exactly the ticks where the timer reaches the period |
| `Pipes.RampWithinPeriod` | FlappyBird.cs:387-392 | over a period of m ticks the timer counts up one tick at a time and the speed-up happens on the m-th tick |
| `Pipes.RampAfterCompose` | FlappyBird.cs:387-392 | a + b ramp steps are a steps followed by b steps |
| `Pipes.EasyRampScenario` | FlappyBird.cs:387-392 | on Easy the speed is still 2.2 after 749 ticks, 2.35 after 750 (12 s) and 2.5 after 1500 |
| `Pipes.NewlyPassed` | FlappyBird.cs:438-451 | the number of pipes newly scored is at most the number of pipes |
| `Pipes.NewlyPassedAppend` | FlappyBird.cs:440-448 | the count of newly scored pipes distributes over concatenation |
| `Pipes.MarkAllFlags` | FlappyBird.cs:440-448 | scoring sets exactly the flags of passed, unscored pipes (x + 70 < 120), never clears a flag and changes no other field |
| `Pipes.ScoreCountsNewFlags` | FlappyBird.cs:438-451 | the score grows by exactly the number of flags set |
| `Pipes.ScoringIdempotent` | FlappyBird.cs:438-451 | a second scoring pass adds nothing and changes nothing |
| `Pipes.ScoreOncePerPipe` | FlappyBird.cs:442 | a pipe at x = 115 is not yet scored; once past the line it scores once and then never again |
| `PipeManagement.PipeManager.constructor` | FlappyBird.cs:360-371 | a new manager uses an 800×600 window, the tier's speed and spacing, score 0, timer 0, and the four-pipe layout for 800×600 |
| `PipeManagement.PipeManager.InitializePipes` | FlappyBird.cs:373-382 | the loop replaces the list by the four-pipe layout and changes nothing else |
| `PipeManagement.PipeManager.Update` | FlappyBird.cs:384-410 | the ramp steps, and the list becomes the recycled list of the moved pipes; the invariant is kept |
| `PipeManagement.PipeManager.MovePipes` | FlappyBird.cs:393-397 | the loop moves every pipe by the current speed |
| `PipeManagement.PipeManager.CheckCollision` | FlappyBird.cs:420-436 | true iff the bird's hitbox strictly overlaps the top or bottom rectangle of some pipe, so false with no pipes |
| `PipeManagement.PipeManager.GetScore` | FlappyBird.cs:438-451 | the flags of passed, unscored pipes are set, the score grows by their number and is returned |
| `PipeManagement.PipeManager.SetWindowSize` | FlappyBird.cs:453-457 | the window size changes and nothing else does |
| `PipeManagement.PipeManager.Reset` | FlappyBird.cs:459-465 | score 0, base speed, timer 0 and a fresh four-pipe layout for the current window |
| `ScoreBoard.SortDescending` | FlappyBird.cs:1254 | the sorted list is non-increasing and as long as the input |
| `ScoreBoard.Take` | FlappyBird.cs:1254 | `Take(k)` is the prefix of length `min(k, n)` |
| `ScoreBoard.TopFive` | FlappyBird.cs:1254 | the kept list has at most five scores, exactly five unless there were fewer, and is non-increasing |
| `ScoreBoard.RaisedHighScore` | FlappyBird.cs:569-573 | the best score changes iff the run's score is strictly larger, and then becomes it |
| `ScoreBoard.ParsedScores` | FlappyBird.cs:1231-1235 | loading keeps at most one value per line |
| `ScoreBoard.DescendingOrderIsUnique` | FlappyBird.cs:1254 | two non-increasing lists with the same elements are equal, so the sort is `OrderByDescending` |
| `ScoreBoard.SortKeepsElements` | FlappyBird.cs:1254 | sorting keeps every score as often as it occurs |
| `ScoreBoard.SortedIsFixed` | FlappyBird.cs:1254 | sorting a non-increasing list changes nothing |
| `ScoreBoard.TopFiveKeepsElements` | FlappyBird.cs:1254 | the kept scores come from the input, and all of them are kept when there are at most five |
| `ScoreBoard.TopFiveKeepsLargest` | FlappyBird.cs:1254 | every dropped score is at most every kept score |
| `ScoreBoard.RecordRunMatchesFullHistory` | FlappyBird.cs:1251-1256 | recording a run on the trimmed list gives the top five of the whole history plus the run |
| `ScoreBoard.RecordRunBelowCapacity` | FlappyBird.cs:1251-1256 | below five scores, recording a run keeps all scores in descending order |
| `ScoreBoard.RecordRunNewBest` | FlappyBird.cs:1251-1256 | below five scores, a score at least the best goes to the front |
| `ScoreBoard.RecordRunNewWorst` | FlappyBird.cs:1251-1256 | below five scores, a score at most the worst goes to the back |
| `ScoreBoard.ParsedScoresOfSaved` | FlappyBird.cs:1242-1248 | parsing the saved lines gives back the list |
| `ScoreBoard.SaveLoadRoundTrip` | FlappyBird.cs:1225-1248 | saving a valid top list and loading it back gives the same list |
| `ScoreBoard.ParsedScoresMembership` | FlappyBird.cs:1231-1235 | a value is loaded iff some line parses to it |
| `Effects.Drift` | FlappyBird.cs:837-840 | a particle step keeps the horizontal velocity and loses life |
| `Effects.Burst` | FlappyBird.cs:816-830 | one particle per draw pair |
| `Effects.Countdown` | FlappyBird.cs:599-600 | the shake counter drops by one while positive and stays otherwise |
| `Effects.DecayMembership` | FlappyBird.cs:832-845 | a particle is kept iff its drifted life is positive and it is the drift of an old particle; the list never grows |
| `Effects.DecayAppend` | FlappyBird.cs:832-845 | the update distributes over concatenation, so walking backwards and removing in place keeps the order |
| `Effects.BurstShape` | FlappyBird.cs:820-826 | every burst particle starts at the centre with life 1, horizontal velocity in [-3, 3) and vertical velocity in (-6, 0] |
| `Effects.AgedClosedForm` | FlappyBird.cs:837-840 | after n steps a particle has moved along the parabola and lost n * 0.03 life |
| `Effects.LoneParticleAges` | FlappyBird.cs:832-845 | while its life stays positive a particle is kept and aged once per update |
| `Effects.BurstParticleLifetime` | FlappyBird.cs:826-844 | a crash particle survives 33 updates and is removed by the 34th |
| `Effects.DecayTimesShift` | FlappyBird.cs:832-845 | n + 1 updates are n updates followed by one |
| `Effects.AgedStep` | FlappyBird.cs:837-840 | n + 1 drifts are n drifts followed by one |
| `Effects.ShakeWindsDown` | FlappyBird.cs:599-600 | the shake counter goes down by one per tick and then stays at 0 |
| `Session.TierKey` | FlappyBird.cs:619-633 | exactly the keys 1 to 3 choose a difficulty |
| `Session.CostumeKey` | FlappyBird.cs:643-670 | exactly the keys 1 to 7 choose a costume, 1 the classic one |
| `Session.KeyKeepsTimerInvariant` | FlappyBird.cs:607-718 | every key keeps "the timer runs exactly while playing" |
| `Session.ClickKeepsTimerInvariant` | FlappyBird.cs:889-936 | every click keeps "the timer runs exactly while playing" |
| `Session.TablesIssueOnlyIssuable` | FlappyBird.cs:607-718 | the key and click tables issue only commands their screen can carry out |
| `Session.WaysIntoPlay` | FlappyBird.cs:640-713 | play is entered only by a costume key, Space or Enter after game over, Escape or R in pause, or the restart and resume buttons |
| `Session.EscapeBacksOut` | FlappyBird.cs:607-718 | Escape pauses and resumes play, returns to the main menu from the other screens and does nothing on the main menu |
| `Session.OnlySpaceFlaps` | FlappyBird.cs:677-683 | a key makes the bird jump iff it is Space during play |
| `Session.MenuToPlay` | FlappyBird.cs:611-670 | Enter, a difficulty key and a costume key lead from the main menu into play |
| `Session.EscapeTwiceResumes` | FlappyBird.cs:684-707 | Escape twice during play pauses and resumes |
| `Session.FlappyBirdGame.constructor` | FlappyBird.cs:511-548 | main menu with the timer stopped, Normal and Classic, the client size as given, a bird at rest at (150, 300), a Normal pipeline told the client size but holding the four pipes laid out for 800×600 at speed 2.5 with the ramp timer at 0, the saved best score if it parses and the loaded top list; the invariant holds |
| `Session.FlappyBirdGame.LoadHighScore` | FlappyBird.cs:1200-1214 | the best score becomes the saved one if it parses and is unchanged otherwise |
| `Session.FlappyBirdGame.LoadTopScores` | FlappyBird.cs:1225-1240 | a saved file gives the top five of its parsed lines; no file leaves the list |
| `Session.FlappyBirdGame.UpdateTopScores` | FlappyBird.cs:1251-1256 | the list becomes the top five of the old list plus the score |
| `Session.FlappyBirdGame.StartScreenShake` | FlappyBird.cs:860-863 | the shake counter becomes 20 |
| `Session.FlappyBirdGame.SpawnParticles` | FlappyBird.cs:816-830 | the loop appends the burst centred on the bird's sprite |
| `Session.FlappyBirdGame.UpdateParticles` | FlappyBird.cs:832-845 | the backward loop with in-place removal yields `Decay` of the old list |
| `Session.FlappyBirdGame.StartGame` | FlappyBird.cs:729-738 | playing with the timer on, score 0, a fresh bird at (150, 300) in the chosen costume and a fresh pipeline for the chosen tier |
| `Session.FlappyBirdGame.RestartGame` | FlappyBird.cs:740-743 | the same as starting a game |
| `Session.FlappyBirdGame.Perform` | FlappyBird.cs:607-718 | screen and timer follow the command, a start replaces bird and pipeline, a jump flaps the bird, nothing else changes, and the invariant is kept |
| `Session.FlappyBirdGame.ShowScreen` | FlappyBird.cs:611-616 | a menu switches to the main menu or the difficulty screen |
| `Session.FlappyBirdGame.ChooseTier` | FlappyBird.cs:619-633 | the chosen difficulty is stored and the costume screen follows |
| `Session.FlappyBirdGame.ChooseCostume` | FlappyBird.cs:643-670 | the chosen costume is stored and a run starts with it |
| `Session.FlappyBirdGame.JumpNow` | FlappyBird.cs:678-683 | the bird flaps and the jump is held |
| `Session.FlappyBirdGame.PauseGame` | FlappyBird.cs:684-688 | pause screen, timer stopped |
| `Session.FlappyBirdGame.ResumeGame` | FlappyBird.cs:703-707 | play again, timer started |
| `Session.FlappyBirdGame.KeyDown` | FlappyBird.cs:607-718 | the key table's command for the current screen is carried out; Space during play flaps the bird, and a key that neither flaps nor starts a run leaves the bird as it was; the invariant is kept |
| `Session.FlappyBirdGame.KeyUp` | FlappyBird.cs:720-727 | releasing Space ends the held jump, other keys change nothing |
| `Session.FlappyBirdGame.MouseDown` | FlappyBird.cs:889-936 | the click table's command for the current screen is carried out; a click that does not start a run leaves the bird as it was; the invariant is kept |
| `Session.FlappyBirdGame.Resize` | FlappyBird.cs:1195-1198 | the client size and the pipe manager's window size become the new size; the pipes, the score, the current speed and the ramp timer are unchanged |
| `Session.FlappyBirdGame.EndRun` | FlappyBird.cs:560-577 | game over with the timer stopped, shake 20, the burst added, the best score raised on a strict improvement and the score recorded in the top list |
| `Session.FlappyBirdGame.UpdateEffects` | FlappyBird.cs:599-601 | the shake counter counts down and the particles are updated; every particle left is alive |
| `Session.FlappyBirdGame.Tick` | FlappyBird.cs:550-604 | a tick flies the bird, ramps and recycles the pipes and scores them; it ends the run iff the bird hits a pipe or leaves [0, height - 80], recording the pre-tick score; the invariant is kept |
| `Session.FlappyBirdGame.PlayStep` | FlappyBird.cs:554-588 | the playing arm of a tick: move, crash check, scoring |
| `Session.FlappyBirdGame.Advance` | FlappyBird.cs:555-560 | the bird flies and the pipes move; the crash flag is the collision or boundary test on the new state |

## Left out

- Drawing, the costume colours, clouds, the ground, `backgroundOffset`, the shake offset jitter (`GetShakeOffset`) and the particle colours: rendering only.
- Sounds (`PlayJump`, `PlayScore`, `PlayHit`).
- Form setup (`InitializeComponent`), `Invalidate`, and the `Timer` object's scheduling. The timer is the flag `timerRunning`. `Tick` is called only while it runs, as the form's timer delivers no ticks when stopped.
- The exit button calls `Close` on the form. The model keeps the `Exit` command as a no-op on the session.
- Button rectangles and the `Contains` hit-test: a click arrives already resolved to the button it landed on (`Button`).
- Files. `SaveHighScore` and `SaveTopScores` write files and change no state, so they are not modelled. `LoadHighScore` and `LoadTopScores` take the file's content as already parsed: `None` for a missing file, and one `Option<int>` per line for `int.TryParse`. Exceptions swallowed by `catch` are not modelled.
- `System.Random`: the pipe top heights and the particle velocity draws are parameters constrained to their documented ranges.
- Single-precision rounding: all coordinates, velocities and timers are exact reals, so the 0.016 s timer accumulation is exact (12 s of Easy is exactly 750 ticks).
- 32-bit overflow of the score counters is not modelled.
- The null-settings fallback in the `PipeManager` constructor: the next line dereferences the argument anyway, and the model always passes a tier's settings.
- Pipes, particles and their lists are values held in `seq` fields. In the code each `Pipe` and `Particle` object is referenced only from its list, so no aliasing is lost.
- `Session.FlappyBirdGame.LoadTopScores`: the ensures for a missing file leaves the list unchanged. The constructor then starts from the empty list, as the code does.
