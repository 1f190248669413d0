# Gravity manipulation puzzle: gameplay state, modelled in Dafny

The game lets a player preview and apply a new direction of gravity. A
countdown timer runs, cubes are collected towards a target, and the game is
lost when the player falls away from the ground. This project models the parts
of those scripts that are plain integer, boolean or text state:

- the countdown timer's state machine (`countdown_timer.dfy`, module `Countdown`);
- the cube collector (`collector.dfy`, module `Collecting`);
- the free-fall detector (`free_fall_detector.dfy`, module `FreeFall`);
- the end-of-game manager (`game_manager.dfy`, module `Game`);
- the gravity-shift preview/apply/discard cycle and its closest-world-axis
  selection (`gravity_shift.dfy`, module `Gravity`);
- the two UI text formatters (`timer_ui.dfy`, `collector_ui.dfy`);
- the C# integer-to-text rules they rely on (`text.dfy`, module `Text`) and an
  `Option` type (`options.dfy`).

The components that update fields in place are classes with those fields:
`CountdownTimer`, `Collector`, `FreeFallDetector`, `GameManager` and
`GravityShift`. Engine queries become method parameters:

- the ground sphere query is a `bool` argument;
- the input action is a performed flag plus a 2D value;
- the camera's right vector and projected forward vector are inputs;
- `Vector3.Angle` is an abstract function argument `angle`.

UnityEvent listeners become an append-only `events` log on the class. The
timer, the collector and the manager also have a pure step function
(`Countdown.Step`, `Collecting.Trigger`, `Game.Apply`), and their class methods
are proved to follow it. `FreeFallDetector.CheckGround` is stated through the
per-frame predicate `FreeFall.Triggers` and a ghost count of its calls.
`GravityShift`'s methods state their new state directly. The multi-step properties are lemmas over its folds
(`Countdown.Run`, `Collecting.Replay`, `Game.ApplyAll`,
`FreeFall.GameOverCalls`).

The timer coroutine is modelled one resumption at a time, as `Tick`. A
resumption runs from the yield the coroutine was suspended at to its next
yield or to its end:

- a running, unpaused timer loses one second and reports it;
- if that leaves no time, the same resumption leaves the loop: remaining 0,
  not running, an update of 0, then completion;
- a paused timer does nothing.

So `StartTimer(n)` followed by `n` ticks reports `n-1, ..., 1, 0`, then `0`
again, then one completion. Time is left exactly while the coroutine is alive
(`Countdown.Live`), so a `StopTimer` after the last tick cannot swallow the
completion.

Unity's `Vector3 ==` is not exact equality. It holds when the squared distance
is below `1e-5 * 1e-5`, and the model uses that rule. An accepted preview input
therefore selects a new axis exactly when its nonzero component lies within
`1e-5` of plus or minus one (`Gravity.SelectingAcceptedInputs`). The four exact
unit inputs are among these. `(0, 0)` and `(0.5, 0)` are not.

The hologram's gravity direction starts as the zero vector, because C# fields
start at their defaults. A `(0, 0)` preview shows the hologram without aligning
it. Applying it straight after start-up therefore sets gravity to zero
(`Gravity.ApplyBeforeAnyAlignment`). Gravity stays on a world axis whenever an
alignment came before the apply (`Gravity.GravityShift.OnApplyGravityShift`).

## Model

| member | source | states |
|---|---|---|
| `Text.NatText` | Assets/_Scripts/UI/CollectorUI.cs:16 | the decimal text of a natural number is non-empty and all digits, with no leading zero except for 0 |
| `Text.IntText` | Assets/_Scripts/UI/CollectorUI.cs:16 | `int` interpolation: digits for non-negative values, a minus sign then digits for negative ones; a single digit below 10, so 0 is exactly "0", and no leading zero otherwise |
| `Text.PadTwoInt` | Assets/_Scripts/UI/TimerUI.cs:12 | the "00" format gives at least two characters: digits, after a minus sign for negative values; a leading zero only for magnitudes below 10 |
| `Text.PadTwo` | Assets/_Scripts/UI/TimerUI.cs:12 | "00" pads a non-negative value to at least two digits, to exactly its two digits below 100, with a leading zero only below 10 |
| `Text.PadTwoIntBelowHundred` | Assets/_Scripts/UI/TimerUI.cs:12 | between -100 and 100 the "00" format gives exactly the two digits of the magnitude, after a minus sign for negative values |
| `Text.NatTextRoundTrip` | Assets/_Scripts/UI/CollectorUI.cs:16 | reading back the decimal text of n gives n |
| `Text.IntTextRoundTrip` | Assets/_Scripts/UI/CollectorUI.cs:16 | parsing the interpolated text of any int gives the int back |
| `Text.PadTwoIntRoundTrip` | Assets/_Scripts/UI/TimerUI.cs:12 | parsing the "00"-formatted text of any int gives the int back |
| `TimerUi.TruncDiv` | Assets/_Scripts/UI/TimerUI.cs:10 | C#'s `/` truncates toward zero: the remainder left by the quotient has the dividend's sign and is smaller than the divisor |
| `TimerUi.TruncMod` | Assets/_Scripts/UI/TimerUI.cs:11 | C#'s `%` takes the dividend's sign: in [0, b) for a >= 0, in (-b, 0] for a < 0, and the negated Euclidean remainder of -a for negative a |
| `TimerUi.Fields` | Assets/_Scripts/UI/TimerUI.cs:10-11 | minutes * 60 + seconds equals the time, with C#'s truncating division; for t >= 0, 0 <= seconds < 60 and minutes >= 0 |
| `TimerUi.TimerText` | Assets/_Scripts/UI/TimerUI.cs:8-13 | the text always has at least five characters (the layout for t >= 0 is stated by TimerTextNonNegative) |
| `TimerUi.TimerTextRoundTrip` | Assets/_Scripts/UI/TimerUI.cs:10-12 | splitting the text at the colon and computing minutes * 60 + seconds gives back the time, for every int |
| `TimerUi.TimerTextNonNegative` | Assets/_Scripts/UI/TimerUI.cs:12 | for t >= 0 the text is the minutes padded to at least two digits, ":", and the seconds as exactly two digits |
| `TimerUi.TimerTextFiveChars` | Assets/_Scripts/UI/TimerUI.cs:10-12 | for 0 <= t < 6000 the text is exactly the five characters "MM:SS" |
| `TimerUi.TimerTextHundredMinutes` | Assets/_Scripts/UI/TimerUI.cs:10-12 | 6000 renders as "100:00" (the minutes field grows) and 125 as "02:05" |
| `CollectorUi.CollectedCountText` | Assets/_Scripts/UI/CollectorUI.cs:14-17 | the text always starts with the fixed prefix "Collected Cubes: " and is longer than prefix and separator together |
| `CollectorUi.CollectedCountTextRoundTrip` | Assets/_Scripts/UI/CollectorUI.cs:16 | stripping the prefix and splitting at " / " recovers both counts |
| `CollectorUi.CollectedCountTextInjective` | Assets/_Scripts/UI/CollectorUI.cs:16 | two pairs of counts with the same text are equal |
| `CollectorUi.CollectedCountTextExample` | Assets/_Scripts/UI/CollectorUI.cs:16 | (3, 10) renders as "Collected Cubes: 3 / 10" |
| `Countdown.Step` | Assets/_Scripts/CountdownTimer.cs:38-97 | a completion always comes right after an update of 0 and leaves the timer stopped at 0; a tick completes exactly when it ends a live coroutine; time is left exactly while the coroutine lives, and every operation keeps that |
| `Countdown.StartTimerEffect` | Assets/_Scripts/CountdownTimer.cs:38-50 | a non-positive duration changes nothing; a positive one sets remaining, clears paused and runs, the same from every prior state, emitting nothing |
| `Countdown.StopTimerEffect` | Assets/_Scripts/CountdownTimer.cs:55-67 | stopping leaves the timer stopped at 0 with exactly one update of 0 and no completion |
| `Countdown.TickEffect` | Assets/_Scripts/CountdownTimer.cs:72-97 | an unpaused tick of a live countdown takes off one second and reports the new value; the tick from 1 also ends the countdown in the same resumption, reporting 0, 0 and completion; a paused tick or a tick with no coroutine does nothing |
| `Countdown.CountdownFrom` | Assets/_Scripts/CountdownTimer.cs:74-96 | a running unpaused countdown from r > 0 ends after exactly r ticks, reporting r-1, ..., 0, 0 and completion |
| `Countdown.StartTimerRunsToCompletion` | Assets/_Scripts/CountdownTimer.cs:38-96 | StartTimer(n) and n or more ticks report n-1, ..., 1, 0, 0 and exactly one completion, from any prior state |
| `Countdown.StopAfterLastTick` | Assets/_Scripts/CountdownTimer.cs:55-96 | StartTimer(1), a tick, StopTimer and a tick report 0, 0, completion, 0: the stop comes after the completion and adds only its own update |
| `Countdown.StoppedTicksQuiet` | Assets/_Scripts/CountdownTimer.cs:92-96 | once the coroutine has ended, further ticks change and report nothing |
| `Countdown.NeverPaused` | Assets/_Scripts/CountdownTimer.cs:16-47 | no operation ever sets the paused flag: from an unpaused state it stays clear |
| `Countdown.StepKeepsBound` | Assets/_Scripts/CountdownTimer.cs:41-96 | every operation keeps 0 <= remaining <= the last successful StartTimer argument and time left exactly while the coroutine lives, and reports only values in that range |
| `Countdown.RunKeepsBound` | Assets/_Scripts/CountdownTimer.cs:38-96 | the same bound and liveness over any sequence of operations; every reported value is non-negative |
| `Countdown.CountdownTimer.constructor` | Assets/_Scripts/CountdownTimer.cs:10-16 | a new timer holds 0, is not paused, not running, and has reported nothing |
| `Countdown.CountdownTimer.IsRunning` | Assets/_Scripts/CountdownTimer.cs:18 | the timer is running exactly when the next tick reports something |
| `Countdown.CountdownTimer.IsPaused` | Assets/_Scripts/CountdownTimer.cs:20 | the paused flag is never observed set |
| `Countdown.CountdownTimer.RemainingTime` | Assets/_Scripts/CountdownTimer.cs:22 | the remaining time is between 0 and the last successful StartTimer argument |
| `Countdown.CountdownTimer.Start` | Assets/_Scripts/CountdownTimer.cs:29-32 | the Start callback is StartTimer with the configured initial time |
| `Countdown.CountdownTimer.StartTimer` | Assets/_Scripts/CountdownTimer.cs:38-50 | fields and log follow `Step` for StartTimer; for seconds > 0 remaining is seconds, unpaused and running; the bound is kept |
| `Countdown.CountdownTimer.StopTimer` | Assets/_Scripts/CountdownTimer.cs:55-67 | not running, remaining 0, paused flag kept, exactly one update of 0 appended |
| `Countdown.CountdownTimer.Tick` | Assets/_Scripts/CountdownTimer.cs:72-97 | fields and log follow `Step` for one coroutine resumption; the bound and liveness are kept; the tick from 1 leaves the timer stopped with the completion last in the log |
| `Collecting.Trigger` | Assets/_Scripts/Collector.cs:25-37 | something is reported exactly when the count changed; then the count grew by one and the first report is (new count, total); all-collected is reported exactly for a pickup whose new count reaches the total, and nothing else is reported |
| `Collecting.TriggerEffect` | Assets/_Scripts/Collector.cs:22-39 | another object's trigger changes nothing; a pickup adds exactly one, reports exactly (count, total), followed by all-collected when the new count >= total and by nothing otherwise |
| `Collecting.ReplayCounts` | Assets/_Scripts/Collector.cs:14-37 | after any triggers the count grew by the number of collectible ones; every count report carries the configured total; all-collected fired once per pickup reaching the total, not just once |
| `Collecting.Collidable.constructor` | Assets/_Scripts/Collector.cs:22-31 | the collided object keeps its tag and starts with its game object active, until a pickup deactivates it |
| `Collecting.Collector.constructor` | Assets/_Scripts/Collector.cs:11-14 | a new collector has counted nothing, reported nothing and keeps its configured tag and total |
| `Collecting.Collector.Start` | Assets/_Scripts/Collector.cs:20 | Start reports (current count, total) and changes nothing else |
| `Collecting.Collector.OnTriggerEnter` | Assets/_Scripts/Collector.cs:22-39 | count and log follow `Trigger`; a collectible object is deactivated, any other left as it was; the count stays the number of collectible triggers |
| `FreeFall.Triggers` | Assets/_Scripts/FreeFallDetector.cs:25 | one check asks for game over exactly when the pair (stored flag, query) is one true-to-false edge, as counted by `FallingEdges` |
| `FreeFall.GameOverCallsAreFallingEdges` | Assets/_Scripts/FreeFallDetector.cs:17-33 | over any sequence of ground queries, the game-over calls are exactly the true-to-false steps after the initial false flag |
| `FreeFall.FreeFallDetector.constructor` | Assets/_Scripts/FreeFallDetector.cs:10 | the near-ground flag starts false, so the first check never ends the game |
| `FreeFall.FreeFallDetector.CheckGround` | Assets/_Scripts/FreeFallDetector.cs:17-33 | game over "Game Over! Free Fall" is requested exactly when the stored flag is true and the query false; the flag then equals the query |
| `Game.Apply` | Assets/_Scripts/GameManager.cs:15-52 | after any call the text is shown exactly when the game is paused (time scale 0), and exactly for GameWon and GameOver; Awake keeps the text |
| `Game.AwakeEffect` | Assets/_Scripts/GameManager.cs:15-31 | Awake hides the text, sets the time scale to 1 and keeps the text |
| `Game.EndingEffect` | Assets/_Scripts/GameManager.cs:37-52 | GameWon shows "You won!", GameOver(t) shows t, and both set the time scale to 0, whatever came before |
| `Game.EndingIdempotent` | Assets/_Scripts/GameManager.cs:37-52 | repeating GameWon or GameOver changes nothing more |
| `Game.LastEndingWins` | Assets/_Scripts/GameManager.cs:37-52 | after any non-empty mix of GameWon and GameOver the text is the last call's, visible, and time is stopped |
| `Game.GameManager.constructor` | Assets/_Scripts/GameManager.cs:13 | the manager starts with the scene's configured text widget state |
| `Game.GameManager.Awake` | Assets/_Scripts/GameManager.cs:15-31 | text hidden, time scale 1, text unchanged |
| `Game.GameManager.GameWon` | Assets/_Scripts/GameManager.cs:37-44 | text visible, "You won!", time scale 0 |
| `Game.GameManager.GameOver` | Assets/_Scripts/GameManager.cs:46-52 | text visible, the given message, time scale 0 |
| `Gravity.ApproxEqual` | Assets/_Scripts/GravityShift.cs:139-146 | Unity's `Vector3 ==` is symmetric and holds for equal vectors |
| `Gravity.IsAcceptedInput` | Assets/_Scripts/GravityShift.cs:78 | the accepted inputs are exactly the points of the two unit segments on the axes: (x, 0) or (0, y) with the coordinate in [-1, 1] |
| `Gravity.AlignAxisFor` | Assets/_Scripts/GravityShift.cs:139-146 | when the input selects a direction it is camera right, its negation, the projected forward vector or its negation |
| `Gravity.ClosestWorldAxis` | Assets/_Scripts/GravityShift.cs:166-181 | the scan returns the first world axis of strictly smallest angle (ties to the earlier axis), or up when no angle is below float.MaxValue; always a world axis |
| `Gravity.ClosestAxisUnique` | Assets/_Scripts/GravityShift.cs:168-179 | the selection rule picks at most one axis for given angles |
| `Gravity.EqualAnglesSelectRight` | Assets/_Scripts/GravityShift.cs:24-32 | with six equal angles the first axis scanned, right, is selected and nothing else |
| `Gravity.SelectingExamples` | Assets/_Scripts/GravityShift.cs:134-147 | right, left, forward and back select camera right, its negation, projected forward and its negation; (0, 0) and (0.5, 0) are accepted but select nothing |
| `Gravity.SelectingAcceptedInputs` | Assets/_Scripts/GravityShift.cs:139-146 | an accepted input selects an axis exactly when its nonzero component is within 1e-5 of plus or minus one |
| `Gravity.GravityShift.constructor` | Assets/_Scripts/GravityShift.cs:34-40 | gravity, hologram and input directions start as the zero vector |
| `Gravity.GravityShift.Awake` | Assets/_Scripts/GravityShift.cs:44-52 | gravity points down and the hologram is hidden |
| `Gravity.GravityShift.GravityDirection` | Assets/_Scripts/GravityShift.cs:42 | gravity is always zero or one of the six world axes |
| `Gravity.GravityShift.OnGravityShiftPreview` | Assets/_Scripts/GravityShift.cs:71-96 | nothing changes unless performed with both components in [-1, 1] and one of them zero; otherwise the hologram is shown, the input (x, 0, y) recorded and the hologram direction aligned only for a selecting input; gravity never changes |
| `Gravity.GravityShift.AlignHologramPreview` | Assets/_Scripts/GravityShift.cs:134-147 | the recorded input picks the direction to align (camera right, its negation, projected forward, its negation) or leaves the hologram direction alone |
| `Gravity.GravityShift.AlignYAxisToClosestWorldAxis` | Assets/_Scripts/GravityShift.cs:166-188 | the hologram direction becomes the closest world axis to the given direction |
| `Gravity.GravityShift.OnDiscardGravityShiftPreview` | Assets/_Scripts/GravityShift.cs:98 | the hologram is hidden; gravity and hologram direction are unchanged |
| `Gravity.GravityShift.OnApplyGravityShift` | Assets/_Scripts/GravityShift.cs:104-108 | does nothing unless the hologram is shown; then gravity takes the hologram direction and the hologram is hidden; after an alignment that is a world axis |
| `Gravity.GravityShift.ShiftGravity` | Assets/_Scripts/GravityShift.cs:149-160 | gravity takes the hologram direction and the hologram is hidden |
| `Gravity.ApplyBeforeAnyAlignment` | Assets/_Scripts/GravityShift.cs:90-108 | after start-up, a (0, 0) preview then apply sets gravity to the zero vector |
| `Gravity.ApplyAfterRightPreview` | Assets/_Scripts/GravityShift.cs:71-108 | after start-up, a right preview then apply puts gravity on the world axis closest to the camera's right |

## Left out

- Physics and geometry in GravityShift: the gravity magnitude -9.81 written to `Physics.gravity`, the velocity projection, and the player and hologram rotations (`UpdateHologramPosition`, `Start`, lines 153 and 183-187). They are engine floating-point maths. The early return at line 183 affects only the rotation, not the chosen axis.
- `Vector3.Angle` and `ProjectOnPlane` are not computed: the angle is a function argument and the projected forward vector is an input.
- Vectors and angles are exact reals, not 32-bit floats. `float.MaxValue` is its exact real value. The equality tolerance is exactly `1e-10`, where the float product of `1e-5` by itself is `9.99999944e-11`. NaN angles are not modelled.
- Coroutine scheduling, `WaitForSeconds` timing and frame interleaving in CountdownTimer. One resumption, from one yield to the next or to the end, is one atomic `Tick`; when the timer is paused the coroutine yields every frame, and each such frame is a `Tick` that changes nothing.
- PlayerMovement: rigidbody movement, raycasts, sphere checks and Animator parameters.
- SafeAreaPanel: floating-point screen-rectangle arithmetic on some platforms only.
- GameManager `RestartGame` and `QuitGame` (scene loading, application exit), the `Instance` singleton assignment (the detector holds a reference instead), and `FreeFallDetector.OnDrawGizmos`.
- `Debug.Log` and `Debug.LogWarning` output.
- Negative numbers are written with '-'. .NET writes the current culture's negative sign for `{n}` and `{n:00}`, and that sign is not always '-'. Only negative texts are affected, and the game never shows one.
- UnityEvent dispatch: listeners are an event log.
- Input-system contexts: a performed flag and a 2D value.
- TMP text rendering: the UI modules compute the text only.
- The wiring of `OnCollectAllCubes` to `GameManager.GameWon` is scene configuration, not code, so it is not modelled.
- GameManager's text widget is a non-null reference. `Awake` uses it at line 19 before the null check at line 23, so the warning branch is never reached with a missing widget.
- `Time.timeScale` is a field of the manager, not global engine state.
- Collecting.Collector.OnTriggerEnter: does not model 32-bit wrap-around of `_collectedCount`, which would need more than 2^31 pickups.
