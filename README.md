# Sodium pong samples, modelled in Dafny

This project models the game logic of the Sodium samples repository. The
samples write Pong on top of the Sodium functional-reactive library, in three
forms:

- `SodiumPong`, a WPF window. It covers:
  - pausing with SPACE;
  - moving and clamping the paddles;
  - moving the ball and reflecting it off the paddles and the walls;
  - goal-line tests, with points counted by a `Collect` state machine.
- `pongElm`, a live script. The whole game is one `Game` value, advanced by
  `Update(Input, Game)` on every frame.
- `pongAlt`, a live script. It is the same game wired with one cell per
  object, and its `Game` value is assembled by `NewGame`.

The keyboard "movable face" script is modelled as well.

How the model is built:

- **Streams and cells.** A Sodium stream is a `seq<Option<T>>` with one slot
  per transaction. A cell is its value after `k` transactions (module `Frp`).
  The library's combinators appear only through the meanings the samples
  rely on:
  - `Hold` is the last fired value, or the initial one;
  - `Accum` is a left fold;
  - `Collect` is a Mealy machine;
  - `OrElse` is a left-biased merge;
  - `Snapshot` reads the cell from before the transaction, so a `CellLoop`
    closed over a `Hold` is the same as an `Accum`.
- **Host events.** Every key event, rendering event or script-host event is
  its own transaction.
- **Snapshots.** Every `Snapshot` in the games (`sPlayer`, `sBall`,
  `input`) is built from `Frp.Snapshot` over the cells it reads. A
  `CellLoop` closed with `Hold` over such a snapshot is proved equal to that
  `Hold`, through `Frp.StepsAreHold`.
- **Definitions without a row.** `PongNetwork.CellPoints`, `GameStateAt`,
  `PlayerAt`, `BallAt` and the `P1At`/`P2At`/`Points1At`/`Points2At` cells
  are plain compositions of the combinators. What they hold is stated by the
  lemma rows about them (`CellPointsCountsCrossings`, `GameStateIsParity`,
  `PlayerStaysOnCourt`, `BallLoopIsHold`, `PointsCountGoals`).
- **Numbers.**
  - Positions and velocities are `real`s.
  - A `TimeSpan` is a whole number of 100 ns ticks, and `TotalSeconds` is
    that number divided by 10,000,000.
  - The C# `(int)` cast is truncation toward zero (`Numerics.Trunc`).
  - The `[Flags]` expression `Running & ~state` is computed on 32-bit
    vectors.
- **Shared script rules.** Rules that both scripts spell out identically
  live in `PongScript`. `StepV` and the integer `Within` are the same text
  in all three programs and are defined once, in `SodiumPong`.

Two details of the code that the model keeps exactly:

- In all three games the bounds test reads the ball's position from before
  the step. A ball still on the court that moves past the goal line is
  therefore moved on that tick and reset only on the next.
  `SodiumPong.BallLeavesThenResets` shows this timing.
- The SodiumPong walls are at y > 395 and y < 5, and the scripts' walls are
  at y > 390 and y < 0.

## Model

| member | source | states |
|---|---|---|
| Numerics.Trunc | SodiumPong/MainWindow.xaml.cs:339-345 | the `(int)` cast truncates toward zero: the result is within one unit of the value, at or below it for non-negative values and at or above it for negative ones |
| Numerics.TotalSeconds | SodiumPong/MainWindow.xaml.cs:272 | a span's seconds times 10,000,000 is its tick count, and it has the span's sign |
| Util.Clamp | SodiumPong/Util.cs:12-17 | the result is one of `val`, `min`, `max`; a value that compares below `min` gives `min` |
| Util.ClampInRange | SodiumPong/Util.cs:12-17 | for any total order and `min <= max`, the result lies between `min` and `max` |
| Util.ClampOutside | SodiumPong/Util.cs:14-15 | below `min` gives `min`; above `max` and not below `min` gives `max` |
| Util.ClampKeepsInside | SodiumPong/Util.cs:16 | a value already in `[min, max]` is returned unchanged |
| Util.ClampIdempotent | SodiumPong/Util.cs:12-17 | clamping twice equals clamping once when `min <= max` |
| Util.ClampInvertedRange | SodiumPong/Util.cs:14-15 | with `min > max` the lower bound wins: the result is `min` or `max`, and never a value strictly between them |
| Util.CompareRealIsComparison | SodiumPong/Util.cs:12 | `double.CompareTo`, modelled as the sign of the difference, is a total order |
| Util.ClampReal | SodiumPong/MainWindow.xaml.cs:510-513 | `Clamp` at `double`: the result is in range when `min <= max`, in-range values are kept, and it follows the below/above cases |
| Frp.Map | SodiumPong/MainWindow.xaml.cs:205-206 | `Map` fires exactly when its input fires, carrying `f` of the value |
| Frp.Filter | SodiumPong/MainWindow.xaml.cs:108 | `Filter` fires exactly when its input fires with a value the predicate accepts, carrying that value |
| Frp.OrElse | SodiumPong/MainWindow.xaml.cs:207 | the merge fires when either side fires; it carries the left value whenever the left side fires, and the right value otherwise |
| Frp.OrElseDropsOnlySimultaneous | SodiumPong/MainWindow.xaml.cs:207 | firings of the merge plus the simultaneous firings dropped equals the firings of both sides |
| Frp.HoldIsLastFired | SodiumPong/MainWindow.xaml.cs:143 | `Hold(init)` shows the last fired value, or `init` when nothing has fired |
| Frp.StepsAreHold | SodiumPong/MainWindow.xaml.cs:143 | any sequence of values that starts at `init` and, on each transaction, takes the fired value or keeps the previous one is what `Hold(init)` shows |
| Frp.AccumIsFold | SodiumPong/MainWindow.xaml.cs:108-109 | `Accum(init, f)` after `k` transactions is the left fold of `f` over the values fired so far |
| Frp.Snapshot | SodiumPong/MainWindow.xaml.cs:142 | `Snapshot` fires exactly when its stream fires, carrying `f` of the value and of the cell's value from before the transaction |
| Frp.AccumIsHoldOfLoop | SodiumPong/MainWindow.xaml.cs:236-240 | a `CellLoop` closed with `Hold` over a `Snapshot` of itself holds exactly what `Accum` with the same function holds |
| Frp.LoopFixpointIsAccum | SodiumPong/MainWindow.xaml.cs:236-240 | any cell that after every transaction holds what its own snapshot fired equals the `Accum` cell at every point |
| Frp.LoopFixpointUnique | SodiumPong/MainWindow.xaml.cs:236-240 | the `Accum` cell is the only solution of the `CellLoop` equation |
| Frp.CollectIsMealy | SodiumPong/MainWindow.xaml.cs:85-86 | `Collect` emits the outputs of the Mealy machine run over the fired values, and its state is that machine's state |
| Frp.Collect | SodiumPong/MainWindow.xaml.cs:85-86 | `Collect` fires exactly when its source fires (what it emits is stated by `Frp.CollectIsMealy`) |
| Frp.CollectStateIsHold | SodiumPong/MainWindow.xaml.cs:368 | when the step passes its input on as the new state, `Collect`'s state is the last fired value |
| SodiumPong.GameObject.WithPos | SodiumPong/MainWindow.xaml.cs:495-498 | `With(Point)` replaces the position only |
| SodiumPong.GameObject.WithVel | SodiumPong/MainWindow.xaml.cs:500-503 | `With(Vector)` replaces the velocity only |
| SodiumPong.GameObject.ClampX | SodiumPong/MainWindow.xaml.cs:505-508 | only x changes; it lands in `[min, max]`, an x already inside is kept, an x below `min` becomes `min`, and an x above `max` (and not below `min`) becomes `max` |
| SodiumPong.GameObject.ClampY | SodiumPong/MainWindow.xaml.cs:510-513 | only y changes; it lands in `[min, max]`, an in-range y is kept, and it follows the below/above cases |
| SodiumPong.UpdateGameState | SodiumPong/MainWindow.xaml.cs:218-221 | a key-down toggles Paused and Running (the result is the reference `Toggle` and differs from the input); a key-up keeps the state |
| SodiumPong.UpdateGameStateTwice | SodiumPong/MainWindow.xaml.cs:218-221 | two key-downs restore the original state |
| SodiumPong.UpdatePlayerVelocity | SodiumPong/MainWindow.xaml.cs:262-265 | the velocity becomes `(0, 200·dir)`, with the sign of `dir`; position and view are kept |
| SodiumPong.UpdatePosition | SodiumPong/MainWindow.xaml.cs:270-273 | the displacement is velocity times the span in seconds; velocity and view are kept |
| SodiumPong.UpdatePositionAdditive | SodiumPong/MainWindow.xaml.cs:270-273 | moving for `a` and then for `b` equals moving for `a + b` |
| SodiumPong.UpdatePlayer | SodiumPong/MainWindow.xaml.cs:251-257 | paused, the player is unchanged; running, the velocity is `(0, 200·dir)` and y is the moved y clamped to `[25, 375]`; x and view never change |
| SodiumPong.StepV | SodiumPong/MainWindow.xaml.cs:319-328 | the magnitude is kept; a lower collision gives a non-positive result, otherwise an upper collision gives a non-negative one, otherwise `v` is kept |
| SodiumPong.StepVDetermined | SodiumPong/MainWindow.xaml.cs:319-328 | the sign rule leaves only one value, so `StepV` is exactly `-abs(v)`, `abs(v)` or `v` |
| SodiumPong.Within | SodiumPong/MainWindow.xaml.cs:348-351 | holds iff `left <= n <= right`, and never when `left > right` |
| SodiumPong.WithinPlayer | SodiumPong/MainWindow.xaml.cs:337-346 | holds iff the ball's truncated x lies between the truncated `x` and `x + xOffset` in either order, and its truncated y lies in the stripe from `y - 27.5` to `y + 27.5` |
| SodiumPong.WithinPlayerStripeSide | SodiumPong/MainWindow.xaml.cs:339-343 | the horizontal stripe lies right of the player for a positive offset and left of it for a negative one |
| SodiumPong.UpdateBallVelocity | SodiumPong/MainWindow.xaml.cs:304-310 | position and speed per axis are kept; the ball heads left after touching player 2's stripe and right after touching player 1's; it goes up past y = 395 and down above y = 5 |
| SodiumPong.UpdateBall | SodiumPong/MainWindow.xaml.cs:284-293 | paused, the ball is unchanged; running with truncated x outside `[0, 600]`, it is put at the centre with its velocity kept; otherwise it is reflected, then moved |
| SodiumPong.BallLeavesThenResets | SodiumPong/MainWindow.xaml.cs:284-293 | a ball at x = 595 moves to 615 on one tick and is back at the centre only on the next |
| SodiumPong.BallMovesWithinCourt | SodiumPong/MainWindow.xaml.cs:284-310 | a ball at x = 580 clear of both paddles moves to x = 590 in 0.05 s |
| SodiumPong.P1Scored | SodiumPong/MainWindow.xaml.cs:381-385 | it scores iff the old x is at most 600 and the new x exceeds 600; the current ball is the new state |
| SodiumPong.P2Scored | SodiumPong/MainWindow.xaml.cs:392-396 | it scores iff the old x exceeds 0 and the new x is at most 0; the current ball is the new state |
| SodiumPong.NoDoubleGoal | SodiumPong/MainWindow.xaml.cs:381-396 | no single ball step scores for both players |
| PongNetwork.KeyEvents | SodiumPong/MainWindow.xaml.cs:70-75 | `sKeyEvents` fires exactly in the transactions of key events, carrying the event |
| PongNetwork.RenderEvents | SodiumPong/MainWindow.xaml.cs:71-78 | `sRenderEvents` fires exactly in the transactions of rendering events, carrying the rendering time |
| PongNetwork.Ticks | SodiumPong/MainWindow.xaml.cs:85-86 | `sTicks` fires exactly when a rendering event arrives |
| PongNetwork.TickDeltasSumToLatest | SodiumPong/MainWindow.xaml.cs:85-86 | the deltas `sTicks` has emitted sum to the latest rendering time (0 before the first) |
| PongNetwork.DirStream | SodiumPong/MainWindow.xaml.cs:205-207 | the merged direction stream fires exactly on events of the north or the south key; a north-key event gives -1 when down and 0 when up, a south-key event 1 and 0 |
| PongNetwork.CellDirPlayerIsLastKey | SodiumPong/MainWindow.xaml.cs:203-208 | the direction is 0 before any north or south key event, and afterwards is decided by the last one: -1 for a north key-down, 1 for a south key-down, 0 for a key-up; it is always in {-1, 0, 1} |
| PongNetwork.GameStateIsParity | SodiumPong/MainWindow.xaml.cs:107-109 | the game runs iff SPACE has gone down an odd number of times, with each repeated key-down counted |
| PongNetwork.PlayerStaysOnCourt | SodiumPong/MainWindow.xaml.cs:233-240 | a `CellPlayer` that starts in `[25, 375]` stays there, on its own vertical line |
| PongNetwork.PlayerStream | SodiumPong/MainWindow.xaml.cs:236-238 | `sPlayer` fires exactly on rendering events, carrying `UpdatePlayer` of the tick and of the values `cPlayer`, `cDir` and `cGameState` had before that transaction |
| PongNetwork.PlayerLoopIsHold | SodiumPong/MainWindow.xaml.cs:236-240 | the looped `cPlayer` equals `sPlayer.Hold(playerInitial)` |
| PongNetwork.BallStream | SodiumPong/MainWindow.xaml.cs:141-142 | `sBall` fires exactly on rendering events, carrying `UpdateBall` of the tick and of the values `cBall`, `cP1`, `cP2` and `cGameState` had before that transaction |
| PongNetwork.BallLoopIsHold | SodiumPong/MainWindow.xaml.cs:141-143 | the looped `cBall` equals `sBall.Hold(ballInitial)` |
| PongNetwork.BallKeepsSpeed | SodiumPong/MainWindow.xaml.cs:141-143 | the ball's speed stays 200 on each axis for ever |
| PongNetwork.ScoredStream | SodiumPong/MainWindow.xaml.cs:368-370 | `sScored` fires only in transactions where `sBall` fires |
| PongNetwork.ScoredStreamAt | SodiumPong/MainWindow.xaml.cs:368-370 | when the condition passes the current ball on, `sScored` fires exactly when `sBall` fires a ball that meets the condition with the ball `cBall` held before it |
| PongNetwork.CellPointsCountsCrossings | SodiumPong/MainWindow.xaml.cs:366-373 | `CellPoints` equals the number of ball steps, from the initial ball on, that satisfy the scoring condition |
| PongNetwork.CellPointsMonotone | SodiumPong/MainWindow.xaml.cs:366-373 | points never decrease |
| PongNetwork.PointsCountGoals | SodiumPong/MainWindow.xaml.cs:150-151 | each player's points are the number of times the ball crossed that player's goal line |
| PongScript.UpdateGameState | LiveScripting/CodeProvider.cs:433-436 | a key-down toggles the state through `Toggle`; a key-up keeps it |
| PongScript.UpdatePlayerVelocity | LiveScripting/CodeProvider.cs:365-368 | `vy` becomes `200·dir`, with the sign of `dir`; position and `vx` are kept |
| PongScript.ClampY | LiveScripting/CodeProvider.cs:370-373 | only y changes; it lands in `[min, max]`, an in-range y is kept, a y below `min` becomes `min`, and a y above `max` (and not below `min`) becomes `max` |
| PongScript.UpdatePosition | LiveScripting/CodeProvider.cs:395-404 | the displacement is velocity times the span in seconds; the velocity is kept |
| PongScript.ReflectBall | LiveScripting/CodeProvider.cs:384-393 | position and speed per axis are kept; the ball turns according to the collision flags, and goes up past y = 390 and down above y = 0 |
| PongScript.SpaceStream | LiveScripting/CodeProvider.cs:441 | `k.SpaceStream` fires exactly on SPACE events |
| PongScript.WasdStream | LiveScripting/CodeProvider.cs:443 | the W/S direction cell's updates arrive exactly on the host's W/S direction changes |
| PongScript.ArrowsStream | LiveScripting/CodeProvider.cs:444 | the arrow direction cell's updates arrive exactly on the host's arrow direction changes |
| PongScript.TickStream | LiveScripting/CodeProvider.cs:441 | `Time.Ticks` fires exactly on frames, carrying the frame's span |
| PongScript.SpaceDowns | LiveScripting/CodeProvider.cs:441 | the SPACE key-downs are exactly the SPACE events that are key-downs |
| PongScript.StateIsParity | LiveScripting/CodeProvider.cs:441 | the script's state runs iff SPACE has gone down an odd number of times |
| PongElm.WithinPlayer | LiveScripting/CodeProvider.cs:417-426 | the ball's truncated x lies between the truncated `x` and `x + xOffset`, and its truncated y is within 27.5 of the paddle's `y` |
| PongElm.UpdateBallVelocity | LiveScripting/CodeProvider.cs:384-393 | the speed per axis is kept; the ball heads left from player 2's stripe and right from player 1's, and otherwise keeps `vx`; it goes up past y = 390, down above y = 0, and otherwise keeps `vy` |
| PongElm.UpdateBall | LiveScripting/CodeProvider.cs:375-382 | a ball whose truncated x is outside `[-10, 600]` is put at (295, 195) with its velocity kept; otherwise it is reflected, then moved |
| PongElm.UpdatePlayer | LiveScripting/CodeProvider.cs:360-363 | `vy` becomes `200·dir` and y is the moved y clamped to `[5, 355]`, whatever the state; `vx` is kept and x moves by `vx` |
| PongElm.Update | LiveScripting/CodeProvider.cs:341-358 | paused, the game is kept with the help line at the default; running, each score grows by one exactly when the old ball x is beyond that goal (> 600, < -10), the objects take one step and the help line is empty; a score grows by at most one |
| PongElm.ScoresBoundedByTicks | LiveScripting/CodeProvider.cs:447-448 | over any run of `gameSignal`, the scores are non-negative and at most the number of frames so far |
| PongElm.GameStaysOnCourt | LiveScripting/CodeProvider.cs:447-448 | over any run, both paddles stay in `[5, 355]` and on their vertical lines, and the ball keeps speed 200 per axis |
| PongElm.GoalCountsTwice | LiveScripting/CodeProvider.cs:351-352 | as written, a ball at x = 600.5 scores on two consecutive frames before it is reset |
| PongElm.UpdateScoringOnReset | LiveScripting/CodeProvider.cs:351-357 | corrected `Update`: a point is given exactly on the frame that puts the ball back from behind that goal line |
| PongElm.GoalCountsOnce | LiveScripting/CodeProvider.cs:351-357 | with the corrected rule, the frame after a point never scores again |
| PongElm.CorrectedGameInvariants | LiveScripting/CodeProvider.cs:447-448 | the corrected signal keeps the paddles on the court and the scores below the frame count |
| PongElm.InputStream | LiveScripting/CodeProvider.cs:440-445 | defined as a `Frp.Snapshot` of `Time.Ticks` over the state and direction cells, so `input` fires exactly on frames and carries the state and both directions from before the frame, with the frame's span |
| PongElm.PausedFrameFreezesGame | LiveScripting/CodeProvider.cs:341-349 | only frames change the game, and a frame while paused changes only the help line |
| PongAlt.NewGame | LiveScripting/CodeProvider.cs:494-497 | every field is copied from the arguments; the help line is the default iff the state is Paused, and is empty otherwise |
| PongAlt.Player | LiveScripting/CodeProvider.cs:476-479 | a player at the given place, at rest |
| PongAlt.DefaultBall | LiveScripting/CodeProvider.cs:499-503 | the ball starts at (295, 195) with velocity (200, 200) |
| PongAlt.WithinPlayer | LiveScripting/CodeProvider.cs:629-638 | the horizontal test is as in `pongElm`, but the truncated y must lie in `[y, y + 40]` |
| PongAlt.PaddleStripesDiffer | LiveScripting/CodeProvider.cs:629-638 | the two scripts' paddle tests disagree in both directions (they differ from LiveScripting/CodeProvider.cs:417-426) |
| PongAlt.UpdateBallVelocity | LiveScripting/CodeProvider.cs:596-605 | the speed per axis is kept; the ball heads left from player 2's stripe and right from player 1's, and otherwise keeps `vx`; it goes up past y = 390, down above y = 0, and otherwise keeps `vy` |
| PongAlt.UpdateBall | LiveScripting/CodeProvider.cs:585-594 | paused, the ball is unchanged; running, a truncated x outside `[-10, 600]` puts it at (295, 195) with its velocity kept; otherwise it is reflected, then moved |
| PongAlt.UpdatePlayer | LiveScripting/CodeProvider.cs:567-573 | paused, the player is unchanged; running, `vy = 200·dir` and y is the moved y clamped to `[5, 355]` |
| PongAlt.P2Scored | LiveScripting/CodeProvider.cs:674-678 | it scores iff the old x exceeds 0 and the new x is at most 0; the current ball is the new state |
| PongAlt.P1Scored | LiveScripting/CodeProvider.cs:680-684 | it scores iff the old x is at most 600 and the new x exceeds 600; the current ball is the new state |
| PongAlt.NoDoubleGoal | LiveScripting/CodeProvider.cs:674-684 | no single ball step scores for both players |
| PongAlt.PlayerStaysOnCourt | LiveScripting/CodeProvider.cs:657-663 | a `CellPlayer` that starts at rest in `[5, 355]` stays there, on its vertical line |
| PongAlt.PlayerStream | LiveScripting/CodeProvider.cs:660 | `sPlayer` fires exactly on frames, carrying `UpdatePlayer` of the frame's span and of the values `cDir`, `cPlayer` and `cState` had before the frame |
| PongAlt.BallStream | LiveScripting/CodeProvider.cs:701 | `sBall` fires exactly on frames, carrying `UpdateBall` of the frame's span and of the values `cBall`, `cP1`, `cP2` and `cState` had before the frame |
| PongAlt.PlayerLoopIsHold | LiveScripting/CodeProvider.cs:657-663 | the looped `cPlayer` equals `sPlayer.Hold(playerInitial)` |
| PongAlt.BallLoopIsHold | LiveScripting/CodeProvider.cs:700-702 | the looped `cBall` equals `sBall.Hold(DefaultBall())` |
| PongAlt.BallKeepsSpeed | LiveScripting/CodeProvider.cs:700-702 | the ball's speed stays 200 on each axis |
| PongAlt.GameSignalInvariants | LiveScripting/CodeProvider.cs:686-708 | in the assembled game, each score is the number of crossings of that goal line, the help line shows iff SPACE has gone down an even number of times, and the paddles are on the court |
| PongAlt.ScoresMonotone | LiveScripting/CodeProvider.cs:665-673 | scores never decrease |
| PongAlt.PausedFrameFreezesObjects | LiveScripting/CodeProvider.cs:567-594 | while paused, a transaction moves neither ball nor paddles |
| MovableFace.NewPoint | LiveScripting/CodeProvider.cs:109-116 | the point moves by three times the input on each axis, so the input (0, 0) leaves it unchanged |
| MovableFace.NewPointAdditive | LiveScripting/CodeProvider.cs:113-116 | two steps equal one step by the summed inputs |
| MovableFace.FaceIsScaledSum | LiveScripting/CodeProvider.cs:118-119 | the face sits at three times the sum of the arrow directions fired so far |

## Left out

- The Sodium engine itself is not part of this model. That covers
  transactions, rank ordering, `CellLoop` binding and glitch freedom. Only
  the sequence meaning of the combinators the samples use is modelled.
- WPF plumbing is left out: window and canvas set-up, event subscription,
  `Draw`, and the text blocks (SodiumPong/MainWindow.xaml.cs:22-186 and
  401-464). The host delivers events as a sequence of stimuli instead.
- The scripts' `View`, `DrawHelp`, `DrawScore` and `DrawPoints` only draw,
  and are left out. So are the face drawing and `View`.
- LiveScripting/MainWindow.xaml.cs, LiveLib.cs and VisualHost.cs are not
  part of this model. They are a scripting host and a drawing DSL.
- The host streams `Time.Ticks`, `k.SpaceStream`, `k.WasdCell`,
  `k.ArrowsCell`, `k.ArrowsStream`, `Screen.Size` and the mouse streams are
  inputs. How the host derives a direction from the keys is not modelled.
- Arithmetic:
  - IEEE-754 doubles are modelled as exact reals, so rounding is not
    modelled.
  - The overflow of `(int)` past 32 bits is not modelled, nor is `TimeSpan`
    overflow.
  - 32-bit `int` overflow of `dir * 200`, `input.Item1 * vx`, `++points` and
    `scoreP1 + score1` is not modelled: integers are unbounded.
- PongScript.ClampY: the scripts call the host's `b.Clamp`, whose code is not
  part of this model. It is taken to behave as the sample's `Util.Clamp`.
- PongElm.UpdatePlayer: the state argument is not read, exactly as in the
  script. Pausing in `pongElm` is done by `Update`.
- The scripts' direction cells `k.WasdCell` and `k.ArrowsCell` belong to the
  host. The model (`PongScript.Dir1At`, `PongScript.Dir2At`) takes them to
  start at 0 and to hold the last direction the host gave them.
- Holding SPACE repeats key-downs and toggles the game each time. The model
  counts every key-down and claims no debouncing.
- `NewInput` (LiveScripting/CodeProvider.cs:275-278) is the `Input`
  constructor, and `Lift(Screen.Size, View)` only draws.
- The mouse-driven face scripts and the house and hello scripts are left
  out: they hold no game logic.
- The as-written scoring is kept in `gameSignal`. The corrected rule drives
  a separate signal of its own.

## Findings

| source | as written | input that shows it | evidently intended | confidence | as-written member | corrected member |
|---|---|---|---|---|---|---|
| LiveScripting/CodeProvider.cs:351-352 | a point is given whenever the old ball x is beyond 600 (or below -10), but `UpdateBall` resets the ball only once its truncated x is beyond 600 (or below -10) | a running frame with the ball at x = 600.5 and vx = 200: it scores, the ball is not reset and moves on, and the next frame scores again before the reset | one point per goal; the corrected member gives it, by a rule of this model's own, on the frame that puts the ball back (the same test `UpdateBall` resets on) | medium, not executed | PongElm.GoalCountsTwice | PongElm.UpdateScoringOnReset |
