# vscpp6-glut core in Dafny

This project models the simulation core of a small GLUT demo (a sprite, an
accelerated ball and a spinning teapot, driven from the keyboard). It covers:

- the `signbit` and `clamp` macros of `utils.hpp` (module `Utils`);
- the keyboard state machine of `keyboard.cpp`: two seven-slot tables of
  button states, the per-button update that shifts the current state into
  the previous table, and the "held" and "just pressed" queries (module
  `Keyboard`; class `Keyboard` over two arrays, specified by the value type
  `Snapshot`);
- the frame clock of `fps.cpp`: millisecond samples, the frame delta, a
  frame counter and a one-second window that recomputes the frame rate
  (module `Fps`; class `Clock`, specified by `ClockState` and `Tick`);
- the per-frame movement rules of `scene_update` and the colour stride of
  `_draw_ball` in `scene.cpp` (module `Scene`; class `Scene`, specified by
  `Bodies` and `Step`);
- the key dispatch of `keyHandle`, the `keyDown`/`keyUp` callbacks, and the
  simulation half of `update` in `main.cpp` (module `MainLoop`).

Stateful code is modelled as classes whose methods update fields or arrays
in place. Each method is proved against a pure specification function.
The properties are lemmas about those functions: the edge rule of "just
pressed", only the last two writes to a button being observable, the rollover
of the frame-rate window, the speed limit, decay reaching zero without
changing sign, the angle staying in [0, 360), and the colour stride staying
inside the table.

The `signbit` used throughout is the macro of `utils.hpp:5`: -1 for a
negative argument and 1 otherwise, so a zero velocity counts as positive.
Both macros are only defined when no macro of that name exists already.
The model assumes the `utils.hpp` definitions are the ones in force.

Timer readings (`glutGet(GLUT_ELAPSED_TIME)`) are parameters: `now` for
the frame clock and `currTime` for the colour stride.

## Model

| member | source | states |
|---|---|---|
| Utils.SignBit | utils.hpp:5 | the result is -1 or 1, and negative exactly when the argument is negative (so 0 gives 1) |
| Utils.SignBitTimesIsAbs | utils.hpp:5 | `signbit(x) * x` is the magnitude of `x`, never negative |
| Utils.Abs | scene.cpp:84 | `fabs`: non-negative and equal to `x` or `-x` |
| Utils.Clamp | utils.hpp:9 | a value below `lo` gives `lo`; otherwise a value above `hi` gives `hi` (crossed bounds included); with `lo <= hi` the result lies in [lo, hi]; a value inside the bounds is returned unchanged |
| Utils.ClampIdempotent | utils.hpp:9 | clamping an already clamped value to the same ordered bounds changes nothing |
| Utils.ClampSymmetric | utils.hpp:9 | with bounds `[-t, t]` clamping keeps the sign and never increases the magnitude, which ends up at most `t` |
| Keyboard.Snapshot.Pressing | keyboard.cpp:24 | "held" reads the current table: writing the held state back leaves the current table as it is |
| Keyboard.Snapshot.Pressed | keyboard.cpp:30 | a button that is just pressed is also held |
| Keyboard.Cleared | keyboard.cpp:7-12 | both tables zeroed, seven slots each |
| Keyboard.Snapshot.Update | keyboard.cpp:14-19 | the value form of `kbdUpdateButton`; both tables keep seven slots |
| Keyboard.Replay | keyboard.cpp:14-19 | a sequence of updates applied in order keeps both tables at seven slots |
| Keyboard.Writes | keyboard.cpp:17-18 | the states a sequence of updates writes to one button, never more than there are updates |
| Keyboard.ClearedIsQuiet | keyboard.cpp:7-12 | after zeroing, no button is held or just pressed |
| Keyboard.UpdateEffect | keyboard.cpp:17-18 | after updating `b` to `state`, `b` is held exactly when `state` holds, its previous state is its old current state, and every other button keeps both states |
| Keyboard.PressedImpliesPressing | keyboard.cpp:30 | "just pressed" implies "held" |
| Keyboard.EdgeRule | keyboard.cpp:17-30 | a false-to-true update makes the button just pressed; a repeated true update makes it not just pressed; a false update never leaves it just pressed |
| Keyboard.ReplayKeepsLastTwo | keyboard.cpp:17-18 | after any sequence of updates, a button's current and previous states are the last two entries of its history of written states |
| Keyboard.PressedAfterReplay | keyboard.cpp:17-30 | from zeroed tables, a button is just pressed after a sequence of updates exactly when the last write to it is true and the one before (false if none) is false |
| Keyboard.UntouchedButtonUnchanged | keyboard.cpp:17-18 | updates that never name `b` leave both of its states unchanged |
| Keyboard.Keyboard.constructor | keyboard.cpp:4-5 | the two static tables start zeroed |
| Keyboard.Keyboard.Init | keyboard.cpp:7-12 | `kbdInit` leaves both arrays all false |
| Keyboard.Keyboard.UpdateButton | keyboard.cpp:14-19 | the arrays afterwards are the old ones with `previous[b]` set to the old `current[b]` and `current[b]` set to `state` |
| Keyboard.Keyboard.Pressing | keyboard.cpp:21-25 | returns the current state of the button |
| Keyboard.Keyboard.Pressed | keyboard.cpp:27-31 | returns current-and-not-previous for the button, which implies held |
| Fps.Initial | fps.cpp:4-9 | the initial statics: rate 1, delta 1 ms, all counters 0; they satisfy the non-decreasing-timer invariant |
| Fps.Tick | fps.cpp:11-25 | one `fpsUpdate(now)`: the old sample moves to `lasttime`, `now` becomes the sample and the delta their difference; the window restarts at `now` with no frames exactly when more than 1000 ms have passed since its start; otherwise the count goes up by one and the rate stays |
| Fps.Ticks | fps.cpp:11-25 | `fpsUpdate` once per reading, in order: no readings change nothing, and afterwards the sample is the last reading and `lasttime` the one before |
| Fps.InitialReadings | fps.cpp:4-5 | before any update `getFps` reads 1 and `getDeltaTime` reads 0.001 |
| Fps.TickSamples | fps.cpp:14-18 | each update moves the old sample to `lasttime`, stores `now`, and sets the delta to `now` minus the old sample, which is `now` itself on the first call; in seconds it is that over 1000 |
| Fps.TickInsideWindow | fps.cpp:14-24 | with `now - timebase <= 1000` the frame count goes up by one and the rate and window start stay |
| Fps.TickRollover | fps.cpp:20-24 | with `now - timebase > 1000` the rate becomes `(frame + 1) * 1000 / (now - timebase)`, the window restarts at `now` and the count at 0 |
| Fps.TickKeepsMonotone | fps.cpp:14-22 | with a non-decreasing timer the delta and `now - timebase` are never negative and the rate stays positive |
| Fps.TicksInsideWindow | fps.cpp:14-24 | readings all within the window add one frame each and change neither rate nor window start |
| Fps.SixtyOneFramesScenario | fps.cpp:11-25 | sixty updates at up to 1000 ms then one at 1001 ms give a rate of 61000/1001 and restart the window at 1001 |
| Fps.Clock.constructor | fps.cpp:4-9 | the six statics take their initial values |
| Fps.Clock.Update | fps.cpp:11-25 | `fpsUpdate(now)` leaves the statics equal to `Tick` of the old statics |
| Fps.Clock.GetFps | fps.cpp:27-31 | returns the stored rate |
| Fps.Clock.GetDeltaTime | fps.cpp:33-37 | returns the millisecond delta divided by 1000 |
| Scene.Walk | scene.cpp:55-64 | a constant-speed coordinate: unchanged when both or neither of its buttons are held; for `d >= 0` it does not go down with only the positive button held, nor up with only the negative one |
| Scene.Decay | scene.cpp:82-87 | for `dt >= 0` the decayed velocity is no larger in magnitude, and a zero velocity stays zero |
| Scene.Accelerate | scene.cpp:78-99 | both buttons held cancel; for `dt >= 0` only the positive button never lowers the velocity, only the negative one never raises it, and with neither held the magnitude does not increase |
| Scene.Released | scene.cpp:82-103 | `n` released frames with `dt >= 0` never increase the magnitude and never change the sign |
| Scene.HeldIn | scene.cpp:57-120 | the six buttons `scene_update` asks about, each the current state of its slot; none is held after zeroing |
| Scene.ReadHeld | scene.cpp:57-120 | the six `kbdPressing` reads give `HeldIn` of the keyboard's tables |
| Scene.Step | scene.cpp:38-121 | one `scene_update(dt)` on the statics: the angle ends in [0, 360), and for `dt >= 0` both ball speeds are within `180 dt` |
| Scene.AxisVelocity | scene.cpp:73-103 | for `dt >= 0` the new velocity lies within `[-180 dt, 180 dt]` |
| Scene.WrapAngle | scene.cpp:114-115 | the reduced angle lies in [0, 360) and an angle already there is unchanged |
| Scene.WalkMoves | scene.cpp:55-64 | each held button moves its coordinate by `d`, and opposite buttons held together cancel |
| Scene.AccelerateHeld | scene.cpp:73-99 | with a button of the axis held the velocity gains `1.2 dt` for the positive one and loses it for the negative one; with neither held it decays |
| Scene.DecayTowardZero | scene.cpp:82-87 | decay keeps a zero velocity at zero and moves any other toward zero without crossing it |
| Scene.DecayStep | scene.cpp:82-87 | each decay step takes exactly `0.9 dt` off the magnitude or snaps it to zero |
| Scene.ReleasedAxisKeepsSign | scene.cpp:82-103 | with neither button of an axis held, the velocity after the limit is zero or keeps its sign and does not grow |
| Scene.AcceleratingNeverSlows | scene.cpp:78-103 | holding only the positive button never lowers a velocity already within the limit |
| Scene.ReleasedFrame | scene.cpp:82-103 | one released frame takes at least `0.9 dt` off the magnitude or reaches zero |
| Scene.ReleasedReachesZero | scene.cpp:82-103 | with buttons released, any velocity is exactly zero after `n` frames once `n * 0.9 dt` covers its magnitude |
| Scene.StepProperties | scene.cpp:55-120 | after a frame with `dt >= 0`: the sprite moved `0.5 dt` per held direction, both ball speeds are within `180 dt`, the ball moved by its new velocity times `dt`, the teapot angle is in [0, 360), and the teapot moved `+0.5 dt` on ACTION2 and `-0.5 dt` on ACTION1 |
| Scene.RestingAxisStays | scene.cpp:82-107 | a ball at rest on an axis whose buttons are released stays at rest and does not move on that axis |
| Scene.HoldThenReleaseScenario | scene.cpp:73-103 | at `dt = 0.016`, five held frames from rest give 0.096 and one released frame then gives 0.0816 |
| Scene.Walk1 | scene.cpp:57-64 | a coordinate's step equals `p + d` per positive button held minus `d` per negative one |
| Scene.AccelerateAxis | scene.cpp:78-99 | the source's accelerate/decay/snap sequence computes the unlimited velocity `Accelerate` |
| Scene.MoveBallAxis | scene.cpp:75-107 | after the limit the velocity is `AxisVelocity` and the position moves by it times `dt` |
| Scene.Spin | scene.cpp:114-115 | the new angle is the wrapped sum and lies in [0, 360) |
| Scene.Advance | scene.cpp:38-121 | the body of `scene_update` on the statics computes `Step` |
| Scene.Scene.constructor | scene.cpp:12-23 | all statics start at zero, and so do the stride and its timer, the `_draw_ball` statics of scene.cpp:176-177 |
| Scene.Scene.Update | scene.cpp:38-121 | `scene_update(dt)` leaves the statics equal to `Step` of the old ones with the buttons held in the keyboard, leaves the colour stride alone and keeps it valid |
| Scene.NextStride | scene.cpp:182 | advancing a stride by one triple gives a stride |
| Scene.NextStrideWraps | scene.cpp:182 | the stride moves to the next triple and wraps from 15 back to 0 |
| Scene.StrideInsideTable | scene.cpp:160-197 | every stride is a multiple of 3 in [0, 15], so the triple it reads lies inside the 33-entry table |
| Scene.StrideAfter | scene.cpp:191-203 | the stride after `k` advances is still a stride |
| Scene.StrideAfterIsMod | scene.cpp:191-203 | `k` advances from `c` give `(c + 3k) mod 18` |
| Scene.StrideAfterPeriod | scene.cpp:182 | six advances bring the stride back to where it was |
| Scene.FanColors | scene.cpp:191-203 | the loop gives 1440 vertices, and vertex `k` has the triple at the stride `k` advances on from the starting one |
| Scene.Scene.AdvanceColor | scene.cpp:176-183 | when more than 50 ms have passed since the last advance the stride advances one triple and the time is recorded; otherwise nothing changes; the stride stays valid |
| Scene.Scene.BallColors | scene.cpp:191-203 | the fan's vertex `k` takes the table triple `k` advances on from the current stride |
| MainLoop.KeyMap | main.cpp:65-106 | the outcome is `Exit` exactly for escape on key-down |
| MainLoop.KeysFor | main.cpp:74-95 | the keys bound to each button: two letter cases for each letter button, line feed for START, never escape |
| MainLoop.BoundKeys | main.cpp:74-97 | the keys of the `switch`: every button's keys, no escape, and exactly the keys that key-up maps to a button |
| MainLoop.KeyMapMatchesTable | main.cpp:74-95 | a key names button `b` exactly when it is bound to `b` in the per-button table (w/W up, s/S down, a/A left, d/D right, line feed (10) start, k/K action 1, i/I action 2); escape is bound to none |
| MainLoop.KeyMapIgnores | main.cpp:68-97 | a key is ignored exactly when it is bound to no button and is not escape on key-down; escape on key-up is ignored |
| MainLoop.KeyMapIgnoresCase | main.cpp:75-92 | each bound letter and its upper case name the same button |
| MainLoop.KeyMapIgnoresDirection | main.cpp:68-98 | apart from escape, key-down and key-up name the same button |
| MainLoop.HandleKey | main.cpp:65-106 | a bound key updates exactly its button with the pressed flag unchanged; escape on key-down and unbound keys leave the keyboard unchanged |
| MainLoop.KeyDown | main.cpp:108-112 | `keyHandle` with pressed = true |
| MainLoop.KeyUp | main.cpp:114-118 | `keyHandle` with pressed = false |
| MainLoop.KeyDownThenUp | main.cpp:100 | pressing a bound key whose button was not held makes it just pressed; releasing it leaves it neither held nor just pressed |
| MainLoop.FrameUpdate | main.cpp:19-26 | the clock ticks with `now`, and the scene steps by the new delta in seconds with the held buttons, keeping its colour stride valid |

## Left out

- OpenGL and GLUT calls are not modelled: texture loading (`render.cpp`), `scene_init`, `scene_dispose`, `_draw_rectangle`, `scene_draw`, the light position, and the vertex positions of `_draw_ball` (`sinf`/`cosf`). The fan is modelled by its vertex colours only.
- `main`, `draw`, `display` and the `glutPostRedisplay` call are event-loop plumbing and are not modelled.
- The window title and console output of `update` (main.cpp:28-45), with its `oldTime` static, are presentation and are not modelled.
- The timer is not modelled: each `glutGet(GLUT_ELAPSED_TIME)` reading is a parameter.
- The Enter key sends carriage return (13), not line feed (10). The `switch` binds only line feed to START, so Enter falls to `default` and is ignored; the model keeps that.
- Escape ends the program through `scene_dispose` and `exit(0)`; the model returns the `Exit` outcome instead.
- Positions, velocities, the angle, the frame rate and the delta are `float`/`double` in the program and reals here. Rounding is not modelled, so the scenario values are exact.
- Fps.Tick: `frame`, `time`, `lasttime` and `timebase` are unbounded integers; 32-bit overflow after about 24 days of run time is not modelled.
- Utils.SignBit: models the `utils.hpp` macro (zero counts as positive). A platform `signbit` defined before it would return 0 or 1 and change the decay rule.
- Utils.ClampIdempotent: proved only for ordered bounds. With `lo > hi` the macro is not idempotent: a value below `lo` clamps to `lo`, which then clamps to `hi`.
- Keyboard.Keyboard.UpdateButton: button ids outside 0..6 are excluded by the `ButtonId` type. The program would index past its arrays; that is not modelled.
- Scene.Scene.Update: the statics are read into a `Bodies` value, stepped, and written back together. The program updates them one by one. Where it reads a static it has just written (the ball position reads the limited speed, the angle wrap reads the advanced angle), `Advance` reads the corresponding local, so the results agree.
- Scene.Advance: `x` takes `+d` for right before `-d` for left; the program subtracts first. Each ball axis is accelerated, limited and moved before the next one; the program accelerates both, then limits both, then moves both. Over reals these orders give the same values.
- Scene.Scene.BallColors: the colour table is a module constant passed to the loop; `num_colors` (scene.cpp:174) is unused in the program and not modelled.
