# BalanceBoy V2 control core in Dafny

This project models the control core of the BalanceBoy V2 two-wheeled balancing robot and proves
properties of that model. The core has seven parts:

- **The yaw PID** (`Brain_Code/pid.py`). It has an anti-windup integrator clamped into
  `[min, max]` and an output clamped into the same interval. Its disabled branch forces the output
  to zero.
- **The four-state balance PID** (`Brain_Code/balance_PID.py`). It is a vector PID over
  pitch, position, pitch rate and velocity. Its summed output is clamped into `[-1, 1]`, and its
  thread loop skips ticks that come too early.
- **The single-pole low-pass filter** (`Brain_Code/LowPass.py`).
- **The host side of a wheel motor** (`Brain_Code/motor.py`). It scans the serial input for
  report frames, converts them with an inversion flag and a zero offset, and sends
  enable and target commands.
- **The report path of the motor firmware** (`Motor_Code/src/main.cpp`). It writes a
  10-byte frame whenever at least 13 ms have passed by the board's wrapping 32-bit millisecond
  clock.
- **The game-controller reader** (`Brain_Code/ps4_controller.py`). It maps input events to
  button flags, stick and trigger positions, and the d-pad.
- **The LED eyes** (`Brain_Code/eyes.py`). Two hexagonal panels of 37 LEDs share a
  74-entry frame buffer. Range fills, single writes and row, column and cross bars update it in
  place through fixed index tables. `show()` sends the buffer only when it changed.

Each source file becomes one module. An object whose methods update its fields becomes a class
with those fields. Its methods carry frames (`modifies`), and their postconditions are tied to
specification functions. The properties are proved about those functions. Clock readings are
method parameters. Serial and SPI output becomes an append-only log field (`tx`, `written`). The
serial input becomes a byte sequence `rx` that reads consume. All floating-point values are Dafny
`real`s.

The modules are:

- `Options`: the `Option` type.
- `Numeric`: Python's `max(min(v, hi), lo)` and numpy's `np.clip`. They differ when the bounds
  cross.
- `Wire`: bytes and the frame markers.
- `Pid`, `BalancePid`, `LowPass`, `Motor`, `MotorFirmware`, `Gamepad` and `Eyes`: one per source
  file.
- `SerialLink`: lemmas that connect the firmware's frame writer to the host's scanner.

## Model

| member | source | states |
|---|---|---|
| `Numeric.Clamp` | Brain_Code/pid.py:60 | `max(min(v, hi), lo)` is at least `lo`, is at most `hi` on a well-formed interval, is `v` inside it, and is `lo` below it |
| `Numeric.Clip` | Brain_Code/ps4_controller.py:170 | `np.clip(v, lo, hi)` is at most `hi`, is at least `lo` on a well-formed interval, is `v` inside it, and is `hi` above it |
| `Numeric.ClampIsClip` | Brain_Code/eyes.py:104-105 | numpy's `np.clip` (used here and in the controller reader) and the Python `max(min(...))` of the PIDs (for example `Brain_Code/balance_PID.py` line 73) agree whenever `lo <= hi` |
| `Numeric.CrossedBounds` | Brain_Code/pid.py:19-20 | with crossed bounds (never checked by the constructor) the Python clamp returns `min` and numpy's clip returns `max` |
| `Pid.ProportionalOnly` | Brain_Code/pid.py:64-67 | with `Ki = Kd = 0` the clamped output is `clamp(Kp * error)` whatever the accumulators hold |
| `Pid.Pid.constructor` | Brain_Code/pid.py:6-38 | gains and bounds as given; setpoint, measurement, accumulators, output, clock and report all zero; disabled |
| `Pid.Pid.Step` | Brain_Code/pid.py:49-77 | one `_loop`: records `now`, `dt`, `1/dt` and the last time. When enabled: `error = sp - x`, `integral = clamp(integral + error*dt)`, `derivative = (error - prev_error)/dt`, `prev_error = error`, output clamped, and both integral and output in `[min, max]` when `min <= max`. When disabled: output 0 and every accumulator unchanged. Either way the report is rebuilt |
| `Pid.Pid.Tick` | Brain_Code/pid.py:50-53 | step size, call rate and last time from the new clock reading |
| `Pid.Pid.Update` | Brain_Code/pid.py:55-77 | the enabled and disabled branches and the rebuilt report, as for `Step` |
| `Pid.Pid.Control` | Brain_Code/pid.py:56-67 | the enabled branch: error, clamped integral, derivative from the previous error, clamped output |
| `Pid.Pid.Loop` | Brain_Code/pid.py:83-96 | copies setpoint, measurement, gains and enable flag from its arguments, runs one step, and returns the report built from them |
| `Pid.Pid.Reset` | Brain_Code/pid.py:99-103 | zeroes integral, derivative, error and previous error; its frame leaves gains, setpoint, measurement and output alone |
| `Pid.IntegralStaysClamped` | Brain_Code/pid.py:59-60 | over any run of enabled steps the integral stays in `[min, max]` (no wind-up) |
| `BalancePid.Telescope` | Brain_Code/balance_PID.py:66 | proof helper for `Run`: two integrator steps over consecutive intervals add up to one step over their union (distributivity of the step `error*dt`) |
| `BalancePid.BalancePid.constructor` | Brain_Code/balance_PID.py:7-41 | all vectors and scalars zero, including `now`, `dt` and `frequency`; disabled; output in `[-1, 1]` |
| `BalancePid.BalancePid.Tick` | Brain_Code/balance_PID.py:55-83 | a reading less than `1/freq` after the last tick changes only `now` and `dt`. Otherwise: an enabled tick sets `error = sp - x` componentwise, adds `error*dt` to the integral unclamped, takes the derivative from the previous error, and clamps the summed twelve terms into `[-1, 1]`. A disabled tick outputs 0 and keeps the accumulators. The report is rebuilt and the output stays in `[-1, 1]` |
| `BalancePid.BalancePid.Run` | Brain_Code/balance_PID.py:52-87 | over any sequence of clock readings with setpoint and measurement held, the integral gains exactly `(sp - x) * last_time`. The returned last time is 0 or one of the readings, and the output stays in `[-1, 1]` |
| `BalancePid.BalancePid.Set` | Brain_Code/balance_PID.py:108-123 | copies setpoint, gains and flag, and sets `x = [pitch, (posL + posR)/2, gyro_y, (velL + velR)/2]` |
| `BalancePid.BalancePid.Reset` | Brain_Code/balance_PID.py:125-129 | zeroes the four accumulator vectors and nothing else |
| `LowPass.Rc` | Brain_Code/LowPass.py:11 | the time constant is positive for a positive cutoff |
| `LowPass.ComputeAlpha` | Brain_Code/LowPass.py:10-12 | alpha is in `(0, 1)` for a positive cutoff and step, in `[0, 1)` for a non-negative step, and 0 for a zero step; `1 - alpha = rc/(rc + dt)` |
| `LowPass.Blend` | Brain_Code/LowPass.py:28 | the new distance to the input is the old distance scaled by `1 - alpha`; an input equal to the previous output is a fixed point |
| `LowPass.BlendBounds` | Brain_Code/LowPass.py:28 | for alpha in `[0, 1]` the blend lies between the previous output and the input, and is no farther from the input |
| `LowPass.LowPassFilter.constructor` | Brain_Code/LowPass.py:5-8 | stores the cutoff; no previous output and no previous time |
| `LowPass.BackwardStepOvershoots` | Brain_Code/LowPass.py:15-28 | a backward wall-clock step of `rc/2` gives `alpha = -1`, and the blend lands outside the interval between the previous output and the input; this is why `Filter` requires a non-decreasing clock |
| `LowPass.LowPassFilter.Filter` | Brain_Code/LowPass.py:14-30 | the first call returns its input. A later call returns the blend with the alpha of the elapsed time, or of 0.02 s when no time is recorded; the result lies between the previous output and the input and no farther from the input. Output and time are always recorded |
| `LowPass.RepeatGeometric` | Brain_Code/LowPass.py:25-28 | under a constant input the distance after `n` calls is `(1 - alpha)^n` times the starting distance |
| `LowPass.RepeatIsGeometric` | Brain_Code/LowPass.py:28 | the distance after `n` calls is the starting distance scaled `n` times by `1 - alpha` |
| `LowPass.Converges` | Brain_Code/LowPass.py:14-30 | unit steady-state gain: under a constant input and step, the output comes within any `eps > 0` of the input after finitely many calls and stays there |
| `Motor.Scan` | Brain_Code/motor.py:52-65 | the scanner's result, when present, is exactly eight payload bytes |
| `Motor.ScanSound` | Brain_Code/motor.py:53-65 | a payload is returned only if the input really holds `0x02`, those eight bytes and `0x03` at some position |
| `Motor.TruncatedTail` | Brain_Code/motor.py:58-60 | a start marker followed by fewer than nine bytes yields nothing |
| `Motor.ResumesAfterBadEnd` | Brain_Code/motor.py:61-63 | a candidate with a wrong end byte is dropped whole and scanning resumes after it |
| `Motor.StrayMarkerHidesFrame` | Brain_Code/motor.py:57-63 | the converse of `ScanSound` fails: in `02 00 00 02 00 00 00 00 00 00 00 00 03` a well-formed frame starts at index 3, yet the scanner returns nothing, because the stray `0x02` consumed the frame's first bytes |
| `Motor.ReZero` | Brain_Code/motor.py:124-127 | after `offset += pos` the same raw reading gives position 0, inverted or not |
| `Motor.SendCommands` | Brain_Code/motor.py:84-98 | `TE0` is sent iff disabled. `TE1` is sent iff enabled on a rising edge. The target `sp*factor` (negated when inverted) is sent iff enabled, and always last |
| `Motor.EnableOncePerEdge` | Brain_Code/motor.py:87-90 | over any run of `set` calls, `TE1` is written exactly once per rising edge of `en` |
| `Motor.DisableEveryCall` | Brain_Code/motor.py:84-86 | over any run of `set` calls, `TE0` is written exactly once per disabled call |
| `Motor.Motor.constructor` | Brain_Code/motor.py:8-45 | `factor = min_max/100`, all values zero, disabled, and voltage mode then torque control written |
| `Motor.Motor.Read` | Brain_Code/motor.py:54-61 | a read returns up to `size` bytes from the front of the input and removes them |
| `Motor.Motor.ReadFrame` | Brain_Code/motor.py:52-65 | the loop returns exactly `Scan` of the input and leaves the input empty |
| `Motor.Motor.RcvData` | Brain_Code/motor.py:67-79 | with a frame: position `±raw - offset` and velocity `±raw` by the inversion flag. Without a frame: both unchanged. The invariant `pos == Corrected(rawPos, offset)` is kept |
| `Motor.Motor.SendData` | Brain_Code/motor.py:81-102 | appends exactly `SendCommands(en, en_last, ...)` to the output and sets `en_last = en` |
| `Motor.Motor.Set` | Brain_Code/motor.py:104-110 | stores and publishes flag and setpoint, then sends as `SendData` |
| `Motor.Motor.Get` | Brain_Code/motor.py:112-122 | records time and rate, applies `Scan` of the input (or keeps the state when it finds no frame), and publishes position, velocity, time and rate |
| `Motor.Motor.Reset` | Brain_Code/motor.py:124-127 | `offset' = offset + pos` and `pos' = 0`; the last raw reading now maps to 0 |
| `MotorFirmware.Elapsed` | Motor_Code/src/main.cpp:136 | the `uint32_t` difference is the plain difference without wrap, and the difference plus 2^32 across it |
| `MotorFirmware.ElapsedAcrossWrap` | Motor_Code/src/main.cpp:14-15 | the wrapped difference of two clock readings is the true elapsed time whenever that is under 2^32 ms, even across a wrap |
| `MotorFirmware.DueIffCycleElapsed` | Motor_Code/src/main.cpp:136 | a report is due exactly when at least 13 ms have really passed |
| `MotorFirmware.Frame` | Motor_Code/src/main.cpp:144-150 | the frame is 10 bytes: `0x02`, the four position bytes, the four velocity bytes, `0x03` |
| `MotorFirmware.Firmware.constructor` | Motor_Code/src/main.cpp:119 | `last_report` starts at the clock reading at the end of `setup()`, with nothing written |
| `MotorFirmware.Firmware.Loop` | Motor_Code/src/main.cpp:136-153 | when due, one frame is appended and `last_report` takes the second clock reading; otherwise nothing is written and `last_report` is kept |
| `SerialLink.FrameRoundTrip` | Brain_Code/motor.py:57-65 | the host's scanner returns exactly the eight payload bytes of a frame the firmware wrote, whatever follows it |
| `SerialLink.SkipsNoise` | Brain_Code/motor.py:53-57 | bytes other than the start marker in front of the input are skipped |
| `SerialLink.OldestReportWins` | Brain_Code/motor.py:64-65 | from a backlog of reports behind noise that holds no `0x02` the host takes the oldest one, and nothing when there is none. Noise containing a stray `0x02` can hide a report (`Motor.StrayMarkerHidesFrame`) |
| `SerialLink.HostDecodesReport` | Brain_Code/motor.py:65-71 | position is decoded from the firmware's position bytes and velocity from its velocity bytes, in that order |
| `Gamepad.Stick` | Brain_Code/ps4_controller.py:174-178 | a stick axis lies in `[0, 255]` and equals `255 - raw - offset` when that is in range |
| `Gamepad.StickInverted` | Brain_Code/ps4_controller.py:170-178 | a larger raw value never gives a larger stick position |
| `Gamepad.LeftStickX` | Brain_Code/ps4_controller.py:169-172 | the left stick's horizontal axis lies in `[0, 255]`. It snaps to 127.5 iff the clipped value is strictly within 5 of it, so it is never strictly between 122.5 and 132.5 except at 127.5 |
| `Gamepad.Trigger` | Brain_Code/ps4_controller.py:179-182 | a trigger lies in `[0, 255]` and equals `raw - offset` (not inverted) when that is in range |
| `Gamepad.TriggerMonotone` | Brain_Code/ps4_controller.py:179-182 | a larger raw value never gives a smaller trigger position |
| `Gamepad.Apply` | Brain_Code/ps4_controller.py:140-188 | an event keeps every axis in `[0, 255]`; an event of another type or an unmapped code changes nothing |
| `Gamepad.ApplyWritesOneField` | Brain_Code/ps4_controller.py:140-188 | an event changes exactly the field it addresses, to the value `Written` gives it (flag `value != 0`, negated d-pad, clipped axes), and no other field |
| `Gamepad.KeyWritesOneField` | Brain_Code/ps4_controller.py:140-165 | the same for button events: SOUTH→`x`, EAST→`o`, NORTH→`d`, WEST→`v`, and the rest of the button map |
| `Gamepad.AbsWritesOneField` | Brain_Code/ps4_controller.py:167-188 | the same for absolute-axis events: sticks, triggers and the d-pad |
| `Gamepad.LastWriteWins` | Brain_Code/ps4_controller.py:137-188 | after any run of events each field holds its newest write, or its old value if none addressed it |
| `Gamepad.ApplyAllInRange` | Brain_Code/ps4_controller.py:167-182 | no run of events can push an axis or trigger out of `[0, 255]` |
| `Gamepad.Controller.constructor` | Brain_Code/ps4_controller.py:26-56 | nothing pressed, every axis and the d-pad at 0, not connected |
| `Gamepad.Controller.HandleEvent` | Brain_Code/ps4_controller.py:140-188 | the fields after one event are `Apply` of the fields before |
| `Gamepad.Controller.HandleKey` | Brain_Code/ps4_controller.py:140-165 | the fields after a button event are `ApplyKey` of the fields before |
| `Gamepad.Controller.HandleFrontKey` | Brain_Code/ps4_controller.py:144-155 | the same for the face and shoulder buttons |
| `Gamepad.Controller.HandleMiddleKey` | Brain_Code/ps4_controller.py:156-165 | the same for share, options, the stick clicks and the PS button |
| `Gamepad.Controller.HandleAbs` | Brain_Code/ps4_controller.py:167-188 | the fields after an axis event are `ApplyAbs` of the fields before |
| `Gamepad.Controller.ProcessInputs` | Brain_Code/ps4_controller.py:134-188 | the fields after a read are the events applied oldest first |
| `Gamepad.Controller.Get` | Brain_Code/ps4_controller.py:207-233 | the snapshot holds the current time, rate, link flag and every field |
| `Eyes.ColorOrWhite` | Brain_Code/eyes.py:101-103 | a known colour name gives its colour, and an unknown one gives white |
| `Eyes.ColumnEntry` | Brain_Code/eyes.py:40-53 | every column entry is an LED of a panel, and the witness tables point back at its column and slot |
| `Eyes.ColumnRowStep` | Brain_Code/eyes.py:32-53 | going down a column, each LED lies two rows further up than the one before |
| `Eyes.ColumnCovers` | Brain_Code/eyes.py:40-53 | every LED of a panel is in some column |
| `Eyes.ColumnsPartitionPanel` | Brain_Code/eyes.py:40-53 | the thirteen columns hold every LED 0..36 exactly once and nothing else |
| `Eyes.RowEntry` | Brain_Code/eyes.py:32-39 | every row entry is an LED of a panel in the row `RowOf` names |
| `Eyes.RowCovers` | Brain_Code/eyes.py:32-39 | every LED of a panel is in some row |
| `Eyes.RowsPartitionPanel` | Brain_Code/eyes.py:32-39 | the seven rows hold every LED 0..36 exactly once and nothing else |
| `Eyes.RowMeetsColumnOnce` | Brain_Code/eyes.py:128-139 | a row and a column share at most one LED |
| `Eyes.ColumnRows` | Brain_Code/eyes.py:40-53 | the LEDs of one column lie in different rows |
| `Eyes.Position` | Brain_Code/eyes.py:117 | `int(np.interp(np.clip(v, lo, hi), [lo, hi], [0, n - 1]))` is always a valid index. It is the last for a reading at or above the top of a well-formed range, the first at or below the bottom of a proper one, and the first when the bounds cross |
| `Eyes.PositionMonotone` | Brain_Code/eyes.py:117-123 | on a well-formed range a larger reading never selects an earlier row or column |
| `Eyes.ModuleOffset` | Brain_Code/eyes.py:107-114 | the panel offset is 37 iff the name is `"left"`, and 0 otherwise |
| `Eyes.LineStaysInPanel` | Brain_Code/eyes.py:100-139 | `line()` leaves every LED outside the selected panel unchanged |
| `Eyes.BarStaysInPanel` | Brain_Code/eyes.py:116-126 | the same for a horizontal or vertical bar |
| `Eyes.CrossStaysInPanel` | Brain_Code/eyes.py:128-139 | the same for a cross |
| `Eyes.CrossColours` | Brain_Code/eyes.py:128-139 | in a cross, cells in both the column and the row get the combination colour, column-only cells the first colour, row-only cells the second, and the rest keep theirs |
| `Eyes.CrossCombOnce` | Brain_Code/eyes.py:134-139 | a cross paints the combination colour on at most one LED |
| `Eyes.OverlapsMeans` | Brain_Code/eyes.py:95-98 | `Overlaps(start, end)` holds exactly when `range(start, end)` contains an LED index |
| `Eyes.SingleIndex` | Brain_Code/eyes.py:90-93 | the written index exists iff `idx + 37*module` is in `[-74, 74)`, and is that index modulo 74 (Python's negative indexing) |
| `Eyes.Eyes.constructor` | Brain_Code/eyes.py:19-68 | a black frame buffer, a white last-sent frame, and the black frame written once |
| `Eyes.Eyes.Heartbeat` | Brain_Code/eyes.py:70-80 | records time and rate and writes the one-pixel sign-of-life frame |
| `Eyes.Eyes.Clear` | Brain_Code/eyes.py:82-83 | writes an all-black frame and leaves the buffer alone |
| `Eyes.Eyes.ClearRange` | Brain_Code/eyes.py:85-88 | exactly the indices in `[start, end)` that are LEDs become black; the rest are unchanged |
| `Eyes.Eyes.FillRange` | Brain_Code/eyes.py:95-98 | with a known colour, exactly the indices in `[start, end) ∩ [0, 74)` get it. An unknown colour raises `KeyError` iff that range holds an LED, and writes nothing |
| `Eyes.Eyes.Single` | Brain_Code/eyes.py:90-93 | an unknown colour raises `KeyError` first, a bad index then raises `IndexError`, and otherwise exactly the one resolved entry changes |
| `Eyes.Eyes.Paint` | Brain_Code/eyes.py:116-126 | the loop sets exactly the table's cells of the chosen panel to the colour |
| `Eyes.Eyes.CrossRow` | Brain_Code/eyes.py:134-139 | the loop gives the row's cells the second colour, or the combination colour where the column also passes |
| `Eyes.Eyes.Line` | Brain_Code/eyes.py:100-139 | the buffer after `line()` is `LineFrame` of the buffer before |
| `Eyes.Eyes.Show` | Brain_Code/eyes.py:141-145 | afterwards `leds_last == leds`; the frame is written iff it differed, and the buffer is unchanged |

## Left out

- Threads, locks, busy-wait loops and `time.sleep` are not modelled. This covers `start`, `stop`,
  `_thread_loop`, the controller's `loop` and reconnect, and `restart`. Clock readings
  (`time.perf_counter`, `time.time`, `millis()`) are parameters.
- Device I/O is reduced to logs. Opening the serial port, the SPI bus and the input device,
  and the exception paths when that fails (`mot = None`, `bno = None`), are not modelled: every
  write succeeds.
- Floats are Dafny `real`s. Rounding, NaN and infinities are not modelled; `int()` of a
  non-negative interpolated value is `Floor`.
- `struct.unpack('<ff')` is a function parameter `f32` from four bytes to a real. The firmware's
  in-memory float bytes are parameters. The `f"T{...:.3f}"` formatting of the target command is
  kept as an abstract `Target(value)`.
- The filtered velocity `velocity_LP` in the motor's data dictionary is never updated by the
  source, so it is carried along unchanged.
- The SimpleFOC motor setup, `loopFOC`, `move` and the command parser on the firmware side are
  not modelled.
- `Pid.Pid.Step`, `Pid.Pid.Loop`, `Pid.Pid.Tick`, `Motor.Motor.Get` and `Eyes.Eyes.Heartbeat`
  require a clock reading different from the last one. The source divides by the difference
  outside any exception handler and would raise `ZeroDivisionError`.
- `LowPass.LowPassFilter.constructor` requires a positive cutoff, and `LowPass.LowPassFilter.Filter`
  requires a non-decreasing clock. `time.time()` is a wall clock and can step backwards. A step
  of exactly `-rc` makes `rc + dt` zero, and the source raises `ZeroDivisionError`. Any other
  backward step raises nothing: alpha falls outside `[0, 1]`, and the output leaves the interval
  between the previous output and the input. The model excludes both cases; `LowPass.BackwardStepOvershoots`
  exhibits the second.
- The Kalman observer (`Brain_Code/kalman.py`) is not modelled. It is built on matrix numerics
  from `numpy` and `control`.
- The LQR controller (`Brain_Code/lqr.py`) is not modelled. Its enabled branch is a placeholder.
- `BalancePid.BalancePid.constructor` requires `freq > 0`, as the `1/freq` guard assumes.
- `Motor.Motor.Get` and `Motor.Motor.Set`: in the source, `get()` returns the live `data`
  dictionary, and `set()` later mutates that same dictionary in place, so a caller holding an
  earlier result sees later writes. The model returns a `MotorData` value, a snapshot taken at
  the call, and does not capture this aliasing.
- `Gamepad.Controller.constructor` also sets the published snapshot. The source's first
  dictionary has no `connected` entry; the model's starts with `connected = false`.
- Button flags are stored wrapped in a one-field `Button` datatype inside the state value. This
  changes nothing observable.
- The frequency of the controller thread (`_thread_loop`) is not modelled, because that loop is
  left out.
- The colour lists in `eyes.py` are shared references, but no code mutates them, so the model
  stores colours as values.
- The first executed tick of both PIDs uses `dt = now - 0.0`, because `last_time` starts at 0.
  The model keeps this as written.
