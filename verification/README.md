# Blechbieger motion core in Dafny

A model of the firmware of the Blechbieger two-axis sheet-metal bender
(`src/main.cpp`). One stepper feeds the sheet by a length and a second one
swings the bending arm by an angle. A limit switch gives the bending arm its
zero. The model covers:

- the conversion of degrees and millimetres into motor steps
  (`angleToSteps`, `lengthToSteps`, and Arduino's `map()` underneath them);
- the operator input: the mode chosen at start-up, the split of a
  `length,angle` line at its first comma, `angleValid`, and the gate that
  lets `bend` run only after the reply `y` and, in angle mode, only for a
  valid angle;
- the bend cycle (feed, reset the feeder, bend, dwell, bend back);
- the homing run in `setup` (seek the switch while zeroing, retract 1400
  steps, zero both axes);
- the firmware's globals `mode`, `dataIn` and `confirmation`, and the two
  axes. They are the fields of the class `Bender.Machine`.

Files:

- `arduino.dfy` (module `Arduino`): C++ float-to-integer truncation and
  integer division, Arduino's `map()`, `String::indexOf` and
  `String::substring`.
- `unit_conversion.dfy` (module `UnitConversion`): the two 19-entry tables.
  It has the lookup as written, the lookup with its index errors removed,
  `angleValid` and `lengthToSteps`.
- `operator_input.dfy` (module `OperatorInput`): mode selection, the field
  split, and what `stepMode` and `angleMode` decide for a line and its reply.
- `stepper.dfy` (module `Stepper`): one AccelStepper axis as a class. It has
  a logical `position`, a commanded `speed`, and a ghost `physical` position
  and `path` that record where the motor has actually been.
- `bender.dfy` (module `Bender`): the machine. It holds the globals, `bend`,
  homing, `setup`, `stepMode`, `angleMode` and `loop`.

Angles and lengths are floats in the firmware. Here they are `real`, and the
firmware's conversions to integers go through `Arduino.Trunc` (truncation
toward zero). Every step count is an unbounded `int`.

Where the firmware's loops never end, the model stops and reports it. This
happens in `bend` when a target lies behind the direction of motion. The
axis is then left as it was when the endless loop began.
`Stepper.ReachesIffSomeTickCount` proves that no number of ticks would ever
reach such a target.

The firmware wraps the motion code of `bend` and `setup` in
`#ifndef DRY_TESTING`, and `DRY_TESTING` is defined at `src/main.cpp:6`. So
the firmware as built moves nothing. The model describes the guarded code,
which is the intended behaviour.

Three facts about the code that a reader might expect otherwise:

- `lengthToSteps` truncates instead of rounding (1 mm gives 1 step, not 2;
  `UnitConversion.LengthOneMillimetre`).
- Nothing clamps an angle above 90 degrees to the last table entry. The
  lookup as written reads entry 19 for it
  (`UnitConversion.AngleAboveTableReadsPastIt`); the corrected lookup falls
  through to the final `return 0`.
- No homing or motion timeouts exist in the code.

## Model

| member | source | states |
|---|---|---|
| `Arduino.Trunc` | src/main.cpp:42 | float-to-long conversion keeps the whole part: for x >= 0, t <= x < t + 1; for x < 0, t - 1 < x <= t |
| `Arduino.TruncMonotone` | src/main.cpp:51 | truncation toward zero is non-decreasing |
| `Arduino.TruncDiv` | src/main.cpp:51 | C++ `/` by a positive divisor truncates toward zero: the largest q with q*b <= a for a >= 0, the smallest q with a <= q*b for a < 0 |
| `Arduino.TruncDivMonotone` | src/main.cpp:51 | truncating division by a positive divisor preserves order |
| `Arduino.TruncDivExact` | src/main.cpp:51 | an exact multiple divides back to its factor |
| `Arduino.Map` | src/main.cpp:42 | `map()` sends in_min to exactly out_min and in_max to exactly out_max |
| `Arduino.IndexOf` | src/main.cpp:110 | `indexOf` gives -1 exactly when the character is absent, and otherwise the index of its first occurrence |
| `Arduino.Substring` | src/main.cpp:110 | `substring(left, right)` is the slice between the bounds, bounds swapped when reversed, and empty when both lie at or past the end |
| `Arduino.SubstringFrom` | src/main.cpp:111 | `substring(left)` is the suffix from `left` |
| `UnitConversion.TablesAreLinear` | src/main.cpp:32-35 | both tables have 19 entries, entry i is 5*i degrees, and its step count is twice its angle |
| `UnitConversion.SegmentDoubles` | src/main.cpp:42 | `map()` over one table segment doubles any truncated angle inside that segment |
| `UnitConversion.AngleToSteps` | src/main.cpp:29-46 | the lookup as written yields 2*trunc(angle) for 0 < angle <= 90; it reads entry -1 for angle <= 0 and entry 19 for angle > 90 |
| `UnitConversion.AngleStepsAtBreakpoints` | src/main.cpp:32-42 | at breakpoints 1 to 18 the lookup returns that breakpoint's step count; at breakpoint 0 it reads entry -1 |
| `UnitConversion.AngleStepsInterpolates` | src/main.cpp:37-43 | inside a table segment the result lies between the two breakpoints' step counts |
| `UnitConversion.AngleStepsDomain` | src/main.cpp:37-45 | the lookup yields a step count exactly for angles in (0, 90], and that count lies in [0, 180] |
| `UnitConversion.AngleStepsMonotone` | src/main.cpp:37-43 | on (0, 90] the lookup is non-decreasing |
| `UnitConversion.AngleValid` | src/main.cpp:85-95 | `angleValid` admits exactly [0, 90], the span of the angle table |
| `UnitConversion.ValidAnglesConvertExceptZero` | src/main.cpp:85-95 | the lookup as written succeeds exactly for valid angles other than 0 |
| `UnitConversion.ZeroAngleReadsBeforeTable` | src/main.cpp:39-42 | 0 degrees passes `angleValid` and makes the lookup read entry -1 |
| `UnitConversion.AngleAboveTableReadsPastIt` | src/main.cpp:37-39 | 91 degrees makes the lookup read entry 19 of the 19-entry tables |
| `UnitConversion.AngleToStepsCorrected` | src/main.cpp:29-46 | the lookup with the loop bounded by the table and entry 0 answered from the table: steps[0] at or below 0, 2*trunc(angle) on (0, 90], 0 above |
| `UnitConversion.AngleStepsCorrectedAtBreakpoints` | src/main.cpp:32-35 | the corrected lookup returns steps[i] at every angles[i], including i = 0 |
| `UnitConversion.AngleStepsCorrectedMonotone` | src/main.cpp:85-95 | over the angles `angleValid` admits, the corrected lookup is non-decreasing and within [steps[0], steps[18]] |
| `UnitConversion.AngleStepsCorrectedAgrees` | src/main.cpp:37-45 | wherever the lookup as written yields a count, the corrected one yields the same count |
| `UnitConversion.LengthToSteps` | src/main.cpp:48-52 | `lengthToSteps` is 1.8 steps per whole millimetre, truncated toward zero on both sides of zero |
| `UnitConversion.LengthToStepsEndpoints` | src/main.cpp:51 | 0 mm gives 0 steps and 100 mm gives 180 steps |
| `UnitConversion.LengthToStepsMonotone` | src/main.cpp:48-52 | `lengthToSteps` is non-decreasing over all lengths |
| `UnitConversion.LengthToStepsNegative` | src/main.cpp:48-52 | the result is negative exactly when the length is -1 mm or less; nothing rejects it |
| `UnitConversion.LengthOneMillimetre` | src/main.cpp:51 | 1 mm gives 1 step (1.8 truncated, not rounded) |
| `OperatorInput.SelectMode` | src/main.cpp:219-234 | the choice 2 selects steps mode and every other number selects angle mode |
| `OperatorInput.Fields` | src/main.cpp:110-111 | with a comma, the first field has no comma and first + "," + second is the line; without one, both fields are the whole line |
| `OperatorInput.StepModeCommand` | src/main.cpp:109-137 | steps mode bends exactly when the reply is "y", with the parsed numbers unchanged and unchecked |
| `OperatorInput.AngleModeCommand` | src/main.cpp:152-194 | angle mode refuses exactly the invalid angles, bends exactly on a valid angle and "y", with the corrected lookup giving a bend of 0 to 180 steps, and the converted length |
| `OperatorInput.Dispatch` | src/main.cpp:262-279 | `loop` refuses a line only in angle mode and exactly for an invalid angle, and declines exactly an unconfirmed line that was not refused |
| `OperatorInput.BendOnlyWhenConfirmed` | src/main.cpp:134-137 | in either mode a bend happens if and only if the reply is "y" and, in angle mode, the angle is valid |
| `OperatorInput.AngleModeLengthSign` | src/main.cpp:183 | an angle-mode bend asks for a negative feed exactly when the length is -1 mm or less |
| `Stepper.RampShape` | src/main.cpp:60-64 | stepping from a to b passes as many positions as a and b are apart, one step apart, never outside [a, b], reaching b only at the end |
| `Stepper.ReachesIffSomeTickCount` | src/main.cpp:60-81 | a position-target loop can end if and only if some number of ticks lands on the target; a target behind the direction of motion is never reached |
| `Stepper.Axis.constructor` | src/main.cpp:12-13 | a new axis stands at position 0 |
| `Stepper.Axis.SetSpeed` | src/main.cpp:62 | `setSpeed` records the commanded speed |
| `Stepper.Axis.Tick` | src/main.cpp:63 | `run()` moves the motor and its position one step in the sign of the speed |
| `Stepper.Axis.SetCurrentPosition` | src/main.cpp:65 | `setCurrentPosition` renames the position without moving the motor |
| `Stepper.Axis.RunUntil` | src/main.cpp:60-64 | the loop ends exactly when the target is reachable; the motor then steps straight to it through every position between, and the position equals the target |
| `Bender.Machine.constructor` | src/main.cpp:12-22 | at power-on both axes are at 0, the mode is angle mode and both strings are empty |
| `Bender.Machine.Bend` | src/main.cpp:54-83 | from rest, the cycle completes if and only if both targets are >= 0; the feeder then moves exactly lengthSteps and is reset to 0; the bender goes out to exactly angleSteps and back to where it started; a negative target hangs in that motion |
| `Bender.Machine.SeekStep` | src/main.cpp:246-248 | one pass of the seek loop moves the bender exactly one step toward the switch at the homing speed and renames that place 0 |
| `Bender.Machine.Seek` | src/main.cpp:244-249 | the seek loop steps once per released poll and zeroes the position each time, so the bender is at 0 when the switch reads pressed |
| `Bender.Machine.Home` | src/main.cpp:244-259 | once the switch reads pressed, the bender retracts exactly 1400 steps from that point and both axes end at 0; with no pressed poll it is still seeking, the bender at 0 and the feeder untouched |
| `Bender.Machine.Setup` | src/main.cpp:197-261 | `setup` stores the mode line, selects the mode from it, then homes |
| `Bender.Machine.StepMode` | src/main.cpp:97-138 | `stepMode` stores the line and reply and runs a bend cycle for the parsed step counts exactly on "y"; otherwise the axes are untouched |
| `Bender.Machine.BendIfConfirmed` | src/main.cpp:134-137 | the shared tail of both modes runs a bend cycle for exactly the given step counts when the stored confirmation is "y", and moves nothing otherwise |
| `Bender.Machine.ConvertAndBend` | src/main.cpp:180-189 | after a valid angle, the bend cycle that runs on "y" is for the corrected angle lookup and `lengthToSteps` of the length |
| `Bender.Machine.AngleMode` | src/main.cpp:140-195 | `angleMode` asks for, and stores, a reply only for a valid angle, and runs a bend cycle for the converted step counts exactly on a valid angle and "y" |
| `Bender.Machine.Loop` | src/main.cpp:263-280 | `loop` runs the selected mode's command, storing the line, and the reply whenever that mode asks for one; after no bend or a completed one, both axes are at rest again |

## Left out

- Serial I/O, the busy-waits on `Serial.available()`, `readString`,
  `readStringUntil` and the serial timeouts: each operation receives the
  line and the reply it would read.
- All `println` output, the banner, and the name and version strings.
- `String::toInt` and `String::toFloat`: these are library code and are not
  part of this model. They are passed in as the functions `toInt` and
  `toFloat`.
- `String::indexOf` and `String::substring` come from the Arduino core,
  which is not part of this model. Their behaviour is written out in
  `Arduino.IndexOf` and `Arduino.Substring`. A negative bound converted to
  `unsigned int` is taken to lie past the end of any string.
- Floating point: angles and lengths are exact reals. Rounding of float
  inputs is not modelled, and neither is the float comparison of positions
  in `bend`, which is exact for the small step counts involved.
- Integer widths: `long`/`int` overflow inside `map()` and the `int` return
  of the two conversions are not modelled, because signed overflow in C++
  has no defined result. The model is exact while the products stay in
  range, which holds for lengths within a few thousand millimetres.
- AccelStepper internals: acceleration in `run()`, step timing and pulse
  generation. One tick is one step in the direction of the speed. A call
  that takes no step only repeats the loop and changes no end state.
  `setMaxSpeed(2000)` (lines 240-241) only bounds the speed's magnitude,
  and 1200 is below it.
- `delay()`, `pinMode`, pin numbers and the `Servo` include are hardware
  glue. The limit switch is a sequence of `digitalRead` results.
- `Bender.Machine.Home`: when the polls run out before the switch reads
  pressed, the model reports "still seeking". The firmware would go on
  polling.
- `Bender.Machine.Bend` and `Stepper.Axis.RunUntil`: a target behind the
  direction of motion makes the firmware loop forever. The model returns at
  once, with no further motion, instead of modelling the unbounded run.
- `Bender.Machine.Bend` and `Bender.Machine.Home` require both axes at 0.
  This is the state after power-on and after every completed cycle; a cycle
  that does not complete never returns in the firmware.
- `Bender.Machine.AngleMode` converts with `AngleToStepsCorrected` rather
  than the lookup as written; see Findings.
- `OperatorInput.AngleModeCommand` uses the corrected lookup: a valid 0
  degree angle gets 0 steps, where the firmware's `angleToSteps(0)` reads
  entry -1 of both tables and has no defined result.
- `Bender.Machine.ConvertAndBend` converts with the corrected lookup: a
  valid 0 degree angle bends to 0 steps, where the firmware reads entry -1
  of both tables.
- The `Error: mode not set` branch of `loop` (line 278) cannot be taken,
  since the mode has only two values.
- Homing and motion timeouts, stall errors and clamping are not in the code
  and are not modelled.

## Findings

| source | as written | input that shows it | evidently intended | confidence | as-written member | corrected member |
|---|---|---|---|---|---|---|
| src/main.cpp:39-42 | at `i = 0` the lookup maps between `angles[-1]` and `angles[0]`, reading before both arrays; `angleValid` lets 0 through to it | angle 0.0 (valid per `angleValid`) | an angle at the first breakpoint gives `steps[0]` = 0 | high; not executed | `UnitConversion.ZeroAngleReadsBeforeTable` | `UnitConversion.AngleToStepsCorrected` |
| src/main.cpp:37 | the loop runs `i < 20` over 19-entry arrays, so an angle above 90 compares against `angles[19]` | angle 91.0 | the search stays inside the table and falls through to `return 0` | high; not executed | `UnitConversion.AngleAboveTableReadsPastIt` | `UnitConversion.AngleToStepsCorrected` |
