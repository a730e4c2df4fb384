# Servo tester control loop, modelled in Dafny

This project models the control core of an ATtiny84 servo-tester sketch
(`src/main.cpp`). A potentiometer, a single push button and a three-digit
seven-segment display drive one hobby servo. Each pass of `loop()`:

1. averages eight potentiometer samples (`readAveragedPotValue`);
2. runs the current mode's motion policy (`handleModes()`):
   - **Manual** moves the servo pulse toward an inverted map of the pot,
     at most 10 µs per tick;
   - **Sweep** ping-pongs the pulse between 600 and 2400 µs in 10 µs steps.
     The step interval (5 to 50 ms) follows the pot, but only when the
     reading moves by more than 5;
   - **Center** writes a fixed pulse;
   - **Calibrate** does nothing;
3. shows the sweep interval (in Sweep) or the servo angle (otherwise) on the
   display, with leading positions dark;
4. handles the button:
   - the raw level is debounced (50 ms);
   - each accepted press is timed;
   - a release after at least 1000 ms enters Center;
   - a second short release within 300 ms of the first toggles Manual and Sweep;
   - a first tap left pending for more than 300 ms enters Calibrate.

The model has one module per concern:

- `Arduino`: the wrapping `unsigned long` clock (`Elapsed`), C's truncating
  division (`TruncDiv`), the core's `map` and `uint16_t` conversion (`U16`).
- `Modes`: the `Mode` enumeration and the double-tap toggle.
- `Motion`: `handleModes()` as pure transition functions on a `MotionState`.
  Its lemmas cover the Manual step (bounded, no overshoot, exact convergence
  time), the inverted pot mapping, the sweep's bounds and period, and the
  sweep-rate mapping.
- `Gesture`: the button handling as a pure transition `ButtonStep` on a
  `Control` value, plus runs over several ticks. Its lemmas cover debounce
  (also across a wrap of the clock), the long press and the tap timeout,
  with concrete gesture scenarios.
- `Display`: the hundreds/tens/ones split, the glyph choice of
  `displayDigit`, and the pulse-to-angle mapping.
- `Pot`: `readAveragedPotValue` as a method with a loop, proved to return the
  truncated mean, which lies between the smallest and largest sample.
- `Sketch`: class `ServoTester`. Its fields are the sketch's globals and the
  function-static variables of `handleModes()`. Its methods update them in
  place the way the C++ does, and each method is proved equal to the
  matching pure transition. `Tick` is one `loop()` pass. Its object
  invariant keeps the pulse in [600, 2400] µs, the sweep on its 10 µs grid
  and the interval in [5, 50] ms.

Notes on the code as written, which the model follows:

- **Inverted Manual map.** `map(potValue, 1023, 0, servoMin, servoMax)` is
  inverted: pot 0 gives 2400 µs and pot 1023 gives 600 µs. A reading of 900
  gives 816 µs (`ManualScenario`), not the 2183 µs of a non-inverted mapping.
- **Truncating division.** `map` divides by a negative number here, so the
  model uses truncating division rather than Dafny's Euclidean `/`.
- **Center pulse.** Center writes `(servoMax - servoMin) / 2`, which is
  900 µs, not the midpoint 1500 µs. It writes that value on every tick it
  stays in Center. The display then shows 30 degrees (`AngleRange`).
- **Long press from Calibrate.** A long press enters Center from every mode,
  including Calibrate.
- **Toggle target.** A double tap goes to Manual from every mode except
  Manual, which goes to Sweep.
- **Calibration is only a mode.** Calibrate only sets `currentMode` and
  `isChoosingCalibrationSlot`. No slot capture, slot bands or non-volatile
  storage exist in the code, so none are modelled.
- **When timing starts.** Press durations and the 300 ms window are measured
  from the debounced edges. Those edges come more than 50 ms after the raw
  change.
- **The tap timeout runs during a hold.** The timeout check at lines 180-184
  runs on every tick, whether or not the button is held. If a press begins
  while a first tap is pending, the mode becomes Calibrate (with
  `isChoosingCalibrationSlot` set) on the first tick of the hold more than
  300 ms after the tap's release (`TimeoutFiresDuringHold`). A long release
  then enters Center and leaves the flag set (`HoldThroughTimeoutScenario`).
  A long release can only cancel a pending tap (`LongPressCancelsPendingTap`)
  when more than 300 ms pass between two ticks.
- **Tick order.** The motion policy runs before the button handling. So a
  mode change takes effect on the servo one tick later: `Tick` applies
  `HandleModes` with the old mode.

## Model

| member | source | states |
|---|---|---|
| Arduino.Elapsed | src/main.cpp:155 | the `unsigned long` difference `millis() - t` wraps modulo 2^32: adding it back to `t` gives `now`, and it is the plain difference when no wrap occurred |
| Arduino.ElapsedChain | src/main.cpp:155 | wrapped elapsed times measured from a common origin subtract: when `b` is no earlier than `a` as seen from the origin, `b - a` on `unsigned long` is the difference of their times since the origin |
| Arduino.TruncDiv | src/main.cpp:196 | C division: the remainder has the dividend's sign and is smaller than the divisor in magnitude (truncation toward zero) |
| Modes.Toggled | src/main.cpp:169 | the double-tap target is Sweep exactly when the mode was Manual, and Manual otherwise |
| Motion.ManualTargetRange | src/main.cpp:196 | for every pot reading in [0, 1023] the Manual target equals 600 + (1023 - pot) * 1800 / 1023, lies in [600, 2400], and is 2400 at pot 0 and 600 at pot 1023 |
| Motion.ManualTargetInverted | src/main.cpp:196 | a larger pot reading never gives a larger target (the mapping is inverted) |
| Motion.ManualStep | src/main.cpp:198-202 | one Manual tick moves the pulse by min(10, distance) toward the target, closing the gap by that much, and ends between the old pulse and the target (no overshoot, unchanged when already there) |
| Motion.ApproachDistance | src/main.cpp:194-205 | after n Manual ticks with a steady target the gap is max(0, gap - 10 n), and the pulse never leaves the segment between start and target |
| Motion.ApproachReachesTarget | src/main.cpp:194-205 | the pulse equals the target after n ticks exactly when n >= ceil(gap / 10) |
| Motion.ManualScenario | src/main.cpp:196-202 | pot 900 targets 816 µs; from 600 µs the pulse gets there in 22 ticks and not in 21 |
| Motion.SweepStep | src/main.cpp:221-233 | a sweep step keeps the position in [600, 2400]; from any reachable state it moves exactly 10 µs in the current direction and turns round exactly when it lands on a limit |
| Motion.SweepStepsAdd | src/main.cpp:218-236 | n + k sweep steps are k steps after n steps |
| Motion.SweepRising | src/main.cpp:221-226 | heading right from 600 + 10 j, k steps give 600 + 10 (j + k), and reaching 2400 turns the sweep left |
| Motion.SweepFalling | src/main.cpp:227-232 | heading left from 2400 - 10 j, k steps give 2400 - 10 (j + k), and reaching 600 turns the sweep right |
| Motion.SweepPeriod | src/main.cpp:208-236 | from its initial state the sweep reaches 2400 µs after 180 steps and is back at 600 µs heading right after 360 |
| Motion.SweepIntervalRange | src/main.cpp:214 | for every pot reading in [0, 1023] the sweep interval is 5 + (1023 - pot) * 45 / 1023 ms, in [5, 50], 50 at pot 0 and 5 at pot 1023 |
| Motion.InitialMotionInv | src/main.cpp:80-83 | the initial motion state (1500 µs, 15 ms, sweep at 600 µs heading right) satisfies the motion invariant |
| Motion.InitLastPot | src/main.cpp:190 | after the static initialiser has run the flag is set; on the first call `lastPotValue` becomes this reading, on later calls the state is untouched, and nothing else changes |
| Motion.InitLastPotOnce | src/main.cpp:190 | the initialiser runs once: a second call with any reading changes nothing, so `lastPotValue` keeps the first call's reading |
| Motion.HandleModesInitialisesOnce | src/main.cpp:189-190 | every `handleModes()` call leaves the initialiser done; outside Sweep, `lastPotValue` is the first call's reading, or unchanged on later calls |
| Motion.ManualTick | src/main.cpp:194-206 | the Manual case changes only the servo pulse and keeps the motion invariant for in-range pot readings |
| Motion.AdjustSweepRate | src/main.cpp:213-216 | the interval and `lastPotValue` change only when the pot moved by more than 5, and then become the mapped interval and the new reading; the invariant is kept |
| Motion.AdvanceSweep | src/main.cpp:218-236 | when the interval has elapsed, one sweep step is taken, written to the servo and time-stamped; otherwise nothing changes; the invariant is kept |
| Motion.HandleModes | src/main.cpp:189-254 | one `handleModes()` call keeps the motion invariant. Manual takes one bounded step. The sweep rate follows the pot only in Sweep and only past the noise threshold. The sweep moves only in Sweep and only when due, and otherwise keeps its position and direction. Center writes 900 µs. Calibrate leaves the servo alone |
| Gesture.ButtonStep | src/main.cpp:151-186 | one tick of button handling. The debounced level follows the raw level only when the raw level equals the previous tick's and has been unchanged for more than 50 ms. An accepted press records its time, and only a first tap records its release time. A release held at least 1000 ms enters Center and cancels a pending tap. A short release with a tap pending for at most 300 ms toggles Manual/Sweep and clears the tap. Any other short release starts a pending tap without changing the mode. Without a release, a tap pending for more than 300 ms enters Calibrate and sets the slot-choosing flag; otherwise the mode and the pending tap are unchanged |
| Gesture.NoAcceptWithinWindow | src/main.cpp:151-157 | ticks in clock order that all fall within 50 ms (as the wrapping clock measures it) after a point no later than the last raw change leave the debounced level unchanged |
| Gesture.BounceIsIgnored | src/main.cpp:151-157 | once the raw level changes, no sequence of raw levels within the next 50 ms changes the debounced level, also when the window straddles the wrap of `millis()` |
| Gesture.WrapBounceScenario | src/main.cpp:151-157 | raw changes at 2^32 - 16, 10 and 20 ms keep the button released at 34 ms, and the press is accepted at 71 ms |
| Gesture.IdleKeepsMode | src/main.cpp:180-186 | with the button up and no tap pending, ticks with the button up change neither the mode nor the pending state |
| Gesture.LongPressCancelsPendingTap | src/main.cpp:162-166 | a long release enters Center even with a tap pending, and that tap never fires while the button stays up |
| Gesture.PendingTapTimesOut | src/main.cpp:180-184 | with a tap pending and the button kept at its debounced level (up, or held down), ticks within 300 ms of the tap's release keep the mode and the pending tap; the first tick past that ends in Calibrate, with the slot-choosing flag set and no tap pending |
| Gesture.TimeoutFiresDuringHold | src/main.cpp:159-184 | a press accepted while a first tap is pending does not stop its timeout: the held button enters Calibrate on the first tick more than 300 ms after the tap's release |
| Gesture.SingleTapScenario | src/main.cpp:151-186 | a 100 ms tap from Manual is still pending at 240 ms after its accepted release and enters Calibrate at 310 ms |
| Gesture.DoubleTapScenario | src/main.cpp:167-171 | two short taps whose accepted releases are 300 ms apart switch Manual to Sweep |
| Gesture.HoldThroughTimeoutScenario | src/main.cpp:151-186 | a tap released at 1160 followed by a press accepted at 1260 gives Calibrate at 1500 during the hold; the release at 2460 then gives Center with the slot-choosing flag still set |
| Gesture.LongPressScenario | src/main.cpp:159-166 | a press accepted at 1060 and released (accepted) at 2160 enters Center |
| Display.GlyphFor | src/main.cpp:265-274 | `displayDigit` lights a digit 0-9 exactly for the codes '0' to '9', and nothing for every other code |
| Display.DigitSplit | src/main.cpp:139-148 | the three positions read back as the value for values below 1000; the ones digit is always lit; tens are dark exactly below 10 and hundreds exactly below 100 |
| Display.AngleRange | src/main.cpp:138 | for pulses in [600, 2400] the displayed angle is (pulse - 600) * 180 / 1800, in [0, 180], 0 at 600, 180 at 2400, and 30 at the Center pulse |
| Display.ShowReadsBack | src/main.cpp:126-149 | in every reachable state the readout spells the shown value (the sweep interval in Sweep, otherwise the angle), which is at most 180, with hundreds dark in Sweep |
| Pot.SumBounds | src/main.cpp:293-295 | the sum of samples within [lo, hi] lies within [n lo, n hi] |
| Pot.ReadAveragedPotValue | src/main.cpp:291-297 | the loop returns the truncated mean of the samples, which lies between the smallest and the largest sample and within [0, 1023] |
| Sketch.ServoTester.constructor | src/main.cpp:97-115 | the initial globals and `setup()`: Manual mode, button released, no tap pending, servo at 1500 µs, sweep interval 15 ms, sweep at 600 µs heading right; the invariant holds |
| Sketch.ServoTester.HandleModes | src/main.cpp:189-254 | updates the fields in place exactly as `Motion.HandleModes` on the mode in force, keeps the invariant, and leaves the button state alone |
| Sketch.ServoTester.RunManual | src/main.cpp:194-206 | updates the servo field exactly as `Motion.ManualTick` |
| Sketch.ServoTester.AdjustSweepInterval | src/main.cpp:213-216 | updates the interval and `lastPotValue` exactly as `Motion.AdjustSweepRate` |
| Sketch.ServoTester.StepSweep | src/main.cpp:218-236 | updates the sweep fields and the servo exactly as `Motion.AdvanceSweep` |
| Sketch.ServoTester.HandleButton | src/main.cpp:151-186 | updates the button globals and the mode exactly as `Gesture.ButtonStep`, leaving the motion state alone |
| Sketch.ServoTester.AcceptDebouncedLevel | src/main.cpp:155-178 | the debounce test and press/release handling, exactly as `Gesture.Debounce` |
| Sketch.ServoTester.CheckTapTimeout | src/main.cpp:180-184 | the tap timeout, exactly as `Gesture.ResolvePendingTap` |
| Sketch.ServoTester.Tick | src/main.cpp:117-187 | one `loop()` pass. It stores the averaged pot reading, which lies between the smallest and largest sample. It runs the motion policy of the mode in force before the button is handled. The readout spells the shown value (at most 180). The button state changes as `ButtonStep`. The invariant is kept |
| Sketch.PowerUpAndRun | src/main.cpp:97-187 | from power-up, on every tick of any run, the servo pulse stays within [600, 2400] µs |

## Left out

- Pin setup, the shift-register writes of `displayDigit` (`shiftOut`, `digitalWrite`) and the `delay(4)` between positions are hardware I/O. Only the choice of glyph and the digit split are modelled.
- The `Servo` library is a single field holding the last pulse written, and `readMicroseconds` returns it. The library's own clamp to [544, 2400] µs and its rounding to timer ticks are not modelled. Every pulse the sketch writes lies in [600, 2400] µs, so the clamp never applies.
- `analogRead` is hardware. The eight samples of each tick are inputs in [0, 1023].
- The sketch calls `millis()` and `digitalRead()` several times per pass. The model takes one time sample and one raw level per tick.
- Calibration slot capture, slot bands and non-volatile storage do not exist in `src/main.cpp`. `isChoosingCalibrationSlot` is set but never read, so it is modelled only as a flag.
- `long` overflow inside `map` is not modelled. The largest product the sketch forms is 1023 * 1800, far inside 32 bits.
- Display.GlyphFor reduces the `char` argument to its low byte. It does not model `char` being signed. Either way the `'0'`..`'9'` test accepts the same codes.
- The model does not state, over whole runs, that each press and release yields exactly one gesture. What it does state: `ButtonStep` classifies every accepted release as exactly one of long press, double tap or first tap. `PendingTapTimesOut`, `TimeoutFiresDuringHold` and `LongPressCancelsPendingTap` say how a pending tap ends.
