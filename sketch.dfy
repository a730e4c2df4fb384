/** The sketch's state and its `loop()`. The globals and the function-static
    variables of `handleModes()` are the fields of one object; each method
    updates them in place as the C++ does and is proved to agree with the
    pure transition functions of the Motion, Gesture and Display modules. */
module Sketch {
  import opened Arduino
  import opened Modes
  import opened Motion
  import opened Gesture
  import opened Display
  import opened Pot

  /** `loop()` averages this many pot samples per iteration. */
  const PotSamples: int := 8

  class ServoTester {
    // globals read and written by the button handling
    var currentMode: Mode
    var isChoosingCalibrationSlot: bool
    var lastButtonState: bool
    var buttonState: bool
    var lastDebounceTime: Time
    var buttonPressTime: Time
    var awaitingDoublePress: bool
    var lastPressTime: Time

    // globals read and written by `handleModes()`
    var potValue: int
    var sweepInterval: nat

    /** The last pulse written to the servo (what `readMicroseconds()` returns). */
    var servoPulse: int

    // function-static variables of `handleModes()`
    var lastPotValue: int
    var lastPotValueSet: bool
    var sweepingRight: bool
    var sweepMicros: int
    var lastSweepTime: Time

    /** The button-handling globals as a value. */
    function ControlView(): Control
      reads this
    {
      Control(currentMode, isChoosingCalibrationSlot, lastButtonState, buttonState,
              lastDebounceTime, buttonPressTime, awaitingDoublePress, lastPressTime)
    }

    /** The motion state as a value. */
    function MotionView(): MotionState
      reads this
    {
      MotionState(servoPulse, sweepInterval, lastPotValue, lastPotValueSet,
                  Sweeper(sweepingRight, sweepMicros), lastSweepTime)
    }

    /** The servo pulse and the sweep stay within the limits, the sweep
        interval within [5, 50] ms, and the averaged pot reading within range. */
    ghost predicate Valid()
      reads this
    {
      MotionInv(MotionView()) && 0 <= potValue <= PotMax
    }

    /** The static initialisers of the globals followed by `setup()`, which
        writes 1500 µs to the servo and selects Manual mode. */
    constructor ()
      ensures Valid()
      ensures ControlView() == InitialControl
      ensures MotionView() == InitialMotion && potValue == 0
    {
      currentMode := Manual;
      isChoosingCalibrationSlot := false;
      lastButtonState := HIGH;
      buttonState := HIGH;
      lastDebounceTime := 0;
      buttonPressTime := 0;
      awaitingDoublePress := false;
      lastPressTime := 0;
      potValue := 0;
      sweepInterval := InitialSweepInterval;
      lastPotValue := 0;
      lastPotValueSet := false;
      sweepingRight := true;
      sweepMicros := ServoMin;
      lastSweepTime := 0;
      servoPulse := StartPulse;
    }

    /** `handleModes()`: the current mode's motion policy for this tick. */
    method HandleModes(now: Time)
      requires Valid()
      modifies this
      ensures Valid()
      ensures MotionView() == Motion.HandleModes(old(currentMode), old(MotionView()), old(potValue), now)
      ensures ControlView() == old(ControlView()) && potValue == old(potValue)
    {
      if !lastPotValueSet {
        lastPotValue := potValue;
        lastPotValueSet := true;
      }
      assert MotionView() == InitLastPot(old(MotionView()), potValue);
      match currentMode
      case Manual =>
        RunManual();
      case Sweep =>
        AdjustSweepInterval();
        StepSweep(now);
      case Center =>
        servoPulse := CenterPulse;
      case Calibrate =>
    }

    /** The Manual case of `handleModes()`. */
    method RunManual()
      modifies this
      ensures MotionView() == ManualTick(old(MotionView()), potValue)
      ensures ControlView() == old(ControlView()) && potValue == old(potValue)
    {
      var lastMicros := servoPulse;
      var targetMicros := ManualTarget(potValue);
      if lastMicros < targetMicros {
        lastMicros := lastMicros + Min(MaxStep, targetMicros - lastMicros);
      } else if lastMicros > targetMicros {
        lastMicros := lastMicros - Min(MaxStep, lastMicros - targetMicros);
      }
      servoPulse := lastMicros;
    }

    /** The Sweep case of `handleModes()`, first half: follow the pot's rate setting. */
    method AdjustSweepInterval()
      modifies this
      ensures MotionView() == AdjustSweepRate(old(MotionView()), potValue)
      ensures ControlView() == old(ControlView()) && potValue == old(potValue)
    {
      if Abs(potValue - lastPotValue) > PotNoise {
        sweepInterval := SweepIntervalFor(potValue);
        lastPotValue := potValue;
      }
    }

    /** The Sweep case of `handleModes()`, second half: step when due. */
    method StepSweep(now: Time)
      modifies this
      ensures MotionView() == AdvanceSweep(old(MotionView()), now)
      ensures ControlView() == old(ControlView()) && potValue == old(potValue)
    {
      if Elapsed(now, lastSweepTime) >= sweepInterval {
        lastSweepTime := now;
        if sweepingRight {
          sweepMicros := U16(sweepMicros + SweepStepSize);
          if sweepMicros >= ServoMax {
            sweepMicros := ServoMax;
            sweepingRight := false;
          }
        } else {
          sweepMicros := U16(sweepMicros - SweepStepSize);
          if sweepMicros <= ServoMin {
            sweepMicros := ServoMin;
            sweepingRight := true;
          }
        }
        servoPulse := sweepMicros;
      }
    }

    /** The button handling at the end of `loop()`, with one time sample and
        one raw level for the whole tick. */
    method HandleButton(now: Time, raw: bool)
      modifies this
      ensures ControlView() == ButtonStep(old(ControlView()), now, raw)
      ensures MotionView() == old(MotionView()) && potValue == old(potValue)
    {
      if raw != lastButtonState {
        lastDebounceTime := now;
      }
      AcceptDebouncedLevel(now, raw);
      CheckTapTimeout(now);
      lastButtonState := raw;
    }

    /** The debounce test and, on an accepted edge, the press/release handling. */
    method AcceptDebouncedLevel(now: Time, raw: bool)
      modifies this
      ensures ControlView() == Debounce(old(ControlView()), now, raw)
      ensures MotionView() == old(MotionView()) && potValue == old(potValue)
    {
      if Elapsed(now, lastDebounceTime) > DebounceDelay {
        if raw != buttonState {
          buttonState := raw;

          if buttonState == LOW {
            buttonPressTime := now;
          } else {
            var pressDuration := Elapsed(now, buttonPressTime);

            if pressDuration >= LongPressDuration {
              currentMode := Center;
              awaitingDoublePress := false;
            } else if awaitingDoublePress && Elapsed(now, lastPressTime) <= DoublePressWindow {
              currentMode := if currentMode == Manual then Sweep else Manual;
              awaitingDoublePress := false;
            } else {
              awaitingDoublePress := true;
              lastPressTime := now;
            }
          }
        }
      }
    }

    /** The tap timeout, checked on every tick. */
    method CheckTapTimeout(now: Time)
      modifies this
      ensures ControlView() == ResolvePendingTap(old(ControlView()), now)
      ensures MotionView() == old(MotionView()) && potValue == old(potValue)
    {
      if awaitingDoublePress && Elapsed(now, lastPressTime) > DoublePressWindow {
        currentMode := Calibrate;
        isChoosingCalibrationSlot := true;
        awaitingDoublePress := false;
      }
    }

    /** One iteration of `loop()`: average the pot samples, run the motion
        policy of the mode in force, refresh the display, then handle the
        button. A mode change made by the button therefore first moves the
        servo on the next tick. */
    method Tick(now: Time, raw: bool, samples: seq<int>) returns (shown: Readout)
      requires Valid()
      requires |samples| == PotSamples
      requires forall i :: 0 <= i < |samples| ==> 0 <= samples[i] <= SampleMax
      modifies this
      ensures Valid()
      ensures potValue == Sum(samples) / PotSamples
      ensures SeqMin(samples) <= potValue <= SeqMax(samples)
      ensures MotionView() == Motion.HandleModes(old(currentMode), old(MotionView()), potValue, now)
      ensures shown == Show(old(currentMode), MotionView())
      ensures ReadBack(shown) == Shown(old(currentMode), MotionView()) <= 180
      ensures ControlView() == ButtonStep(old(ControlView()), now, raw)
    {
      potValue := ReadAveragedPotValue(samples);
      HandleModes(now);
      shown := Show(currentMode, MotionView());
      ShowReadsBack(currentMode, MotionView());
      HandleButton(now, raw);
    }
  }

  /** What a caller can rely on: from power-up, the servo is commanded within
      [600, 2400] µs on every tick, whatever the button and the pot do. */
  method PowerUpAndRun(ticks: seq<Input>, pots: seq<seq<int>>) returns (pulses: seq<int>)
    requires |pots| == |ticks|
    requires forall k :: 0 <= k < |pots| ==> |pots[k]| == PotSamples
    requires forall k, i :: 0 <= k < |pots| && 0 <= i < |pots[k]| ==> 0 <= pots[k][i] <= SampleMax
    ensures |pulses| == |ticks|
    ensures forall k :: 0 <= k < |pulses| ==> ServoMin <= pulses[k] <= ServoMax
  {
    var tester := new ServoTester();
    pulses := [];
    var k := 0;
    while k < |ticks|
      invariant 0 <= k <= |ticks| && |pulses| == k
      invariant tester.Valid()
      invariant forall j :: 0 <= j < k ==> ServoMin <= pulses[j] <= ServoMax
    {
      var _ := tester.Tick(ticks[k].now, ticks[k].raw, pots[k]);
      pulses := pulses + [tester.servoPulse];
      k := k + 1;
    }
  }
}
