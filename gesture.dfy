/** The button handling at the end of `loop()`: debouncing of the raw pin
    level, timing of each press, classification of each release (long press,
    double tap, first tap) and the timeout of a pending first tap, together
    with the mode changes they cause. */
module Gesture {
  import opened Arduino
  import opened Modes

  /** Milliseconds the raw level must stay unchanged before it is accepted. */
  const DebounceDelay: int := 50
  /** A press held at least this long is a long press. */
  const LongPressDuration: int := 1000
  /** A second tap must be released within this many milliseconds of the first. */
  const DoublePressWindow: int := 300

  /** The globals the button handling reads and writes. */
  datatype Control = Control(
    mode: Mode,                  // currentMode
    choosingSlot: bool,          // isChoosingCalibrationSlot
    lastButtonState: bool,       // raw level seen on the previous tick
    buttonState: bool,           // debounced level
    lastDebounceTime: Time,      // when the raw level last changed
    buttonPressTime: Time,       // when the current press was accepted
    awaitingDoublePress: bool,   // a first tap is pending
    lastPressTime: Time)         // when the pending first tap was released

  /** The globals' initial values after `setup()`. */
  const InitialControl: Control := Control(Manual, false, HIGH, HIGH, 0, 0, false, 0)

  /** One tick's inputs: the time and the raw button level. */
  datatype Input = Input(now: Time, raw: bool)

  // ---------------------------------------------------------------------
  // The events of one tick, named
  // ---------------------------------------------------------------------

  /** The raw level equals the one seen on the previous tick and has not
      changed for more than DebounceDelay. */
  predicate Stable(c: Control, now: Time, raw: bool)
  {
    raw == c.lastButtonState && Elapsed(now, c.lastDebounceTime) > DebounceDelay
  }

  /** A debounced press is accepted this tick. */
  predicate Pressed(c: Control, now: Time, raw: bool)
  {
    Stable(c, now, raw) && raw == LOW && c.buttonState == HIGH
  }

  /** A debounced release is accepted this tick. */
  predicate Released(c: Control, now: Time, raw: bool)
  {
    Stable(c, now, raw) && raw == HIGH && c.buttonState == LOW
  }

  predicate LongRelease(c: Control, now: Time, raw: bool)
  {
    Released(c, now, raw) && Elapsed(now, c.buttonPressTime) >= LongPressDuration
  }

  /** A first tap is pending and was released at most DoublePressWindow ago. */
  predicate TapPendingInWindow(c: Control, now: Time)
  {
    c.awaitingDoublePress && Elapsed(now, c.lastPressTime) <= DoublePressWindow
  }

  predicate DoubleTap(c: Control, now: Time, raw: bool)
  {
    Released(c, now, raw) && Elapsed(now, c.buttonPressTime) < LongPressDuration &&
    TapPendingInWindow(c, now)
  }

  predicate FirstTap(c: Control, now: Time, raw: bool)
  {
    Released(c, now, raw) && Elapsed(now, c.buttonPressTime) < LongPressDuration &&
    !TapPendingInWindow(c, now)
  }

  /** A first tap is pending and its window has passed. */
  predicate TapExpired(c: Control, now: Time)
  {
    c.awaitingDoublePress && Elapsed(now, c.lastPressTime) > DoublePressWindow
  }

  // ---------------------------------------------------------------------
  // One tick of button handling
  // ---------------------------------------------------------------------

  /** The debounced edge branch: record a press, or classify a release. */
  function AcceptEdge(c: Control, now: Time, raw: bool): Control
  {
    if raw == LOW then
      c.(buttonState := raw, buttonPressTime := now)
    else if Elapsed(now, c.buttonPressTime) >= LongPressDuration then
      c.(buttonState := raw, mode := Center, awaitingDoublePress := false)
    else if c.awaitingDoublePress && Elapsed(now, c.lastPressTime) <= DoublePressWindow then
      c.(buttonState := raw, mode := Toggled(c.mode), awaitingDoublePress := false)
    else
      c.(buttonState := raw, awaitingDoublePress := true, lastPressTime := now)
  }

  /** Restart the debounce timer when the raw level differs from the previous tick's. */
  function NoteRawLevel(c: Control, now: Time, raw: bool): Control
  {
    if raw != c.lastButtonState then c.(lastDebounceTime := now) else c
  }

  /** Accept the raw level once the debounce timer has run for more than DebounceDelay. */
  function Debounce(c: Control, now: Time, raw: bool): Control
  {
    if Elapsed(now, c.lastDebounceTime) > DebounceDelay && raw != c.buttonState
    then AcceptEdge(c, now, raw) else c
  }

  /** The check made on every tick: a pending tap whose window has passed enters Calibrate. */
  function ResolvePendingTap(c: Control, now: Time): Control
  {
    if c.awaitingDoublePress && Elapsed(now, c.lastPressTime) > DoublePressWindow
    then c.(mode := Calibrate, choosingSlot := true, awaitingDoublePress := false)
    else c
  }

  /** The button handling of one loop iteration, with one time sample and one
      raw level. */
  function ButtonStep(c: Control, now: Time, raw: bool): (r: Control)
    ensures r.lastButtonState == raw
    ensures r.lastDebounceTime == if raw != c.lastButtonState then now else c.lastDebounceTime
    // debounce: the accepted level follows the raw level only once it is stable
    ensures r.buttonState == if Stable(c, now, raw) then raw else c.buttonState
    ensures r.buttonPressTime == if Pressed(c, now, raw) then now else c.buttonPressTime
    ensures r.lastPressTime == if FirstTap(c, now, raw) then now else c.lastPressTime
    // a long release centres and cancels any pending tap
    ensures LongRelease(c, now, raw) ==>
              r.mode == Center && !r.awaitingDoublePress && r.choosingSlot == c.choosingSlot
    // a second tap within the window toggles Manual and Sweep
    ensures DoubleTap(c, now, raw) ==>
              r.mode == Toggled(c.mode) && !r.awaitingDoublePress && r.choosingSlot == c.choosingSlot
    // any other short release leaves the mode and starts a new pending tap
    ensures FirstTap(c, now, raw) ==>
              r.mode == c.mode && r.awaitingDoublePress && r.lastPressTime == now &&
              r.choosingSlot == c.choosingSlot
    // without a release, a pending tap whose window has passed enters Calibrate
    ensures !Released(c, now, raw) && TapExpired(c, now) ==>
              r.mode == Calibrate && r.choosingSlot && !r.awaitingDoublePress
    ensures !Released(c, now, raw) && !TapExpired(c, now) ==>
              r.mode == c.mode && r.choosingSlot == c.choosingSlot &&
              r.awaitingDoublePress == c.awaitingDoublePress && r.lastPressTime == c.lastPressTime
  {
    ResolvePendingTap(Debounce(NoteRawLevel(c, now, raw), now, raw), now).(lastButtonState := raw)
  }

  /** The button handling over a sequence of ticks. */
  function Run(c: Control, ticks: seq<Input>): Control
    decreases |ticks|
  {
    if |ticks| == 0 then c else Run(ButtonStep(c, ticks[0].now, ticks[0].raw), ticks[1..])
  }

  /** The ticks follow one another in time, as the wrapping clock measures
      it from `origin`. */
  predicate InOrderFrom(ticks: seq<Input>, origin: Time)
  {
    forall i :: 0 < i < |ticks| ==> Elapsed(ticks[i - 1].now, origin) <= Elapsed(ticks[i].now, origin)
  }

  /** Every tick comes at most `window` milliseconds after `origin`. */
  predicate AllWithin(ticks: seq<Input>, origin: Time, window: int)
  {
    forall i :: 0 <= i < |ticks| ==> Elapsed(ticks[i].now, origin) <= window
  }

  predicate AllAt(ticks: seq<Input>, level: bool)
  {
    forall i :: 0 <= i < |ticks| ==> ticks[i].raw == level
  }

  // ---------------------------------------------------------------------
  // Debounce
  // ---------------------------------------------------------------------

  /** While every tick lies within DebounceDelay of `start`, and the last raw
      change was seen at or after `start`, the debounced level cannot move.
      Times are measured with the wrapping clock, so the window may straddle
      a wrap of `millis()`. */
  lemma {:induction false} NoAcceptWithinWindow(c: Control, ticks: seq<Input>, start: Time)
    requires InOrderFrom(ticks, start)
    requires AllWithin(ticks, start, DebounceDelay)
    requires |ticks| > 0 ==> Elapsed(c.lastDebounceTime, start) <= Elapsed(ticks[0].now, start)
    decreases |ticks|
    ensures Run(c, ticks).buttonState == c.buttonState
  {
    if |ticks| > 0 {
      var t := ticks[0];
      ElapsedChain(c.lastDebounceTime, t.now, start);
      assert !Stable(c, t.now, t.raw);
      var next := ButtonStep(c, t.now, t.raw);
      assert Elapsed(next.lastDebounceTime, start) <= Elapsed(t.now, start);
      assert |ticks| > 1 ==> ticks[1..][0].now == ticks[1].now;
      NoAcceptWithinWindow(next, ticks[1..], start);
    }
  }

  /** Contact bounce: once the raw level changes, ticks within the following
      DebounceDelay milliseconds never change the debounced level, whatever the
      raw level does meanwhile, also when the clock wraps in between. */
  lemma BounceIsIgnored(c: Control, ticks: seq<Input>)
    requires |ticks| > 0 && ticks[0].raw != c.lastButtonState
    requires InOrderFrom(ticks, ticks[0].now)
    requires AllWithin(ticks, ticks[0].now, DebounceDelay)
    ensures Run(c, ticks).buttonState == c.buttonState
  {
    var next := ButtonStep(c, ticks[0].now, ticks[0].raw);
    assert next.buttonState == c.buttonState && next.lastDebounceTime == ticks[0].now;
    NoAcceptWithinWindow(next, ticks[1..], ticks[0].now);
  }

  // ---------------------------------------------------------------------
  // Gestures over several ticks
  // ---------------------------------------------------------------------

  /** With the button up and no tap pending, ticks that keep it up change
      neither the mode nor the pending state. */
  lemma {:induction false} IdleKeepsMode(c: Control, ticks: seq<Input>)
    requires c.buttonState == HIGH && !c.awaitingDoublePress
    requires AllAt(ticks, HIGH)
    decreases |ticks|
    ensures Run(c, ticks).mode == c.mode
    ensures !Run(c, ticks).awaitingDoublePress
  {
    if |ticks| > 0 {
      var next := ButtonStep(c, ticks[0].now, ticks[0].raw);
      IdleKeepsMode(next, ticks[1..]);
    }
  }

  /** A long release enters Center even when a first tap is pending, and that
      tap never fires afterwards: Center persists while the button stays up. */
  lemma LongPressCancelsPendingTap(c: Control, now: Time, rest: seq<Input>)
    requires LongRelease(c, now, HIGH)
    requires AllAt(rest, HIGH)
    ensures Run(ButtonStep(c, now, HIGH), rest).mode == Center
  {
    IdleKeepsMode(ButtonStep(c, now, HIGH), rest);
  }

  /** A pending first tap, with the button kept at its debounced level (left
      up, or held down in a new press), resolves to Calibrate on the first
      tick after its window has passed, and not earlier. The check runs on
      every tick, so a press held past the window does not suppress it. */
  lemma {:induction false} PendingTapTimesOut(c: Control, ticks: seq<Input>)
    requires c.awaitingDoublePress
    requires |ticks| > 0 && AllAt(ticks, c.buttonState)
    requires forall i :: 0 <= i < |ticks| - 1 ==>
               Elapsed(ticks[i].now, c.lastPressTime) <= DoublePressWindow
    requires Elapsed(ticks[|ticks| - 1].now, c.lastPressTime) > DoublePressWindow
    decreases |ticks|
    ensures Run(c, ticks).mode == Calibrate
    ensures Run(c, ticks).choosingSlot
    ensures !Run(c, ticks).awaitingDoublePress
    ensures Run(c, ticks).buttonState == c.buttonState
    ensures forall k :: 0 <= k < |ticks| ==>
              Run(c, ticks[..k]).mode == c.mode && Run(c, ticks[..k]).awaitingDoublePress
  {
    var next := ButtonStep(c, ticks[0].now, ticks[0].raw);
    if |ticks| > 1 {
      assert next.awaitingDoublePress && next.lastPressTime == c.lastPressTime;
      assert next.mode == c.mode && next.buttonState == c.buttonState;
      PendingTapTimesOut(next, ticks[1..]);
      forall k | 0 < k < |ticks|
        ensures Run(c, ticks[..k]).mode == c.mode && Run(c, ticks[..k]).awaitingDoublePress
      {
        assert ticks[..k][1..] == ticks[1..][..k - 1];
      }
    }
  }

  /** A press accepted while a first tap is pending does not stop the tap's
      timeout: held down, the button enters Calibrate on the first tick of the
      hold that is more than DoublePressWindow after the tap's release, before
      any release can be classified. So a long release with a tap pending
      needs a gap of more than DoublePressWindow between ticks. */
  lemma TimeoutFiresDuringHold(c: Control, press: Input, hold: seq<Input>)
    requires c.awaitingDoublePress && Pressed(c, press.now, press.raw)
    requires Elapsed(press.now, c.lastPressTime) <= DoublePressWindow
    requires |hold| > 0 && AllAt(hold, LOW)
    requires forall i :: 0 <= i < |hold| - 1 ==>
               Elapsed(hold[i].now, c.lastPressTime) <= DoublePressWindow
    requires Elapsed(hold[|hold| - 1].now, c.lastPressTime) > DoublePressWindow
    ensures Run(c, [press] + hold).mode == Calibrate
    ensures Run(c, [press] + hold).choosingSlot
    ensures Run(c, [press] + hold).buttonState == LOW
  {
    var next := ButtonStep(c, press.now, press.raw);
    assert next.buttonState == LOW && next.awaitingDoublePress && next.lastPressTime == c.lastPressTime;
    PendingTapTimesOut(next, hold);
    RunCons(c, press, hold);
  }

  // ---------------------------------------------------------------------
  // Scenarios (times in milliseconds, one tick per listed input)
  // ---------------------------------------------------------------------

  /** Run over `[t] + rest` is a step followed by a run over `rest`. */
  lemma RunCons(c: Control, t: Input, rest: seq<Input>)
    ensures Run(c, [t] + rest) == Run(ButtonStep(c, t.now, t.raw), rest)
  {
    assert ([t] + rest)[1..] == rest;
  }

  /** A 100 ms tap from Manual, then nothing: the tap is accepted at 1160, is
      still pending at 1400 and enters Calibrate at 1470, the first tick more
      than 300 ms later. */
  lemma SingleTapScenario()
    ensures Run(InitialControl, [Input(1000, LOW), Input(1060, LOW), Input(1100, HIGH),
                                 Input(1160, HIGH), Input(1400, HIGH)]).mode == Manual
    ensures Run(InitialControl, [Input(1000, LOW), Input(1060, LOW), Input(1100, HIGH),
                                 Input(1160, HIGH), Input(1400, HIGH)]).awaitingDoublePress
    ensures Run(InitialControl, [Input(1000, LOW), Input(1060, LOW), Input(1100, HIGH),
                                 Input(1160, HIGH), Input(1400, HIGH), Input(1470, HIGH)]).mode
            == Calibrate
  {
    var s1 := ButtonStep(InitialControl, 1000, LOW);
    var s2 := ButtonStep(s1, 1060, LOW);
    assert s2.buttonState == LOW && s2.buttonPressTime == 1060;
    var s3 := ButtonStep(s2, 1100, HIGH);
    var s4 := ButtonStep(s3, 1160, HIGH);
    assert s4.mode == Manual && s4.awaitingDoublePress && s4.lastPressTime == 1160;
    var s5 := ButtonStep(s4, 1400, HIGH);
    assert s5.mode == Manual && s5.awaitingDoublePress;
    var s6 := ButtonStep(s5, 1470, HIGH);
    assert s6.mode == Calibrate;
    RunCons(s5, Input(1470, HIGH), []);
    RunCons(s4, Input(1400, HIGH), [Input(1470, HIGH)]);
    RunCons(s4, Input(1400, HIGH), []);
    RunCons(s3, Input(1160, HIGH), [Input(1400, HIGH), Input(1470, HIGH)]);
    RunCons(s3, Input(1160, HIGH), [Input(1400, HIGH)]);
    RunCons(s2, Input(1100, HIGH), [Input(1160, HIGH), Input(1400, HIGH), Input(1470, HIGH)]);
    RunCons(s2, Input(1100, HIGH), [Input(1160, HIGH), Input(1400, HIGH)]);
    RunCons(s1, Input(1060, LOW), [Input(1100, HIGH), Input(1160, HIGH), Input(1400, HIGH),
                                  Input(1470, HIGH)]);
    RunCons(s1, Input(1060, LOW), [Input(1100, HIGH), Input(1160, HIGH), Input(1400, HIGH)]);
    RunCons(InitialControl, Input(1000, LOW), [Input(1060, LOW), Input(1100, HIGH),
                                               Input(1160, HIGH), Input(1400, HIGH), Input(1470, HIGH)]);
    RunCons(InitialControl, Input(1000, LOW), [Input(1060, LOW), Input(1100, HIGH),
                                               Input(1160, HIGH), Input(1400, HIGH)]);
  }

  /** Two 100 ms taps released 300 ms apart toggle Manual to Sweep at the second release. */
  lemma DoubleTapScenario()
    ensures Run(InitialControl, [Input(1000, LOW), Input(1060, LOW), Input(1100, HIGH),
                                 Input(1160, HIGH), Input(1300, LOW), Input(1360, LOW),
                                 Input(1400, HIGH), Input(1460, HIGH)]).mode == Sweep
  {
    var s1 := ButtonStep(InitialControl, 1000, LOW);
    var s2 := ButtonStep(s1, 1060, LOW);
    var s3 := ButtonStep(s2, 1100, HIGH);
    var s4 := ButtonStep(s3, 1160, HIGH);
    assert s4.mode == Manual && s4.awaitingDoublePress && s4.lastPressTime == 1160;
    var s5 := ButtonStep(s4, 1300, LOW);
    var s6 := ButtonStep(s5, 1360, LOW);
    assert s6.buttonState == LOW && s6.buttonPressTime == 1360 && s6.awaitingDoublePress;
    var s7 := ButtonStep(s6, 1400, HIGH);
    var s8 := ButtonStep(s7, 1460, HIGH);
    assert s8.mode == Sweep;
    RunCons(s7, Input(1460, HIGH), []);
    RunCons(s6, Input(1400, HIGH), [Input(1460, HIGH)]);
    RunCons(s5, Input(1360, LOW), [Input(1400, HIGH), Input(1460, HIGH)]);
    RunCons(s4, Input(1300, LOW), [Input(1360, LOW), Input(1400, HIGH), Input(1460, HIGH)]);
    RunCons(s3, Input(1160, HIGH), [Input(1300, LOW), Input(1360, LOW), Input(1400, HIGH),
                                   Input(1460, HIGH)]);
    RunCons(s2, Input(1100, HIGH), [Input(1160, HIGH), Input(1300, LOW), Input(1360, LOW),
                                   Input(1400, HIGH), Input(1460, HIGH)]);
    RunCons(s1, Input(1060, LOW), [Input(1100, HIGH), Input(1160, HIGH), Input(1300, LOW),
                                  Input(1360, LOW), Input(1400, HIGH), Input(1460, HIGH)]);
    RunCons(InitialControl, Input(1000, LOW), [Input(1060, LOW), Input(1100, HIGH),
                                               Input(1160, HIGH), Input(1300, LOW), Input(1360, LOW),
                                               Input(1400, HIGH), Input(1460, HIGH)]);
  }

  /** A press held for 1100 ms enters Center on its release. */
  lemma LongPressScenario()
    ensures Run(InitialControl, [Input(1000, LOW), Input(1060, LOW), Input(2100, HIGH),
                                 Input(2160, HIGH)]).mode == Center
  {
    var s1 := ButtonStep(InitialControl, 1000, LOW);
    var s2 := ButtonStep(s1, 1060, LOW);
    assert s2.buttonState == LOW && s2.buttonPressTime == 1060;
    var s3 := ButtonStep(s2, 2100, HIGH);
    var s4 := ButtonStep(s3, 2160, HIGH);
    assert s4.mode == Center;
    RunCons(s3, Input(2160, HIGH), []);
    RunCons(s2, Input(2100, HIGH), [Input(2160, HIGH)]);
    RunCons(s1, Input(1060, LOW), [Input(2100, HIGH), Input(2160, HIGH)]);
    RunCons(InitialControl, Input(1000, LOW), [Input(1060, LOW), Input(2100, HIGH), Input(2160, HIGH)]);
  }

  /** A bounce that straddles the wrap of `millis()`: raw changes at
      2^32 - 16, 10 and 20 ms leave the button released at 34 ms, and the
      press is accepted at 71 ms, the first tick more than 50 ms after the
      last raw change. */
  lemma WrapBounceScenario()
    ensures Run(InitialControl, [Input(0xFFFF_FFF0, LOW), Input(10, HIGH), Input(20, LOW),
                                 Input(34, LOW)]).buttonState == HIGH
    ensures Run(InitialControl, [Input(0xFFFF_FFF0, LOW), Input(10, HIGH), Input(20, LOW),
                                 Input(34, LOW), Input(71, LOW)]).buttonState == LOW
  {
    BounceIsIgnored(InitialControl, [Input(0xFFFF_FFF0, LOW), Input(10, HIGH), Input(20, LOW),
                                     Input(34, LOW)]);
    var s1 := ButtonStep(InitialControl, 0xFFFF_FFF0, LOW);
    var s2 := ButtonStep(s1, 10, HIGH);
    var s3 := ButtonStep(s2, 20, LOW);
    var s4 := ButtonStep(s3, 34, LOW);
    assert s4.buttonState == HIGH && s4.lastDebounceTime == 20 && s4.lastButtonState == LOW;
    var s5 := ButtonStep(s4, 71, LOW);
    assert s5.buttonState == LOW;
    RunCons(s4, Input(71, LOW), []);
    RunCons(s3, Input(34, LOW), [Input(71, LOW)]);
    RunCons(s2, Input(20, LOW), [Input(34, LOW), Input(71, LOW)]);
    RunCons(s1, Input(10, HIGH), [Input(20, LOW), Input(34, LOW), Input(71, LOW)]);
    RunCons(InitialControl, Input(0xFFFF_FFF0, LOW), [Input(10, HIGH), Input(20, LOW),
                                                      Input(34, LOW), Input(71, LOW)]);
  }

  /** A tap, then a long press begun 100 ms after it: the pending tap still
      times out during the hold (Calibrate at 1500), and the long release then
      enters Center with the slot-choosing flag left set. */
  lemma HoldThroughTimeoutScenario()
    ensures var c := Run(InitialControl, [Input(1000, LOW), Input(1060, LOW), Input(1100, HIGH),
                                          Input(1160, HIGH), Input(1200, LOW), Input(1260, LOW),
                                          Input(1500, LOW)]);
            c.mode == Calibrate && c.choosingSlot && !c.awaitingDoublePress && c.buttonState == LOW
    ensures var c := Run(InitialControl, [Input(1000, LOW), Input(1060, LOW), Input(1100, HIGH),
                                          Input(1160, HIGH), Input(1200, LOW), Input(1260, LOW),
                                          Input(1500, LOW), Input(2400, HIGH), Input(2460, HIGH)]);
            c.mode == Center && c.choosingSlot
  {
    var s1 := ButtonStep(InitialControl, 1000, LOW);
    var s2 := ButtonStep(s1, 1060, LOW);
    var s3 := ButtonStep(s2, 1100, HIGH);
    var s4 := ButtonStep(s3, 1160, HIGH);
    assert s4.mode == Manual && s4.awaitingDoublePress && s4.lastPressTime == 1160;
    var s5 := ButtonStep(s4, 1200, LOW);
    var s6 := ButtonStep(s5, 1260, LOW);
    assert s6.buttonState == LOW && s6.buttonPressTime == 1260 && s6.awaitingDoublePress;
    var s7 := ButtonStep(s6, 1500, LOW);
    assert s7.mode == Calibrate && s7.choosingSlot && !s7.awaitingDoublePress && s7.buttonState == LOW;
    var s8 := ButtonStep(s7, 2400, HIGH);
    var s9 := ButtonStep(s8, 2460, HIGH);
    assert s9.mode == Center && s9.choosingSlot;
    RunCons(s8, Input(2460, HIGH), []);
    RunCons(s7, Input(2400, HIGH), [Input(2460, HIGH)]);
    RunCons(s6, Input(1500, LOW), []);
    RunCons(s6, Input(1500, LOW), [Input(2400, HIGH), Input(2460, HIGH)]);
    RunCons(s5, Input(1260, LOW), [Input(1500, LOW)]);
    RunCons(s5, Input(1260, LOW), [Input(1500, LOW), Input(2400, HIGH), Input(2460, HIGH)]);
    RunCons(s4, Input(1200, LOW), [Input(1260, LOW), Input(1500, LOW)]);
    RunCons(s4, Input(1200, LOW), [Input(1260, LOW), Input(1500, LOW), Input(2400, HIGH),
                                  Input(2460, HIGH)]);
    RunCons(s3, Input(1160, HIGH), [Input(1200, LOW), Input(1260, LOW), Input(1500, LOW)]);
    RunCons(s3, Input(1160, HIGH), [Input(1200, LOW), Input(1260, LOW), Input(1500, LOW),
                                   Input(2400, HIGH), Input(2460, HIGH)]);
    RunCons(s2, Input(1100, HIGH), [Input(1160, HIGH), Input(1200, LOW), Input(1260, LOW),
                                   Input(1500, LOW)]);
    RunCons(s2, Input(1100, HIGH), [Input(1160, HIGH), Input(1200, LOW), Input(1260, LOW),
                                   Input(1500, LOW), Input(2400, HIGH), Input(2460, HIGH)]);
    RunCons(s1, Input(1060, LOW), [Input(1100, HIGH), Input(1160, HIGH), Input(1200, LOW),
                                  Input(1260, LOW), Input(1500, LOW)]);
    RunCons(s1, Input(1060, LOW), [Input(1100, HIGH), Input(1160, HIGH), Input(1200, LOW),
                                  Input(1260, LOW), Input(1500, LOW), Input(2400, HIGH),
                                  Input(2460, HIGH)]);
    RunCons(InitialControl, Input(1000, LOW), [Input(1060, LOW), Input(1100, HIGH), Input(1160, HIGH),
                                               Input(1200, LOW), Input(1260, LOW), Input(1500, LOW)]);
    RunCons(InitialControl, Input(1000, LOW), [Input(1060, LOW), Input(1100, HIGH), Input(1160, HIGH),
                                               Input(1200, LOW), Input(1260, LOW), Input(1500, LOW),
                                               Input(2400, HIGH), Input(2460, HIGH)]);
  }
}
