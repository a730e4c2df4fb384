/** The per-mode motion policy run once per loop iteration (`handleModes()`):
    Manual tracks the potentiometer in bounded steps, Sweep ping-pongs
    between the pulse limits at a pot-controlled rate, Center writes a fixed
    pulse and Calibrate does nothing. */
module Motion {
  import opened Arduino
  import opened Modes

  /** Pulse-width limits of the servo in microseconds (`servoMin`, `servoMax`). */
  const ServoMin: int := 600
  const ServoMax: int := 2400

  /** Full-scale reading of the 10-bit potentiometer input. */
  const PotMax: int := 1023

  /** Largest change of the pulse per Manual tick, and the Sweep step. */
  const MaxStep: int := 10
  const SweepStepSize: int := 10

  /** A pot reading must move by more than this before the sweep rate is re-derived. */
  const PotNoise: int := 5

  /** Sweep interval bounds in milliseconds, and its value before the first re-derivation. */
  const SweepIntervalMin: int := 5
  const SweepIntervalMax: int := 50
  const InitialSweepInterval: int := 15

  /** Pulse written by `setup()`. */
  const StartPulse: int := 1500

  /** Pulse Center mode writes: `(servoMax - servoMin) / 2`, which is 900 and
      not the midpoint 1500 of the range. */
  const CenterPulse: int := (ServoMax - ServoMin) / 2

  function Dist(a: int, b: int): int
  {
    Abs(a - b)
  }

  /** `x` lies on the closed segment from `a` to `b`. */
  predicate Between(a: int, x: int, b: int)
  {
    (a <= x <= b) || (b <= x <= a)
  }

  // ---------------------------------------------------------------------
  // Manual mode
  // ---------------------------------------------------------------------

  /** The Manual target `map(potValue, 1023, 0, servoMin, servoMax)` stored
      in a `uint16_t`. The input range is given reversed, so the mapping is
      inverted: pot 0 asks for servoMax and pot 1023 for servoMin. */
  function ManualTarget(pot: int): int
  {
    U16(Map(pot, PotMax, 0, ServoMin, ServoMax))
  }

  lemma ManualTargetRange(pot: int)
    requires 0 <= pot <= PotMax
    ensures ManualTarget(pot) == ServoMin + (PotMax - pot) * (ServoMax - ServoMin) / PotMax
    ensures ServoMin <= ManualTarget(pot) <= ServoMax
    ensures pot == 0 ==> ManualTarget(pot) == ServoMax
    ensures pot == PotMax ==> ManualTarget(pot) == ServoMin
  {
    var n := (pot - PotMax) * (ServoMax - ServoMin);
    assert n <= 0;
    assert TruncDiv(n, -PotMax) == (-n) / PotMax;
    assert 0 <= (-n) / PotMax <= ServoMax - ServoMin;
  }

  /** The target never rises as the pot reading rises. */
  lemma ManualTargetInverted(p: int, q: int)
    requires 0 <= p <= q <= PotMax
    ensures ManualTarget(q) <= ManualTarget(p)
  {
    ManualTargetRange(p);
    ManualTargetRange(q);
    assert (PotMax - q) * (ServoMax - ServoMin) <= (PotMax - p) * (ServoMax - ServoMin);
  }

  /** One Manual tick: move the pulse toward the target by at most MaxStep. */
  function ManualStep(current: int, target: int): (next: int)
    ensures Dist(next, target) == Dist(current, target) - Min(MaxStep, Dist(current, target))
    ensures Dist(next, current) == Min(MaxStep, Dist(current, target))
    ensures Between(current, next, target)
  {
    if current < target then current + Min(MaxStep, target - current)
    else if current > target then current - Min(MaxStep, current - target)
    else current
  }

  /** The pulse after `n` Manual ticks with a steady target. */
  function Approach(current: int, target: int, n: nat): int
    decreases n
  {
    if n == 0 then current else Approach(ManualStep(current, target), target, n - 1)
  }

  /** Each tick closes the gap by MaxStep until it is gone, and the pulse never
      leaves the segment between its start and the target (no overshoot). */
  lemma {:induction false} ApproachDistance(current: int, target: int, n: nat)
    decreases n
    ensures Dist(Approach(current, target, n), target) ==
            if Dist(current, target) <= MaxStep * n then 0 else Dist(current, target) - MaxStep * n
    ensures Between(current, Approach(current, target, n), target)
  {
    if n > 0 {
      var next := ManualStep(current, target);
      ApproachDistance(next, target, n - 1);
    }
  }

  /** The pulse reaches the target after exactly ceil(|target - current| / MaxStep)
      ticks: not before, and it stays there afterwards. */
  lemma ApproachReachesTarget(current: int, target: int, n: nat)
    ensures Approach(current, target, n) == target <==>
            n >= (Dist(current, target) + MaxStep - 1) / MaxStep
  {
    ApproachDistance(current, target, n);
  }

  // ---------------------------------------------------------------------
  // Sweep mode
  // ---------------------------------------------------------------------

  /** The function-static sweep position and direction (`sweepMicros`, `sweepingRight`). */
  datatype Sweeper = Sweeper(right: bool, pos: int)

  const InitialSweeper: Sweeper := Sweeper(true, ServoMin)

  /** The sweep state reachable from InitialSweeper: on the 10 µs grid inside
      the limits, and strictly inside on the side it is heading toward. */
  predicate SweepInv(s: Sweeper)
  {
    ServoMin <= s.pos <= ServoMax && (s.pos - ServoMin) % SweepStepSize == 0 &&
    (s.right ==> s.pos < ServoMax) && (!s.right ==> ServoMin < s.pos)
  }

  /** One sweep step on the `uint16_t` position: move 10 µs in the current
      direction; on reaching or passing a limit, clamp to it and turn round. */
  function SweepStep(s: Sweeper): (r: Sweeper)
    ensures ServoMin <= s.pos <= ServoMax ==> ServoMin <= r.pos <= ServoMax
    ensures SweepInv(s) ==> SweepInv(r)
    ensures SweepInv(s) ==> r.pos == if s.right then s.pos + SweepStepSize else s.pos - SweepStepSize
    ensures SweepInv(s) ==> (r.right != s.right <==> r.pos == ServoMin || r.pos == ServoMax)
  {
    if s.right then
      var p := U16(s.pos + SweepStepSize);
      if p >= ServoMax then Sweeper(false, ServoMax) else Sweeper(true, p)
    else
      var p := U16(s.pos - SweepStepSize);
      if p <= ServoMin then Sweeper(true, ServoMin) else Sweeper(false, p)
  }

  /** The sweep state after `n` steps. */
  function SweepSteps(s: Sweeper, n: nat): Sweeper
    decreases n
  {
    if n == 0 then s else SweepSteps(SweepStep(s), n - 1)
  }

  /** Number of steps from one limit to the other. */
  const HalfPeriod: int := (ServoMax - ServoMin) / SweepStepSize

  lemma {:induction false} SweepStepsAdd(s: Sweeper, a: nat, b: nat)
    decreases a
    ensures SweepSteps(s, a + b) == SweepSteps(SweepSteps(s, a), b)
  {
    if a > 0 {
      SweepStepsAdd(SweepStep(s), a - 1, b);
    }
  }

  /** Heading right from `ServoMin + 10 j`, the sweep rises by 10 µs per step
      and turns at ServoMax after reaching it. */
  lemma {:induction false} SweepRising(j: nat, k: nat)
    requires j < HalfPeriod && j + k <= HalfPeriod
    decreases k
    ensures SweepSteps(Sweeper(true, ServoMin + SweepStepSize * j), k) ==
            if j + k < HalfPeriod then Sweeper(true, ServoMin + SweepStepSize * (j + k))
            else Sweeper(false, ServoMax)
  {
    if k > 0 {
      var s := Sweeper(true, ServoMin + SweepStepSize * j);
      if j + 1 < HalfPeriod {
        assert SweepStep(s) == Sweeper(true, ServoMin + SweepStepSize * (j + 1));
        SweepRising(j + 1, k - 1);
      } else {
        assert SweepStep(s) == Sweeper(false, ServoMax);
      }
    }
  }

  /** Heading left from `ServoMax - 10 j`, the sweep falls by 10 µs per step
      and turns at ServoMin after reaching it. */
  lemma {:induction false} SweepFalling(j: nat, k: nat)
    requires j < HalfPeriod && j + k <= HalfPeriod
    decreases k
    ensures SweepSteps(Sweeper(false, ServoMax - SweepStepSize * j), k) ==
            if j + k < HalfPeriod then Sweeper(false, ServoMax - SweepStepSize * (j + k))
            else Sweeper(true, ServoMin)
  {
    if k > 0 {
      var s := Sweeper(false, ServoMax - SweepStepSize * j);
      if j + 1 < HalfPeriod {
        assert SweepStep(s) == Sweeper(false, ServoMax - SweepStepSize * (j + 1));
        SweepFalling(j + 1, k - 1);
      } else {
        assert SweepStep(s) == Sweeper(true, ServoMin);
      }
    }
  }

  /** From its initial state the sweep reaches ServoMax after 180 steps and is
      back at ServoMin, heading right again, after 360: a ping-pong whose
      period is twice the range divided by the step. */
  lemma SweepPeriod()
    ensures SweepSteps(InitialSweeper, HalfPeriod) == Sweeper(false, ServoMax)
    ensures SweepSteps(InitialSweeper, 2 * HalfPeriod) == InitialSweeper
  {
    SweepRising(0, HalfPeriod);
    SweepFalling(0, HalfPeriod);
    SweepStepsAdd(InitialSweeper, HalfPeriod, HalfPeriod);
  }

  /** `map(potValue, 1023, 0, 5, 50)` stored in the `unsigned long` `sweepInterval`. */
  function SweepIntervalFor(pot: int): nat
  {
    Map(pot, PotMax, 0, SweepIntervalMin, SweepIntervalMax) % TimeModulus
  }

  /** The sweep interval is inverted like the Manual target and stays in [5, 50] ms. */
  lemma SweepIntervalRange(pot: int)
    requires 0 <= pot <= PotMax
    ensures SweepIntervalFor(pot) ==
            SweepIntervalMin + (PotMax - pot) * (SweepIntervalMax - SweepIntervalMin) / PotMax
    ensures SweepIntervalMin <= SweepIntervalFor(pot) <= SweepIntervalMax
    ensures pot == 0 ==> SweepIntervalFor(pot) == SweepIntervalMax
    ensures pot == PotMax ==> SweepIntervalFor(pot) == SweepIntervalMin
  {
    var n := (pot - PotMax) * (SweepIntervalMax - SweepIntervalMin);
    assert n <= 0;
    assert TruncDiv(n, -PotMax) == (-n) / PotMax;
    assert 0 <= (-n) / PotMax <= SweepIntervalMax - SweepIntervalMin;
  }

  // ---------------------------------------------------------------------
  // handleModes()
  // ---------------------------------------------------------------------

  /** The state `handleModes()` reads and writes: the servo's last written pulse,
      the global `sweepInterval`, and the function-static `lastPotValue`
      (initialised from `potValue` on the first call, hence `lastPotSet`),
      `sweepingRight`/`sweepMicros` and `lastSweepTime`. */
  datatype MotionState = MotionState(
    servo: int,
    sweepInterval: nat,
    lastPot: int,
    lastPotSet: bool,
    sweep: Sweeper,
    lastSweepTime: Time)

  const InitialMotion: MotionState :=
    MotionState(StartPulse, InitialSweepInterval, 0, false, InitialSweeper, 0)

  /** What holds of the motion state at every tick when pot readings are in range. */
  predicate MotionInv(m: MotionState)
  {
    ServoMin <= m.servo <= ServoMax &&
    SweepIntervalMin <= m.sweepInterval <= SweepIntervalMax &&
    0 <= m.lastPot <= PotMax &&
    SweepInv(m.sweep)
  }

  lemma InitialMotionInv()
    ensures MotionInv(InitialMotion)
  {
  }

  /** `lastPotValue` as the current call sees it after the static initialiser. */
  function LastPotSeen(m: MotionState, pot: int): int
  {
    if m.lastPotSet then m.lastPot else pot
  }

  /** The static initialiser `lastPotValue = potValue`, which runs on the first call only. */
  function InitLastPot(m: MotionState, pot: int): (r: MotionState)
    ensures r.lastPotSet
    ensures !m.lastPotSet ==> r.lastPot == pot
    ensures m.lastPotSet ==> r == m
    ensures r.(lastPot := m.lastPot, lastPotSet := m.lastPotSet) == m
  {
    m.(lastPot := LastPotSeen(m, pot), lastPotSet := true)
  }

  /** The initialiser runs once: after the first call, later calls with any
      other reading leave `lastPotValue` at the first call's reading. */
  lemma InitLastPotOnce(m: MotionState, p: int, q: int)
    ensures InitLastPot(InitLastPot(m, p), q) == InitLastPot(m, p)
    ensures !m.lastPotSet ==> InitLastPot(InitLastPot(m, p), q).lastPot == p
  {
  }

  /** Whatever `handleModes()` does, the static initialiser has run once it
      returns, so no later call re-reads the pot into `lastPotValue` except
      through the Sweep case's noise test. */
  lemma HandleModesInitialisesOnce(mode: Mode, m: MotionState, pot: int, now: Time)
    ensures HandleModes(mode, m, pot, now).lastPotSet
    ensures !m.lastPotSet && mode != Sweep ==> HandleModes(mode, m, pot, now).lastPot == pot
    ensures m.lastPotSet && mode != Sweep ==> HandleModes(mode, m, pot, now).lastPot == m.lastPot
  {
  }

  /** The Manual target is in range for every in-range pot reading. */
  lemma ManualTargetBounded(pot: int)
    ensures 0 <= pot <= PotMax ==> ServoMin <= ManualTarget(pot) <= ServoMax
  {
    if 0 <= pot <= PotMax {
      ManualTargetRange(pot);
    }
  }

  /** The sweep interval is in range for every in-range pot reading. */
  lemma SweepIntervalBounded(pot: int)
    ensures 0 <= pot <= PotMax ==> SweepIntervalMin <= SweepIntervalFor(pot) <= SweepIntervalMax
  {
    if 0 <= pot <= PotMax {
      SweepIntervalRange(pot);
    }
  }

  /** The Manual case: one bounded step toward the inverted pot target. */
  function ManualTick(m: MotionState, pot: int): (r: MotionState)
    ensures MotionInv(m) && 0 <= pot <= PotMax ==> MotionInv(r)
    ensures r.(servo := m.servo) == m
  {
    ManualTargetBounded(pot);
    m.(servo := ManualStep(m.servo, ManualTarget(pot)))
  }

  /** The first half of the Sweep case: re-derive the interval when the pot has
      moved by more than PotNoise since the reading it was last derived from. */
  function AdjustSweepRate(m: MotionState, pot: int): (r: MotionState)
    ensures MotionInv(m) && 0 <= pot <= PotMax ==> MotionInv(r)
    ensures r.sweepInterval != m.sweepInterval || r.lastPot != m.lastPot ==>
              Abs(pot - m.lastPot) > PotNoise
    ensures Abs(pot - m.lastPot) > PotNoise ==>
              r.sweepInterval == SweepIntervalFor(pot) && r.lastPot == pot
    ensures r.(sweepInterval := m.sweepInterval, lastPot := m.lastPot) == m
  {
    SweepIntervalBounded(pot);
    if Abs(pot - m.lastPot) > PotNoise then
      m.(sweepInterval := SweepIntervalFor(pot), lastPot := pot)
    else m
  }

  /** Sweep is due when the time since the last step has reached the interval. */
  predicate SweepDue(m: MotionState, now: Time)
  {
    Elapsed(now, m.lastSweepTime) >= m.sweepInterval
  }

  /** The second half of the Sweep case: when due, take one sweep step and
      write the new position to the servo. */
  function AdvanceSweep(m: MotionState, now: Time): (r: MotionState)
    ensures MotionInv(m) ==> MotionInv(r)
    ensures SweepDue(m, now) ==>
              r == m.(lastSweepTime := now, sweep := SweepStep(m.sweep), servo := SweepStep(m.sweep).pos)
    ensures !SweepDue(m, now) ==> r == m
  {
    if SweepDue(m, now) then
      var s := SweepStep(m.sweep);
      m.(lastSweepTime := now, sweep := s, servo := s.pos)
    else m
  }

  /** One call of `handleModes()` in mode `mode`, with this tick's averaged pot
      reading and time. */
  function HandleModes(mode: Mode, m: MotionState, pot: int, now: Time): (r: MotionState)
    // the pulse and the sweep stay within the limits, the interval within [5, 50] ms
    ensures MotionInv(m) && 0 <= pot <= PotMax ==> MotionInv(r)
    ensures r.lastPotSet
    // Manual: one bounded step toward the inverted pot target
    ensures mode == Manual ==> r.servo == ManualStep(m.servo, ManualTarget(pot))
    // the sweep rate follows the pot only in Sweep and only past the noise threshold
    ensures r.sweepInterval != m.sweepInterval || r.lastPot != LastPotSeen(m, pot) ==>
              mode == Sweep && Abs(pot - LastPotSeen(m, pot)) > PotNoise
    ensures mode == Sweep && Abs(pot - LastPotSeen(m, pot)) > PotNoise ==>
              r.sweepInterval == SweepIntervalFor(pot) && r.lastPot == pot
    // the sweep moves one step exactly when it is due, and otherwise keeps its place
    ensures mode == Sweep && Elapsed(now, m.lastSweepTime) >= r.sweepInterval ==>
              r.sweep == SweepStep(m.sweep) && r.servo == r.sweep.pos && r.lastSweepTime == now
    ensures !(mode == Sweep && Elapsed(now, m.lastSweepTime) >= r.sweepInterval) ==>
              r.sweep == m.sweep && r.lastSweepTime == m.lastSweepTime
    ensures mode == Sweep && Elapsed(now, m.lastSweepTime) < r.sweepInterval ==> r.servo == m.servo
    // Center writes its fixed pulse; Calibrate leaves the servo alone
    ensures mode == Center ==> r.servo == CenterPulse
    ensures mode == Calibrate ==> r.servo == m.servo
  {
    var m := InitLastPot(m, pot);
    match mode
    case Manual => ManualTick(m, pot)
    case Sweep => AdvanceSweep(AdjustSweepRate(m, pot), now)
    case Center => m.(servo := CenterPulse)
    case Calibrate => m
  }

  /** Scenario: with the pot at 900 of 1023 and the servo at 600 µs, Manual mode
      settles at the inverted target 816 µs after ceil(216 / 10) = 22 ticks. */
  lemma ManualScenario()
    ensures ManualTarget(900) == 816
    ensures Approach(ServoMin, ManualTarget(900), 22) == 816
    ensures Approach(ServoMin, ManualTarget(900), 21) != 816
  {
    ManualTargetRange(900);
    ApproachReachesTarget(ServoMin, 816, 22);
    ApproachReachesTarget(ServoMin, 816, 21);
  }
}
