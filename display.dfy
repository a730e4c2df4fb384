/** The three-digit readout refreshed on every loop iteration: the sweep
    interval in Sweep mode, otherwise the servo angle in degrees, split into
    hundreds, tens and ones with leading positions left dark. */
module Display {
  import opened Arduino
  import opened Modes
  import opened Motion

  /** What one position of the display shows. */
  datatype Glyph = Blank | Digit(d: int)

  /** The three positions, left to right (`digitIndex` 0, 1, 2). */
  datatype Readout = Readout(hundreds: Glyph, tens: Glyph, ones: Glyph)

  const SpaceCode: int := ' ' as int
  const ZeroCode: int := '0' as int

  /** What `displayDigit` lights for the character it is given (the low byte of
      the code): the digit's segments for '0' to '9'; for ' ' and for any other
      code every segment stays off. */
  function GlyphFor(code: int): (g: Glyph)
    ensures g.Digit? <==> ZeroCode <= code % 256 <= ZeroCode + 9
    ensures g.Digit? ==> 0 <= g.d <= 9 && g.d == code % 256 - ZeroCode
  {
    var c := code % 256;
    if ZeroCode <= c <= ZeroCode + 9 then Digit(c - ZeroCode) else Blank
  }

  /** The number a readout shows, dark positions counting as zero. */
  function ReadBack(r: Readout): int
  {
    100 * DigitValue(r.hundreds) + 10 * DigitValue(r.tens) + DigitValue(r.ones)
  }

  function DigitValue(g: Glyph): int
  {
    if g.Digit? then g.d else 0
  }

  /** The hundreds/tens/ones split of a displayed value `v`; the tens position
      is dark below 10 and the hundreds position below 100. */
  function DigitSplit(v: nat): (r: Readout)
    ensures v < 1000 ==> ReadBack(r) == v
    ensures v < 1000 ==> (r.hundreds == Blank <==> v < 100)
    ensures r.tens == Blank <==> v < 10
    ensures r.ones == Digit(v % 10)
  {
    var h := U16(v / 100);
    var t := (v / 10) % 10;
    var o := v % 10;
    DigitGlyph(t);
    DigitGlyph(o);
    DecimalSplit(v);
    Readout(GlyphFor(if v >= 100 then ZeroCode + h else SpaceCode),
            GlyphFor(if v >= 10 then ZeroCode + t else SpaceCode),
            GlyphFor(ZeroCode + o))
  }

  /** A digit character lights that digit. */
  lemma DigitGlyph(d: int)
    requires 0 <= d <= 9
    ensures GlyphFor(ZeroCode + d) == Digit(d)
  {
  }

  /** A value below 1000 is its hundreds, tens and ones recombined. */
  lemma DecimalSplit(v: nat)
    ensures v < 1000 ==> v / 100 <= 9 && 100 * (v / 100) + 10 * ((v / 10) % 10) + v % 10 == v
  {
    var q := v / 10;
    assert v == 10 * q + v % 10;
    assert q == 10 * (q / 10) + q % 10;
    assert q / 10 == v / 100;
  }

  /** The angle shown outside Sweep mode:
      `map(servo1.readMicroseconds(), servoMin, servoMax, 0, 180)` as a `uint16_t`. */
  function Angle(pulse: int): nat
  {
    U16(Map(pulse, ServoMin, ServoMax, 0, 180))
  }

  lemma AngleRange(pulse: int)
    requires ServoMin <= pulse <= ServoMax
    ensures Angle(pulse) == (pulse - ServoMin) * 180 / (ServoMax - ServoMin)
    ensures 0 <= Angle(pulse) <= 180
    ensures pulse == ServoMin ==> Angle(pulse) == 0
    ensures pulse == ServoMax ==> Angle(pulse) == 180
    ensures pulse == CenterPulse ==> Angle(pulse) == 30
  {
    var n := (pulse - ServoMin) * 180;
    assert 0 <= n;
    assert TruncDiv(n, ServoMax - ServoMin) == n / (ServoMax - ServoMin);
  }

  /** The value the display shows in `mode`. */
  function Shown(mode: Mode, m: MotionState): nat
  {
    if mode == Sweep then m.sweepInterval else Angle(m.servo)
  }

  /** The readout of one loop iteration, taken after `handleModes()` and before
      the button handling, so it reflects the mode in force for this tick. */
  function Show(mode: Mode, m: MotionState): Readout
  {
    DigitSplit(Shown(mode, m))
  }

  /** In every reachable motion state the readout spells the shown value: an
      angle of at most 180 degrees, or a sweep interval of at most 50 ms with
      the hundreds position dark. */
  lemma ShowReadsBack(mode: Mode, m: MotionState)
    requires MotionInv(m)
    ensures Shown(mode, m) <= 180
    ensures ReadBack(Show(mode, m)) == Shown(mode, m)
    ensures mode == Sweep ==> Show(mode, m).hundreds == Blank
  {
    if mode != Sweep {
      AngleRange(m.servo);
    }
  }
}
