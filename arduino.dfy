/** Integer semantics of the Arduino runtime that the sketch relies on:
    the wrapping `unsigned long` clock, C's truncating division, the core's
    `map` and the `uint16_t` conversions. */
module Arduino {

  /** 2^32: `millis()` returns an `unsigned long`, which wraps at this value. */
  const TimeModulus: int := 0x1_0000_0000

  /** 2^16: the width of the sketch's `uint16_t` variables. */
  const U16Modulus: int := 0x1_0000

  /** A reading of `millis()`. */
  type Time = t: int | 0 <= t < 0x1_0000_0000

  /** Logic levels of a digital pin. The button is wired with a pull-up,
      so HIGH means released and LOW means pressed. */
  const HIGH: bool := true
  const LOW: bool := false

  function Abs(x: int): (r: int)
    ensures r >= 0 && (r == x || r == -x)
  {
    if x < 0 then -x else x
  }

  function Min(a: int, b: int): (r: int)
    ensures r <= a && r <= b && (r == a || r == b)
  {
    if a <= b then a else b
  }

  /** `now - since` computed on `unsigned long`: the time that has passed since
      `since`, correct across one wrap of the clock. */
  function Elapsed(now: Time, since: Time): (d: Time)
    ensures (since + d) % TimeModulus == now
    ensures since <= now ==> d == now - since
  {
    (now - since) % TimeModulus
  }

  /** Elapsed times measured from a common origin subtract, across a wrap of
      the clock too: if `b` is no earlier than `a` as seen from `origin`, the
      time from `a` to `b` is the difference of their times since `origin`. */
  lemma ElapsedChain(a: Time, b: Time, origin: Time)
    requires Elapsed(a, origin) <= Elapsed(b, origin)
    ensures Elapsed(b, a) == Elapsed(b, origin) - Elapsed(a, origin)
  {
    var ea, eb := Elapsed(a, origin), Elapsed(b, origin);
    assert a == origin + ea || a == origin + ea - TimeModulus;
    assert b == origin + eb || b == origin + eb - TimeModulus;
  }

  /** Conversion of an `int`/`long` value to `uint16_t` (reduction modulo 2^16). */
  function U16(x: int): (r: int)
    ensures 0 <= r < U16Modulus
    ensures 0 <= x < U16Modulus ==> r == x
  {
    x % U16Modulus
  }

  /** C's integer division, which truncates toward zero (Dafny's `/` is
      Euclidean). The remainder takes the sign of the dividend and is smaller
      in magnitude than the divisor, which determines the quotient uniquely. */
  function TruncDiv(a: int, b: int): (q: int)
    requires b != 0
    ensures 0 <= a ==> 0 <= a - q * b < Abs(b)
    ensures a < 0 ==> -Abs(b) < a - q * b <= 0
  {
    if 0 <= a && 0 < b then a / b
    else if 0 <= a then -(a / -b)
    else if 0 < b then -((-a) / b)
    else (-a) / (-b)
  }

  /** The Arduino core's `map(x, in_min, in_max, out_min, out_max)`, evaluated
      in `long` with truncating division. The sketch only calls it with
      constant, distinct input bounds. */
  function Map(x: int, inMin: int, inMax: int, outMin: int, outMax: int): int
    requires inMin != inMax
  {
    TruncDiv((x - inMin) * (outMax - outMin), inMax - inMin) + outMin
  }
}
