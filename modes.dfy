/** The sketch's top-level operating mode (`enum Mode`). */
module Modes {

  datatype Mode = Manual | Sweep | Center | Calibrate

  /** What a double tap switches to: Sweep from Manual, Manual from every other mode. */
  function Toggled(m: Mode): (r: Mode)
    ensures r == Sweep <==> m == Manual
    ensures r == Sweep || r == Manual
  {
    if m == Manual then Sweep else Manual
  }
}
