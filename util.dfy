/** The helper macros of util.h (max, min, pow2, limit) and the EEPROM
    addresses it reserves for the gyroscope calibration record.

    The C macros are polymorphic through `typeof`; every use in the flight
    core mixes an `int` bound with a `double` value, so the comparison and
    the result are in `double`, modelled here as `real`. */
module Util {

  /** EEPROM address of the "gyro calibrated" marker byte. */
  const GyroCalibratedLoc: int := 300
  /** EEPROM address where the calibration record starts. */
  const GyroStructLoc: int := 301

  /** max(A,B): `(_a > _b) ? _a : _b`, so B is returned on a tie. */
  function Max(a: real, b: real): (r: real)
    ensures r == a || r == b
    ensures r >= a && r >= b
    ensures !(a > b) ==> r == b
  {
    if a > b then a else b
  }

  /** min(A,B): `(_a < _b) ? _a : _b`, so B is returned on a tie. */
  function Min(a: real, b: real): (r: real)
    ensures r == a || r == b
    ensures r <= a && r <= b
    ensures !(a < b) ==> r == b
  {
    if a < b then a else b
  }

  /** pow2(A): the square of its argument. */
  function Pow2(a: real): (r: real)
    ensures r >= 0.0
  {
    a * a
  }

  lemma Pow2Even(a: real)
    ensures Pow2(-a) == Pow2(a)
  {
  }

  /** limit(low,v,high) = min(high, max(low, v)): a clamp into [low, high];
      because min is applied last, an empty range (low > high) yields high. */
  function Limit(low: real, v: real, high: real): (r: real)
    ensures low <= high ==> low <= r <= high
    ensures low <= v <= high ==> r == v
    ensures v < low <= high ==> r == low
    ensures low <= high < v ==> r == high
    ensures high < low ==> r == high
  {
    Min(high, Max(low, v))
  }

  /** Clamping a value that limit has already clamped changes nothing,
      whether or not the range is empty. */
  lemma LimitIdempotent(low: real, v: real, high: real)
    ensures Limit(low, Limit(low, v, high), high) == Limit(low, v, high)
  {
  }

  /** A symmetric clamp commutes with negation. */
  lemma LimitSymmetric(m: real, v: real)
    requires m >= 0.0
    ensures Limit(-m, -v, m) == -Limit(-m, v, m)
  {
  }
}
