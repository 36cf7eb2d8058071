/**
 * Conversion of physical quantities into the integer units of the DENM
 * wire format: the `round` helper of the DENM service (round to nearest,
 * halves away from zero, like std::round) and the three scalings it is
 * used with (micro-degree, deci-degree, centimetre per second).
 * Quantities are exact reals here; double precision is not modelled.
 */
module Units {

  /** std::round on an exact real: the nearest integer, halves away from zero. */
  function Round(x: real): (r: int)
    ensures x - 0.5 <= r as real <= x + 0.5
    ensures r as real == x + 0.5 ==> x > 0.0
    ensures r as real == x - 0.5 ==> x < 0.0
  {
    if x >= 0.0 then (x + 0.5).Floor else -((-x + 0.5).Floor)
  }

  /** std::abs on a long. */
  function Abs(x: int): (r: nat)
    ensures r == x || r == -x
  {
    if x < 0 then -x else x
  }

  /** An angle in degrees, rounded to micro-degrees. */
  function Microdegrees(degrees: real): (r: int)
    ensures degrees * 1000000.0 - 0.5 <= r as real <= degrees * 1000000.0 + 0.5
  {
    Round(degrees * 1000000.0)
  }

  /** An angle in degrees, rounded to deci-degrees. */
  function Decidegrees(degrees: real): (r: int)
    ensures degrees * 10.0 - 0.5 <= r as real <= degrees * 10.0 + 0.5
  {
    Round(degrees * 10.0)
  }

  /** A speed in metres per second, rounded to centimetres per second. */
  function CentimetersPerSecond(metersPerSecond: real): (r: int)
    ensures metersPerSecond * 100.0 - 0.5 <= r as real <= metersPerSecond * 100.0 + 0.5
  {
    Round(metersPerSecond * 100.0)
  }

  /** Rounding leaves whole numbers unchanged. */
  lemma RoundOfInteger(n: int)
    ensures Round(n as real) == n
  {
  }

  /** Rounding is symmetric about zero, because ties go away from zero. */
  lemma RoundIsOdd(x: real)
    ensures Round(-x) == -Round(x)
  {
  }

  /** A speed and its opposite give the same magnitude in cm/s. */
  lemma SpeedMagnitudeIgnoresSign(metersPerSecond: real)
    ensures Abs(CentimetersPerSecond(-metersPerSecond)) == Abs(CentimetersPerSecond(metersPerSecond))
  {
    assert -metersPerSecond * 100.0 == -(metersPerSecond * 100.0);
    RoundIsOdd(metersPerSecond * 100.0);
  }

  /** 15 m/s and -15 m/s both encode as a magnitude of 1500 cm/s. */
  lemma FifteenMetersPerSecond()
    ensures CentimetersPerSecond(15.0) == 1500
    ensures Abs(CentimetersPerSecond(-15.0)) == 1500
  {
    RoundOfInteger(1500);
    RoundOfInteger(-1500);
  }
}
