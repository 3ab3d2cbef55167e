/**
 * The airplane's bank (roll) angle (src/components/Experience.jsx, lines
 * 397-415): the raw angle atan2 gives is turned a quarter turn, converted to
 * degrees, amplified by 2.4, clamped to 35 degrees either way and converted
 * back to radians.
 */
module Banking {
  import opened FlightMath

  /** Math.PI, written as the decimal JavaScript prints for it. */
  const PI: real := 3.141592653589793
  /** The largest bank, in degrees, either way (line 16). */
  const AIRPLANE_MAX_ANGLE: real := 35.0
  /** The amplification of line 401. */
  const BANK_GAIN: real := 2.4

  function ToDegrees(angle: real): real { (angle * 180.0) / PI }

  function ToRadians(degrees: real): real { (degrees * PI) / 180.0 }

  /** Converting to degrees and back, or the other way round, gives the angle back. */
  lemma DegreesRoundTrip(angle: real)
    ensures ToRadians(ToDegrees(angle)) == angle
    ensures ToDegrees(ToRadians(angle)) == angle
  {
  }

  /** Lines 404-410: a negative angle is raised to -35 at most, then a positive one lowered to 35 at most. */
  function ClampBank(degrees: real): (r: real)
    ensures -AIRPLANE_MAX_ANGLE <= r <= AIRPLANE_MAX_ANGLE
    ensures -AIRPLANE_MAX_ANGLE <= degrees <= AIRPLANE_MAX_ANGLE ==> r == degrees
    ensures (r < 0.0 <==> degrees < 0.0) && (r > 0.0 <==> degrees > 0.0)
    ensures Abs(r) <= Abs(degrees)
    ensures r == Max(-AIRPLANE_MAX_ANGLE, Min(AIRPLANE_MAX_ANGLE, degrees))
  {
    var lowered := if degrees < 0.0 then Max(degrees, -AIRPLANE_MAX_ANGLE) else degrees;
    if lowered > 0.0 then Min(lowered, AIRPLANE_MAX_ANGLE) else lowered
  }

  /** The bank in degrees for the raw atan2 angle (lines 398-410). */
  function BankDegrees(rawAngle: real): (r: real)
    ensures -AIRPLANE_MAX_ANGLE <= r <= AIRPLANE_MAX_ANGLE
  {
    ClampBank(ToDegrees(-PI / 2.0 + rawAngle) * BANK_GAIN)
  }

  /** The bank in radians that the airplane turns towards (line 415). */
  function BankAngle(rawAngle: real): real
  {
    ToRadians(BankDegrees(rawAngle))
  }

  /** The bank never exceeds 35 degrees, in radians, either way. */
  lemma BankAngleBounded(rawAngle: real)
    ensures Abs(BankAngle(rawAngle)) <= ToRadians(AIRPLANE_MAX_ANGLE)
    ensures ToDegrees(BankAngle(rawAngle)) == BankDegrees(rawAngle)
  {
    var d := BankDegrees(rawAngle);
    DegreesRoundTrip(d);
    if d < 0.0 {
      assert ToRadians(-d) <= ToRadians(AIRPLANE_MAX_ANGLE);
    }
  }

  /** A tangent pointing straight ahead (atan2 gives a quarter turn) banks nothing. */
  lemma StraightFlightIsLevel()
    ensures BankAngle(PI / 2.0) == 0.0
  {
  }

  /**
   * Below the clamp, the bank is the turned raw angle amplified by 2.4: the
   * degree conversion cancels out.
   */
  lemma BankAmplifies(rawAngle: real)
    requires Abs(ToDegrees(-PI / 2.0 + rawAngle) * BANK_GAIN) <= AIRPLANE_MAX_ANGLE
    ensures BankAngle(rawAngle) == BANK_GAIN * (rawAngle - PI / 2.0)
  {
    var a := -PI / 2.0 + rawAngle;
    assert BankDegrees(rawAngle) == ToDegrees(a) * BANK_GAIN;
    assert ToRadians(ToDegrees(a) * BANK_GAIN) == BANK_GAIN * ToRadians(ToDegrees(a));
    DegreesRoundTrip(a);
  }
}
