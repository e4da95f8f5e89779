/**
 * The ultrasonic ranger shared by the two networked sketches (ESP32.c,
 * FillLevel.c): the echo pulse width in microseconds, as `pulseIn` reports
 * it (0 on timeout), becomes a distance in centimetres with
 * `duration * 0.034 / 2` (sound travels about 0.034 cm per microsecond, and
 * the pulse covers the distance twice).
 * Floating-point rounding is abstracted: the arithmetic is exact on reals.
 */
module Ranger {

  /** Marker every `measureDistance` returns for a reading it rejects. */
  const INVALID: real := -1.0

  function EchoToCm(duration: int): real
  {
    duration as real * 0.034 / 2.0
  }

  /** The conversion is the linear map `duration * 17 / 1000`. */
  lemma EchoToCmIsLinear(duration: int)
    ensures EchoToCm(duration) == duration as real * 17.0 / 1000.0
  {
  }

  /** `distance < 0.5` exactly when the echo is shorter than 30 microseconds. */
  lemma BelowHalfCentimetre(duration: int)
    ensures EchoToCm(duration) < 0.5 <==> duration < 30
  {
    EchoToCmIsLinear(duration);
  }

  /** `distance <= 0` exactly when the echo is not positive. */
  lemma NotPositive(duration: int)
    ensures EchoToCm(duration) <= 0.0 <==> duration <= 0
  {
    EchoToCmIsLinear(duration);
  }

  /** `distance > limit` as a bound on the echo: `duration * 17 > limit * 1000`. */
  lemma Beyond(duration: int, limit: int)
    ensures EchoToCm(duration) > limit as real <==> duration * 17 > limit * 1000
  {
    EchoToCmIsLinear(duration);
  }
}
