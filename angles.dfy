/** Angle helpers shared by both character controllers.
    ClampAngle is written identically in the third-person and the
    first-person controller, so it is defined once here. Angles are degrees,
    modelled as reals. */
module Angles {

  /** Unity's Mathf.Clamp: a value below `min` becomes `min`, otherwise a
      value above `max` becomes `max`. When min > max the first test wins. */
  function Clamp(value: real, min: real, max: real): (r: real)
    ensures min <= max ==> min <= r <= max
    ensures min <= value <= max ==> r == value
    ensures r == value || r == min || r == max
  {
    if value < min then min
    else if value > max then max
    else value
  }

  /** The two guarded steps of ClampAngle that move an angle by at most one
      full turn: below -360 it is raised by 360, then above 360 it is lowered
      by 360. It is not a normalisation: 800 becomes 440. */
  function WrapOnce(angle: real): (r: real)
    ensures -720.0 <= angle <= 720.0 ==> -360.0 <= r <= 360.0
    ensures -360.0 <= angle <= 360.0 ==> r == angle
    ensures r == angle - 360.0 || r == angle || r == angle + 360.0
  {
    var raised := if angle < -360.0 then angle + 360.0 else angle;
    if raised > 360.0 then raised - 360.0 else raised
  }

  /** ClampAngle(lfAngle, lfMin, lfMax): wrap once, then clamp. */
  function ClampAngle(angle: real, min: real, max: real): (r: real)
    ensures min <= max ==> min <= r <= max
    ensures -360.0 <= angle <= 360.0 && min <= angle <= max ==> r == angle
  {
    Clamp(WrapOnce(angle), min, max)
  }

  /** Clamping an already clamped angle changes nothing, as long as the
      bounds themselves lie within one turn either way. */
  lemma ClampAngleIdempotent(angle: real, min: real, max: real)
    requires -360.0 <= min <= max <= 360.0
    ensures ClampAngle(ClampAngle(angle, min, max), min, max) == ClampAngle(angle, min, max)
  {
  }

  /** The clamp works on the raw number, not on the angle modulo 360: two
      readings of the same direction can clamp to different values. */
  lemma ClampAngleNotPeriodic()
    ensures ClampAngle(350.0, -90.0, 90.0) == 90.0
    ensures ClampAngle(-10.0, -90.0, 90.0) == -10.0
  {
  }
}
