/**
 * The drive stage of a tick: the forward command is the negated drive stick scaled
 * by a divisor chosen from the gear solenoid's value, the rotation command is the
 * rotate stick scaled by a fixed gain.
 */
module Drivetrain {

  import opened Wrappers
  import opened Pneumatics

  const HighGearDivisor: real := 1.0
  const LowGearDivisor: real := 0.85
  const UnknownGearDivisor: real := 1.0
  const HighGearTurnDivisor: real := 0.8
  const LowGearTurnDivisor: real := 0.75
  const RotationGain: real := 0.75

  function Abs(x: real): real
  {
    if x < 0.0 then -x else x
  }

  /** Forward scaling by gear: code 1 is high gear, code 2 low gear, anything else falls back to full scale. */
  function Divisor(gear: Solenoid): (d: real)
    ensures LowGearDivisor <= d <= HighGearDivisor
    ensures d < HighGearDivisor <==> gear == Reverse
  {
    if gear.Code() == 1 then HighGearDivisor
    else if gear.Code() == 2 then LowGearDivisor
    else UnknownGearDivisor
  }

  /** The turn divisor after the gear check; the fallback branch leaves the previous setting. */
  function TurnDivisor(gear: Solenoid, previous: Option<real>): (t: Option<real>)
    ensures gear == Off ==> t == previous
    ensures gear == Forward ==> t == Some(HighGearTurnDivisor)
    ensures gear == Reverse ==> t == Some(LowGearTurnDivisor)
  {
    if gear.Code() == 1 then Some(HighGearTurnDivisor)
    else if gear.Code() == 2 then Some(LowGearTurnDivisor)
    else previous
  }

  /** Forward command handed to arcade drive: opposite in sign to the stick and never larger. */
  function DriveForward(axis: real, gear: Solenoid): (r: real)
    ensures Abs(r) <= Abs(axis)
    ensures axis > 0.0 ==> r < 0.0
    ensures axis < 0.0 ==> r > 0.0
    ensures axis == 0.0 ==> r == 0.0
  {
    -axis * Divisor(gear)
  }

  /** Rotation command handed to arcade drive; it does not depend on the gear. */
  function DriveRotation(axis: real): (r: real)
    ensures Abs(r) <= Abs(axis)
    ensures (r < 0.0 <==> axis < 0.0) && (r > 0.0 <==> axis > 0.0)
  {
    axis * RotationGain
  }

  /** In low gear the forward command is never larger than in high gear for the same stick. */
  lemma LowGearNoFaster(axis: real)
    ensures Abs(DriveForward(axis, Reverse)) <= Abs(DriveForward(axis, Forward))
    ensures DriveForward(axis, Off) == DriveForward(axis, Forward)
  {
  }

  /** Full forward push in low gear gives 0.85. */
  lemma FullPushLowGear()
    ensures DriveForward(-1.0, Reverse) == 0.85
  {
  }
}
