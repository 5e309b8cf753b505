/** get_torque: the fitted linear torque model, cut to an integer by the
    C `(int)` conversion, which truncates toward zero. */
module TorqueModel {

  /** The regression value 2.4437 + 1.3249 * angle - 0.345 * speed. */
  function Regression(speed: real, angle: real): real
  {
    2.4437 + 1.3249 * angle - 0.345 * speed
  }

  /** Truncation toward zero: the integer part of `x`, keeping its sign. */
  function Trunc(x: real): (r: int)
    ensures 0.0 <= x ==> r as real <= x < r as real + 1.0
    ensures x < 0.0 ==> r as real - 1.0 < x <= r as real
  {
    if x >= 0.0 then x.Floor else -((-x).Floor)
  }

  /** Truncation is monotone. */
  lemma TruncMonotone(x: real, y: real)
    requires x <= y
    ensures Trunc(x) <= Trunc(y)
  {
  }

  /** The commanded torque for a vehicle speed and a trusted pedal angle
      (argument order of `get_torque(veh_speed, pedal_angle)`). */
  function GetTorque(speed: real, angle: real): (torque: int)
    ensures 0.0 <= Regression(speed, angle) ==>
              torque as real <= Regression(speed, angle) < torque as real + 1.0
    ensures Regression(speed, angle) < 0.0 ==>
              torque as real - 1.0 < Regression(speed, angle) <= torque as real
  {
    Trunc(Regression(speed, angle))
  }

  /** Pressing the pedal further never lowers the torque; driving faster
      never raises it. */
  lemma TorqueMonotone(speed: real, speed': real, angle: real, angle': real)
    requires angle <= angle' && speed' <= speed
    ensures GetTorque(speed, angle) <= GetTorque(speed', angle')
  {
  }

  /** At rest with the pedal released the command is 2 (trunc of 2.4437). */
  lemma TorqueAtRest()
    ensures GetTorque(0.0, 0.0) == 2
  {
  }

  /** Negative values round up, not down: 2.4437 - 3.45 = -1.0063 gives -1,
      where a floor would give -2. */
  lemma TorqueTruncatesNegativeTowardZero()
    ensures Regression(10.0, 0.0) == -1.0063
    ensures GetTorque(10.0, 0.0) == -1
    ensures Regression(10.0, 0.0).Floor == -2
  {
  }

  /** For a plausible pedal angle and a speed of at most 10^9 in magnitude the
      command fits a 32-bit `int`, so the C conversion is defined. */
  lemma TorqueFitsInt32(speed: real, angle: real)
    requires 0.0 <= angle <= 30.0
    requires -1000000000.0 <= speed <= 1000000000.0
    ensures -0x8000_0000 <= GetTorque(speed, angle) < 0x8000_0000
  {
  }
}
