/**
 * The axes of the pygame vehicles, and the two speed updates every pygame
 * and agentpy vehicle uses:
 * `min(speed + acceleration, max_speed)` and `max(0, speed - deceleration)`.
 */
module Kinematics {

  /** The pygame vehicles' `direction`: right along x, or up along y. */
  datatype Orientation = Horizontal | Vertical

  /** `min(speed + acceleration, max_speed)`. */
  function Accelerate(speed: real, acceleration: real, maxSpeed: real): (r: real)
    ensures r <= maxSpeed && r <= speed + acceleration
    ensures r == maxSpeed || r == speed + acceleration
    ensures acceleration >= 0.0 && speed <= maxSpeed ==> speed <= r
    ensures speed >= 0.0 && acceleration >= 0.0 && maxSpeed >= 0.0 ==> r >= 0.0
  {
    if speed + acceleration <= maxSpeed then speed + acceleration else maxSpeed
  }

  /** `max(0, speed - deceleration)`. */
  function Brake(speed: real, deceleration: real): (r: real)
    ensures r >= 0.0 && r >= speed - deceleration
    ensures r == 0.0 || r == speed - deceleration
    ensures deceleration >= 0.0 && speed >= 0.0 ==> r <= speed
  {
    if speed - deceleration >= 0.0 then speed - deceleration else 0.0
  }

  /** Both updates keep a speed inside `[0, maxSpeed]`. */
  lemma SpeedUpdatesStayInRange(speed: real, acceleration: real, deceleration: real, maxSpeed: real)
    requires 0.0 <= speed <= maxSpeed && acceleration >= 0.0 && deceleration >= 0.0
    ensures 0.0 <= Accelerate(speed, acceleration, maxSpeed) <= maxSpeed
    ensures 0.0 <= Brake(speed, deceleration) <= maxSpeed
  {
  }
}
