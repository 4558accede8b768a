/**
 * The fast white pygame vehicle (m3/vehicle2.py), a three-state machine:
 * drive to the light, wait at the intersection asking for green, then cross.
 * The class of the light it talks to is not part of this model: it is an
 * object with a textual `state` and a partner `other_light`, and the answer
 * of its `is_green()` (asked after the request) is a parameter of `Update`.
 */
module Vehicle2Agent {
  import opened Kinematics

  datatype Stage = ToTrafficLight | Waiting | Accepted

  /** The order in which the stages are passed. */
  function Rank(s: Stage): nat {
    match s
    case ToTrafficLight => 0
    case Waiting => 1
    case Accepted => 2
  }

  const WIDTH: real := 20.0
  const HEIGHT: real := 10.0
  const MAX_SPEED: real := 2.0
  const ACCELERATION: real := 0.01
  const DECELERATION: real := 0.5
  /** The gap, in pixels, under which another vehicle counts as ahead. */
  const AHEAD_GAP: real := 40.0
  const INTERSECTION_X: real := 325.0
  const INTERSECTION_Y: real := 390.0

  /** The light `request_green` writes to: its textual state and its partner. */
  class SignalLight {
    var state: string
    var otherLight: SignalLight?

    constructor (state: string, otherLight: SignalLight?)
      ensures this.state == state && this.otherLight == otherLight
    {
      this.state := state;
      this.otherLight := otherLight;
    }
  }

  /**
   * The state `request_green` leaves `light` in: unchanged while its partner
   * is in 'loop' or 'pause' or while it is paused itself, else 'loop'.
   */
  function RequestedState(lightState: string, otherState: string): (r: string)
    ensures otherState == "loop" || otherState == "pause" || lightState == "pause" ==> r == lightState
    ensures otherState != "loop" && otherState != "pause" && lightState != "pause" ==> r == "loop"
  {
    if otherState == "loop" || otherState == "pause" then lightState
    else if lightState == "pause" then lightState
    else "loop"
  }

  class Vehicle2 {
    var x: real
    var y: real
    const width: real := WIDTH
    const height: real := HEIGHT
    var speed: real
    const direction: Orientation
    /** `vehicle_list`, as the sequence of vehicles it holds. */
    var vehicleList: seq<Vehicle2>
    var state: Stage
    var isCloseToCar: bool
    var inIntersection: bool

    constructor (x: real, y: real, direction: Orientation, vehicleList: seq<Vehicle2>)
      ensures this.x == x && this.y == y && this.direction == direction && this.vehicleList == vehicleList
      ensures speed == MAX_SPEED && state == ToTrafficLight && !isCloseToCar && !inIntersection
    {
      this.x, this.y := x, y;
      this.direction := direction;
      this.vehicleList := vehicleList;
      speed := 2.0;
      state := ToTrafficLight;
      isCloseToCar := false;
      inIntersection := false;
    }

    /** `other` is another vehicle less than 40 pixels ahead along this vehicle's axis, in any lane. */
    predicate Ahead(other: Vehicle2)
      reads this`x, this`y, other`x, other`y
    {
      && other != this
      && (direction == Horizontal ==> 0.0 < other.x - x < AHEAD_GAP)
      && (direction == Vertical ==> 0.0 < y - other.y < AHEAD_GAP)
    }

    predicate SomeVehicleAhead()
      reads this`x, this`y, this`vehicleList, vehicleList`x, vehicleList`y
    {
      exists i :: 0 <= i < |vehicleList| && Ahead(vehicleList[i])
    }

    /** `is_vehicle_ahead`: an early-return scan that skips this vehicle. */
    method IsVehicleAhead() returns (found: bool)
      ensures found <==> SomeVehicleAhead()
    {
      var i := 0;
      while i < |vehicleList|
        invariant 0 <= i <= |vehicleList|
        invariant forall j :: 0 <= j < i ==> !Ahead(vehicleList[j])
      {
        var other := vehicleList[i];
        if other != this {
          if direction == Horizontal {
            if 0.0 < other.x - x < AHEAD_GAP {
              return true;
            }
          } else {
            if 0.0 < y - other.y < AHEAD_GAP {
              return true;
            }
          }
        }
        i := i + 1;
      }
      return false;
    }

    /** `is_in_intersection`: the front has reached x = 325 (horizontal) or the back y = 390 (vertical). */
    predicate IsInIntersection()
      reads this`x, this`y
    {
      if direction == Horizontal then x + width >= INTERSECTION_X else y + height <= INTERSECTION_Y
    }

    /** `request_green`: only `light.state` may change; the partner is read, never written. */
    method RequestGreen(light: SignalLight)
      requires light.otherLight != null
      modifies light`state
      ensures light.state == RequestedState(old(light.state), old(light.otherLight.state))
    {
      if light.otherLight.state == "loop" || light.otherLight.state == "pause" {
        return;
      } else if light.state == "pause" {
        return;
      } else {
        light.state := "loop";
      }
    }

    /**
     * `update`.  Driving to the light, the vehicle adjusts its speed to the
     * vehicle ahead and, on first reaching the intersection, switches to
     * waiting and brakes without moving; waiting, it asks for green and is
     * accepted when the light then answers green; accepted, it moves on at a
     * constant speed.
     */
    method Update(light: SignalLight, green: bool)
      requires state == Waiting ==> light.otherLight != null
      modifies this`speed, this`x, this`y, this`state, light`state
      ensures Rank(old(state)) <= Rank(state) <= Rank(old(state)) + 1
      ensures old(state) != Waiting ==> light.state == old(light.state)
      ensures old(state) == ToTrafficLight ==>
                var s := if old(SomeVehicleAhead()) then Brake(old(speed), DECELERATION)
                         else Accelerate(old(speed), ACCELERATION, MAX_SPEED);
                if old(IsInIntersection()) then
                  state == Waiting && speed == Brake(s, DECELERATION) && x == old(x) && y == old(y)
                else
                  && state == ToTrafficLight && speed == s
                  && (direction == Horizontal ==> x == old(x) + s && y == old(y))
                  && (direction == Vertical ==> y == old(y) - s && x == old(x))
      ensures old(state) == Waiting ==>
                && speed == old(speed) && x == old(x) && y == old(y)
                && light.state == RequestedState(old(light.state), old(light.otherLight.state))
                && state == (if green then Accepted else Waiting)
      ensures old(state) == Accepted ==>
                && state == Accepted && speed == old(speed)
                && (direction == Horizontal ==> x == old(x) + speed && y == old(y))
                && (direction == Vertical ==> y == old(y) - speed && x == old(x))
      ensures old(SpeedInRange()) ==> SpeedInRange()
    {
      if state == ToTrafficLight {
        var ahead := IsVehicleAhead();
        if ahead {
          speed := Brake(speed, DECELERATION);
        } else {
          speed := Accelerate(speed, ACCELERATION, MAX_SPEED);
        }
        if IsInIntersection() {
          state := Waiting;
          speed := Brake(speed, DECELERATION);
        } else {
          if direction == Horizontal {
            x := x + speed;
          } else {
            y := y - speed;
          }
        }
      } else if state == Waiting {
        RequestGreen(light);
        if green {
          state := Accepted;
        } else {
          state := Waiting;
        }
      } else {
        if direction == Horizontal {
          x := x + speed;
        } else {
          y := y - speed;
        }
      }
    }

    predicate SpeedInRange()
      reads this`speed
    {
      0.0 <= speed <= MAX_SPEED
    }
  }
}
