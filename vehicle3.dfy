/**
 * The cyan pygame vehicle of the paired-light intersection (m3/vehicle3.py).
 * Each frame it looks for a vehicle right ahead in its lane and for cross
 * traffic in the intersection, adjusts its speed and moves along its axis:
 * horizontal vehicles go right (x grows), vertical vehicles go up (y shrinks).
 */
module Vehicle3Agent {
  import opened Kinematics
  import PairedLight

  const WIDTH: real := 20.0
  const HEIGHT: real := 10.0
  const MAX_SPEED: real := 1.0
  const ACCELERATION: real := 0.01
  const DECELERATION: real := 0.2
  const STOP_DISTANCE: real := 80.0
  /** The gap ahead, in pixels, under which another vehicle counts as close. */
  const FOLLOW_GAP: real := 25.0

  /** Where the light stands on each axis. */
  const LIGHT_X: real := 345.0
  const LIGHT_Y: real := 340.0

  /**
   * The intersection box of `is_in_intersection`: centre (345, 340), side 30,
   * widened by a 1-pixel buffer on every side.
   */
  const BOX_LEFT: real := 345.0 - (30.0 / 2.0 + 1.0)
  const BOX_RIGHT: real := 345.0 + (30.0 / 2.0 + 1.0)
  const BOX_TOP: real := 340.0 - (30.0 / 2.0 + 1.0)
  const BOX_BOTTOM: real := 340.0 + (30.0 / 2.0 + 1.0)

  /** The three-way test of `is_in_intersection` for the span `[lo, hi]` against the box side `[a, b]`. */
  predicate SpanTouches(lo: real, hi: real, a: real, b: real) {
    || (a <= hi <= b)
    || (a <= lo <= b)
    || (lo <= a && hi >= b)
  }

  /** On a span no shorter than zero, the three-way test is exactly closed-interval overlap. */
  lemma SpanTouchesIsOverlap(lo: real, hi: real, a: real, b: real)
    requires lo <= hi && a <= b
    ensures SpanTouches(lo, hi, a, b) <==> lo <= b && hi >= a
  {
  }

  /**
   * The speed after one `update`, from the speed `s` before it: whether a
   * vehicle was close in the previous frame, whether one is close now, and
   * whether the light, the intersection and the distance let the vehicle go on.
   */
  function NextSpeed(s: real, wasClose: bool, isClose: bool, proceed: bool): (r: real)
    ensures 0.0 <= s <= MAX_SPEED ==> 0.0 <= r <= MAX_SPEED
    ensures isClose ==> r == Brake(s, DECELERATION)
    ensures !isClose && proceed && s <= MAX_SPEED ==> s <= r
  {
    var s1 := if wasClose && !isClose then Accelerate(s, ACCELERATION, MAX_SPEED) else s;
    var s2 := if isClose then s1
              else if proceed then Accelerate(s1, ACCELERATION, MAX_SPEED)
              else Brake(s1, DECELERATION);
    if isClose then Brake(s2, DECELERATION) else Accelerate(s2, ACCELERATION, MAX_SPEED)
  }

  /**
   * The speed branches of `update`, from the speed `s` before it and what the
   * vehicle observed: closeness before and now, whether it passed the light or
   * is in the intersection, the light's colour, cross traffic and the distance
   * to the light.
   */
  method AdjustSpeed(s0: real, wasClose: bool, close: bool, passedLight: bool, inZone: bool, green: bool,
                     intersectionBlocked: bool, distanceToLight: real) returns (s: real)
    ensures s == NextSpeed(s0, wasClose, close,
                           passedLight || inZone || (green && !intersectionBlocked) || distanceToLight > STOP_DISTANCE)
  {
    s := s0;
    if wasClose && !close {
      s := Accelerate(s, ACCELERATION, MAX_SPEED);
    }
    if !close {
      if !passedLight {
        if inZone {
          s := Accelerate(s, ACCELERATION, MAX_SPEED);
        } else if (green && !intersectionBlocked) || distanceToLight > STOP_DISTANCE {
          s := Accelerate(s, ACCELERATION, MAX_SPEED);
        } else {
          s := Brake(s, DECELERATION);
          if s == 0.0 && green {
            if !intersectionBlocked {
              // `traffic_light.request_green()`: unreachable
              assert false;
            }
          }
        }
      } else {
        s := Accelerate(s, ACCELERATION, MAX_SPEED);
      }
    }
    if close {
      s := Brake(s, DECELERATION);
    } else {
      // `self.state` is always "to_traffic_light", never "is_waiting"
      s := Accelerate(s, ACCELERATION, MAX_SPEED);
    }
  }

  class Vehicle3 {
    var x: real
    var y: real
    const width: real := WIDTH
    const height: real := HEIGHT
    var speed: real
    const direction: Orientation
    /** `vehicle_list`, as the sequence of vehicles it holds. */
    var vehicleList: seq<Vehicle3>
    /** Never reassigned: the vehicle is always on its way to the light. */
    const state: string := "to_traffic_light"
    var isClose: bool
    var inIntersection: bool

    constructor (x: real, y: real, direction: Orientation, vehicleList: seq<Vehicle3>)
      ensures this.x == x && this.y == y && this.direction == direction && this.vehicleList == vehicleList
      ensures speed == MAX_SPEED && !isClose && !inIntersection
    {
      this.x, this.y := x, y;
      this.direction := direction;
      this.vehicleList := vehicleList;
      speed := 1.0;
      isClose := false;
      inIntersection := false;
    }

    predicate SpeedInRange()
      reads this
    {
      0.0 <= speed <= MAX_SPEED
    }

    /** `other` is another vehicle in the same lane, less than `FOLLOW_GAP` ahead of this vehicle's front. */
    predicate Ahead(other: Vehicle3)
      reads this`x, this`y, other`x, other`y
    {
      && other != this
      && (direction == Horizontal ==> other.y == y && 0.0 < other.x - (x + width) < FOLLOW_GAP)
      && (direction == Vertical ==> other.x == x && 0.0 < (y - height) - other.y < FOLLOW_GAP)
    }

    /** `is_in_intersection`: the vehicle's extent along its axis touches the buffered box. */
    predicate InIntersectionZone()
      reads this`x, this`y
      ensures InIntersectionZone() <==>
                if direction == Horizontal then x <= BOX_RIGHT && x + width >= BOX_LEFT
                else y - height <= BOX_BOTTOM && y >= BOX_TOP
    {
      SpanTouchesIsOverlap(x, x + width, BOX_LEFT, BOX_RIGHT);
      SpanTouchesIsOverlap(y - height, y, BOX_TOP, BOX_BOTTOM);
      if direction == Horizontal then SpanTouches(x, x + width, BOX_LEFT, BOX_RIGHT)
      else SpanTouches(y - height, y, BOX_TOP, BOX_BOTTOM)
    }

    /** `other` is another vehicle, moving on the other axis, that is in or at the intersection. */
    predicate CrossTraffic(other: Vehicle3)
      reads other`x, other`y
    {
      other != this && other.direction != direction && other.InIntersectionZone()
    }

    predicate SomeVehicleAhead()
      reads this`x, this`y, this`vehicleList, vehicleList`x, vehicleList`y
    {
      exists i :: 0 <= i < |vehicleList| && Ahead(vehicleList[i])
    }

    predicate IntersectionBlocked()
      reads this`vehicleList, vehicleList`x, vehicleList`y
    {
      exists i :: 0 <= i < |vehicleList| && CrossTraffic(vehicleList[i])
    }

    /** `find_vehicle_ahead`: an early-return scan that skips this vehicle. */
    method FindVehicleAhead() returns (found: bool)
      ensures found <==> SomeVehicleAhead()
    {
      var i := 0;
      while i < |vehicleList|
        invariant 0 <= i <= |vehicleList|
        invariant forall j :: 0 <= j < i ==> !Ahead(vehicleList[j])
      {
        var other := vehicleList[i];
        if other != this {
          if direction == Horizontal {
            if other.y == y && 0.0 < other.x - (x + width) < FOLLOW_GAP {
              return true;
            }
          } else {
            if other.x == x && 0.0 < (y - height) - other.y < FOLLOW_GAP {
              return true;
            }
          }
        }
        i := i + 1;
      }
      return false;
    }

    /** `find_vehicle_in_intersection`: an early-return scan over the vehicles on the other axis. */
    method FindVehicleInIntersection() returns (found: bool)
      ensures found <==> IntersectionBlocked()
    {
      var i := 0;
      while i < |vehicleList|
        invariant 0 <= i <= |vehicleList|
        invariant forall j :: 0 <= j < i ==> !CrossTraffic(vehicleList[j])
      {
        var other := vehicleList[i];
        if other != this && other.direction != direction {
          if other.InIntersectionZone() {
            return true;
          }
        }
        i := i + 1;
      }
      return false;
    }

    /** The vehicle has gone past the light on its axis. */
    predicate PassedLight()
      reads this`x, this`y
    {
      if direction == Horizontal then x > LIGHT_X else y < LIGHT_Y
    }

    function DistanceToLight(): real
      reads this`x, this`y
    {
      if direction == Horizontal then LIGHT_X - x else y - LIGHT_Y
    }

    /** The vehicle may speed up in the free-lane branch of `update`. */
    predicate Proceeds(light: PairedLight.TrafficLight)
      reads this`x, this`y, this`vehicleList, vehicleList`x, vehicleList`y, light
    {
      PassedLight() || InIntersectionZone() || (light.IsGreen() && !IntersectionBlocked()) || DistanceToLight() > STOP_DISTANCE
    }

    /**
     * `update`.  The light is only read: the call to `request_green` sits in a
     * branch that needs a green light with a clear intersection, which the
     * enclosing condition has already excluded, so it never runs.
     */
    method Update(light: PairedLight.TrafficLight)
      modifies this`inIntersection, this`isClose, this`speed, this`x, this`y
      ensures inIntersection == old(InIntersectionZone())
      ensures isClose == old(SomeVehicleAhead())
      ensures speed == NextSpeed(old(speed), old(isClose), isClose, old(Proceeds(light)))
      ensures direction == Horizontal ==> x == old(x) + speed && y == old(y)
      ensures direction == Vertical ==> y == old(y) - speed && x == old(x)
      ensures old(SpeedInRange()) ==> SpeedInRange()
      ensures old(SpeedInRange()) ==> x >= old(x) && y <= old(y)
    {
      ghost var proceeds := Proceeds(light);
      var passedLight := PassedLight();
      var distanceToLight := DistanceToLight();
      var inZone := InIntersectionZone();
      var wasClose := isClose;
      var close := FindVehicleAhead();
      var intersectionBlocked := FindVehicleInIntersection();
      assert proceeds <==> passedLight || inZone || (light.IsGreen() && !intersectionBlocked) || distanceToLight > STOP_DISTANCE;
      var s := AdjustSpeed(speed, wasClose, close, passedLight, inZone, light.IsGreen(), intersectionBlocked, distanceToLight);
      inIntersection, isClose, speed := inZone, close, s;
      if direction == Horizontal {
        x := x + speed;
      } else {
        y := y - speed;
      }
    }
  }
}
