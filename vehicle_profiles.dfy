/**
 * The profiled pygame vehicles (m3/vehicle.py): one base class whose four
 * subclasses set the size and the speed characteristics.  Each frame a
 * vehicle brakes for a light that is not GREEN when it approaches the
 * intersection, keeps its distance to the vehicle ahead, and otherwise
 * accelerates up to its maximum; horizontal vehicles move right, the others up.
 */
module VehicleProfiles {
  import opened Kinematics
  import opened Geometry
  import PairedLight

  /** `RegularVehicle`, `FastVehicle`, `SlowVehicle`, `CompactVehicle`. */
  datatype Profile = Regular | Fast | Slow | Compact

  /** What `_init_characteristics` sets (the colour is left out). */
  datatype Characteristics = Characteristics(
    width: real, height: real, speed: real, maxSpeed: real, acceleration: real, deceleration: real)

  function ProfileOf(p: Profile): (c: Characteristics)
    ensures c.speed == c.maxSpeed
    ensures c.width > 0.0 && c.height > c.width
    ensures c.maxSpeed > 0.0 && c.acceleration > 0.0 && c.deceleration > 0.0
  {
    match p
    case Regular => Characteristics(20.0, 40.0, 2.0, 2.0, 0.1, 0.2)
    case Fast => Characteristics(20.0, 45.0, 3.0, 3.0, 0.15, 0.25)
    case Slow => Characteristics(25.0, 50.0, 1.5, 1.5, 0.08, 0.15)
    case Compact => Characteristics(15.0, 35.0, 2.5, 2.5, 0.12, 0.22)
  }

  /** `buffer` of `is_approaching_intersection` and `safe_distance` of `is_vehicle_ahead`. */
  const APPROACH_BUFFER: real := 100.0
  const SAFE_DISTANCE: real := 60.0

  /**
   * The speed after one `update` from `s`: approaching a light that is not
   * GREEN brakes; approaching a GREEN light accelerates only with a free
   * lane and otherwise keeps the speed; away from the intersection a vehicle
   * ahead brakes and a free lane accelerates.
   */
  function NextSpeed(maxSpeed: real, acceleration: real, deceleration: real,
                     s: real, approaching: bool, green: bool, ahead: bool): (r: real)
    ensures approaching && !green ==> r == Brake(s, deceleration)
    ensures approaching && green && !ahead ==> r == Accelerate(s, acceleration, maxSpeed)
    ensures approaching && green && ahead ==> r == s
    ensures !approaching && ahead ==> r == Brake(s, deceleration)
    ensures !approaching && !ahead ==> r == Accelerate(s, acceleration, maxSpeed)
    ensures acceleration >= 0.0 && deceleration >= 0.0 && 0.0 <= s <= maxSpeed ==> 0.0 <= r <= maxSpeed
  {
    if approaching then
      if !green then Brake(s, deceleration)
      else if !ahead then Accelerate(s, acceleration, maxSpeed)
      else s
    else
      if ahead then Brake(s, deceleration) else Accelerate(s, acceleration, maxSpeed)
  }

  class VehicleBase {
    var x: real
    var y: real
    const direction: Orientation
    /** `vehicle_list`, as the sequence of vehicles it holds. */
    var vehicleList: seq<VehicleBase>
    const roadWidth: real
    const state: string := "DRIVING"
    const profile: Profile
    const width: real
    const height: real
    var speed: real
    const maxSpeed: real
    const acceleration: real
    const deceleration: real

    /**
     * `__init__` of the subclass for `profile`: its characteristics, with
     * width and height swapped for a horizontal vehicle.
     */
    constructor (x: real, y: real, direction: Orientation, vehicleList: seq<VehicleBase>, roadWidth: real, profile: Profile)
      ensures this.x == x && this.y == y && this.direction == direction
      ensures this.vehicleList == vehicleList && this.roadWidth == roadWidth && this.profile == profile
      ensures direction == Horizontal ==> width == ProfileOf(profile).height && height == ProfileOf(profile).width
      ensures direction == Vertical ==> width == ProfileOf(profile).width && height == ProfileOf(profile).height
      ensures speed == maxSpeed == ProfileOf(profile).maxSpeed
      ensures acceleration == ProfileOf(profile).acceleration && deceleration == ProfileOf(profile).deceleration
    {
      this.x, this.y := x, y;
      this.direction := direction;
      this.vehicleList := vehicleList;
      this.roadWidth := roadWidth;
      this.profile := profile;
      var c := ProfileOf(profile);
      if direction == Horizontal {
        width, height := c.height, c.width;
      } else {
        width, height := c.width, c.height;
      }
      speed, maxSpeed, acceleration, deceleration := c.speed, c.maxSpeed, c.acceleration, c.deceleration;
    }

    predicate SpeedInRange()
      reads this`speed
    {
      0.0 <= speed <= maxSpeed
    }

    /** `is_approaching_intersection`: the vehicle's front is less than 100 pixels before `pos`. */
    predicate IsApproachingIntersection(pos: real)
      reads this`x, this`y
    {
      if direction == Horizontal then 0.0 < pos - (x + width) < APPROACH_BUFFER
      else 0.0 < y - pos < APPROACH_BUFFER
    }

    /** `other` moves the same way and is less than 60 pixels ahead, overlapping this vehicle's lane. */
    predicate Ahead(other: VehicleBase)
      reads this`x, this`y, other`x, other`y
    {
      && other != this
      && other.direction == direction
      && (direction == Horizontal ==> 0.0 < other.x - (x + width) < SAFE_DISTANCE && Abs(y - other.y) < height)
      && (direction == Vertical ==> 0.0 < (y - height) - other.y < SAFE_DISTANCE && Abs(x - other.x) < width)
    }

    predicate SomeVehicleAhead()
      reads this`x, this`y, this`vehicleList, vehicleList`x, vehicleList`y
    {
      exists i :: 0 <= i < |vehicleList| && Ahead(vehicleList[i])
    }

    /** `is_vehicle_ahead`: an early-return scan that skips this vehicle and those on the other axis. */
    method IsVehicleAhead() returns (found: bool)
      ensures found <==> SomeVehicleAhead()
    {
      var i := 0;
      while i < |vehicleList|
        invariant 0 <= i <= |vehicleList|
        invariant forall j :: 0 <= j < i ==> !Ahead(vehicleList[j])
      {
        var other := vehicleList[i];
        if other != this {
          if direction == Horizontal {
            if other.direction == Horizontal {
              if 0.0 < other.x - (x + width) < SAFE_DISTANCE && Abs(y - other.y) < height {
                return true;
              }
            }
          } else {
            if other.direction == Vertical {
              if 0.0 < (y - height) - other.y < SAFE_DISTANCE && Abs(x - other.x) < width {
                return true;
              }
            }
          }
        }
        i := i + 1;
      }
      return false;
    }

    /** `update`: one speed adjustment, then one move by the new speed. */
    method Update(light: PairedLight.TrafficLight, intersectionPos: real)
      modifies this`speed, this`x, this`y
      ensures speed == NextSpeed(maxSpeed, acceleration, deceleration, old(speed), old(IsApproachingIntersection(intersectionPos)),
                                 light.state == PairedLight.Green, old(SomeVehicleAhead()))
      ensures direction == Horizontal ==> x == old(x) + speed && y == old(y)
      ensures direction == Vertical ==> y == old(y) - speed && x == old(x)
    {
      if IsApproachingIntersection(intersectionPos) {
        if !(light.state == PairedLight.Green) {
          speed := Brake(speed, deceleration);
        } else {
          var ahead := IsVehicleAhead();
          if !ahead {
            speed := Accelerate(speed, acceleration, maxSpeed);
          }
        }
      } else {
        var ahead := IsVehicleAhead();
        if ahead {
          speed := Brake(speed, deceleration);
        } else {
          speed := Accelerate(speed, acceleration, maxSpeed);
        }
      }
      if direction == Horizontal {
        x := x + speed;
      } else {
        y := y - speed;
      }
    }
  }

  /** Every profile starts at its top speed, and an update keeps any speed in `[0, max_speed]` there. */
  lemma ProfileSpeedStaysInRange(p: Profile, s: real, approaching: bool, green: bool, ahead: bool)
    requires 0.0 <= s <= ProfileOf(p).maxSpeed
    ensures var c := ProfileOf(p);
            0.0 <= NextSpeed(c.maxSpeed, c.acceleration, c.deceleration, s, approaching, green, ahead) <= c.maxSpeed
    ensures 0.0 <= ProfileOf(p).speed <= ProfileOf(p).maxSpeed
  {
  }
}
