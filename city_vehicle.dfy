/**
 * The vehicle agent of the 3-D city (act_integ/models/agents.py): a waypoint
 * follower that stops in front of its assigned light while it is red, unless it
 * is already committed to crossing the intersection.
 */
module CityVehicle {
  import opened Geometry
  import GeometryLemmas
  import CycleLight

  datatype Heading = N | S | E | W

  predicate IsVertical(h: Heading) { h == N || h == S }

  /** The constant speed every city vehicle drives at. */
  const SPEED: real := 0.5
  /** A light is assigned when the vehicle is within this distance of it along its axis. */
  const ASSIGN_RANGE: real := 15.0
  /** A red assigned light stops the vehicle within this distance along its axis. */
  const STOP_RANGE: real := 5.0

  /** `assign_spawn_point`: the start position of each heading. */
  function SpawnPosition(h: Heading): Vec3 {
    match h
    case N => Vec3(63.0, 0.0, 135.0)
    case S => Vec3(-57.0, 0.0, -135.0)
    case E => Vec3(-140.0, 0.0, 5.0)
    case W => Vec3(140.0, 0.0, -10.0)
  }

  /** `assign_spawn_point`: the rotation of each heading, in degrees. */
  function SpawnRotation(h: Heading): real {
    match h
    case N => 180.0
    case S => 0.0
    case E => 90.0
    case W => 270.0
  }

  /** `calculate_vertical_path`: target z is `-z`, and the waypoint stores `-target_z`. Both headings agree. */
  function VerticalPath(p: Vec3): (path: seq<Vec3>)
    ensures |path| == 1 && path[0].x == p.x && path[0].z == p.z && path[0].y == 0.0
  {
    var targetZ := -p.z;
    [Vec3(p.x, 0.0, -targetZ)]
  }

  /** `calculate_horizontal_path`: one waypoint mirrored in x. Both headings agree. */
  function HorizontalPath(p: Vec3): (path: seq<Vec3>)
    ensures |path| == 1 && path[0].x == -p.x && path[0].z == p.z && path[0].y == 0.0
  {
    var targetX := -p.x;
    [Vec3(targetX, 0.0, p.z)]
  }

  /** `calculate_path`. */
  function InitialPath(h: Heading, p: Vec3): seq<Vec3> {
    if IsVertical(h) then VerticalPath(p) else HorizontalPath(p)
  }

  /** The light-assignment test of `check_traffic_light`, lines 92-103. */
  predicate Eligible(light: CycleLight.TrafficLight, h: Heading, p: Vec3)
    reads light
  {
    || (IsVertical(h) && light.controlsDirection == CycleLight.NS && Abs(p.z - light.z) < ASSIGN_RANGE)
    || (!IsVertical(h) && light.controlsDirection == CycleLight.EW && Abs(p.x - light.x) < ASSIGN_RANGE)
  }

  /** Distance to a light along the vehicle's axis of travel. */
  function AxisDistance(light: CycleLight.TrafficLight, h: Heading, p: Vec3): real
    reads light
  {
    if !IsVertical(h) then Abs(p.x - light.x) else Abs(p.z - light.z)
  }

  /** A red (or yellow) light close ahead stops the vehicle. */
  predicate StopsAt(light: CycleLight.TrafficLight, h: Heading, p: Vec3)
    reads light
  {
    AxisDistance(light, h, p) < STOP_RANGE && light.IsRed()
  }

  /** `light` is the first light in `lights` that is eligible for a vehicle heading `h` at `p`. */
  predicate IsFirstEligible(lights: seq<CycleLight.TrafficLight>, light: CycleLight.TrafficLight, h: Heading, p: Vec3)
    reads lights
  {
    exists i :: 0 <= i < |lights| && lights[i] == light && Eligible(lights[i], h, p)
                && forall j :: 0 <= j < i ==> !Eligible(lights[j], h, p)
  }

  /** `(mx, mz)` is the normalised step from `p` toward the head of `path`, when `move` would step. */
  predicate StepFitsAt(p: Vec3, path: seq<Vec3>, mx: real, mz: real) {
    path != [] && GroundDistSq(p, path[0]) >= SPEED * SPEED ==> IsSpeedStep(p, path[0], SPEED, mx, mz)
  }

  /** The fields of a vehicle that one `move` may change. */
  datatype Motion = Motion(position: Vec3, path: seq<Vec3>, crossing: bool, waiting: bool, light: LightRef)

  type LightRef = CycleLight.TrafficLight?

  class VehicleAgent {
    const speed: real := SPEED
    var position: Vec3
    const direction: Heading
    const lane: int
    var path: seq<Vec3>
    var waitingAtLight: bool
    var crossingIntersection: bool
    var rotation: real
    var assignedLight: CycleLight.TrafficLight?

    /**
     * `setup`: the random spawn heading and lane are parameters; the position,
     * rotation and path follow from them.
     */
    constructor (h: Heading, lane: int)
      requires lane == 0 || lane == 1
      ensures direction == h && this.lane == lane
      ensures position == SpawnPosition(h) && rotation == SpawnRotation(h)
      ensures path == InitialPath(h, SpawnPosition(h))
      ensures !waitingAtLight && !crossingIntersection && assignedLight == null
    {
      direction := h;
      this.lane := lane;
      position := SpawnPosition(h);
      rotation := SpawnRotation(h);
      path := InitialPath(h, SpawnPosition(h));
      waitingAtLight := false;
      crossingIntersection := false;
      assignedLight := null;
    }

    /**
     * `check_traffic_light`: assigns the first eligible light once and for all,
     * then asks to stop exactly when that light is red and close, unless the
     * vehicle is already crossing.
     */
    method CheckTrafficLight(lights: seq<CycleLight.TrafficLight>) returns (stop: bool)
      modifies this`assignedLight, this`waitingAtLight
      ensures old(assignedLight) != null ==> assignedLight == old(assignedLight)
      ensures old(assignedLight) == null && assignedLight != null ==> IsFirstEligible(lights, assignedLight, direction, position)
      ensures old(assignedLight) == null && assignedLight == null ==>
                forall i :: 0 <= i < |lights| ==> !Eligible(lights[i], direction, position)
      ensures assignedLight == null || crossingIntersection ==> !stop && waitingAtLight == old(waitingAtLight)
      ensures assignedLight != null && !crossingIntersection ==>
                stop == StopsAt(assignedLight, direction, position) && waitingAtLight == stop
    {
      if assignedLight == null {
        var i := 0;
        while i < |lights|
          invariant 0 <= i <= |lights|
          invariant assignedLight == null
          invariant forall j :: 0 <= j < i ==> !Eligible(lights[j], direction, position)
        {
          if Eligible(lights[i], direction, position) {
            assignedLight := lights[i];
            break;
          }
          i := i + 1;
        }
      }
      if assignedLight == null {
        return false;
      }
      if crossingIntersection {
        return false;
      }
      var distanceToLight := AxisDistance(assignedLight, direction, position);
      if distanceToLight < STOP_RANGE && assignedLight.IsRed() {
        waitingAtLight := true;
        return true;
      }
      waitingAtLight := false;
      return false;
    }

    /**
     * `(mx, mz)` is the normalised step of the source whenever `move` would take
     * a step rather than snap to its waypoint.
     */
    predicate StepFits(mx: real, mz: real)
      reads this
    {
      StepFitsAt(position, path, mx, mz)
    }

    /** The part of the vehicle that `move` may change. */
    function State(): Motion
      reads this
    {
      Motion(position, path, crossingIntersection, waitingAtLight, assignedLight)
    }

    /**
     * The effect of one `move` from the state `s`; the lights are read in the
     * current state, so they are the lights as the vehicle saw them.
     */
    predicate MovedFrom(s: Motion, lights: seq<CycleLight.TrafficLight>, mx: real, mz: real)
      reads this, lights, assignedLight
    {
      && (s.crossing ==> assignedLight == s.light && waitingAtLight == s.waiting)
      && (!s.crossing && s.light != null ==> assignedLight == s.light)
      && (!s.crossing && s.light == null && assignedLight != null ==>
            IsFirstEligible(lights, assignedLight, direction, s.position))
      && (!s.crossing && s.light == null && assignedLight == null ==>
            waitingAtLight == s.waiting
            && forall i :: 0 <= i < |lights| ==> !Eligible(lights[i], direction, s.position))
      && (!s.crossing && assignedLight != null ==>
            waitingAtLight == StopsAt(assignedLight, direction, s.position))
      && var stopped := !s.crossing && assignedLight != null && StopsAt(assignedLight, direction, s.position);
         && (stopped || s.path == [] ==>
               position == s.position && path == s.path && crossingIntersection == s.crossing)
         && (!stopped && s.path != [] && GroundDistSq(s.position, s.path[0]) < speed * speed ==>
               && position == s.path[0] && path == s.path[1..]
               && crossingIntersection == (|path| != 1 && (s.crossing || |s.path| == 2)))
         && (!stopped && s.path != [] && GroundDistSq(s.position, s.path[0]) >= speed * speed ==>
               && position == Vec3(s.position.x + mx, s.position.y, s.position.z + mz)
               && path == s.path
               && crossingIntersection == (s.crossing || |s.path| == 2))
    }


    /**
     * `move`.  A vehicle that is not crossing first consults its light; when told
     * to stop, or when its path is empty, position, path and latch stay as they
     * are.  Otherwise the latch is set when two waypoints remain; within one
     * `speed` of the waypoint the vehicle snaps to it and pops it (clearing the
     * latch when one waypoint is left), else it advances by the step `(mx, mz)`,
     * which the caller supplies as the exact normalised step of the source.
     */
    method Move(lights: seq<CycleLight.TrafficLight>, mx: real, mz: real)
      requires StepFits(mx, mz)
      modifies this`assignedLight, this`waitingAtLight, this`position, this`path, this`crossingIntersection
      ensures MovedFrom(old(State()), lights, mx, mz)
    {
      if !crossingIntersection {
        var stop := CheckTrafficLight(lights);
        if stop {
          return;
        }
      }
      if path == [] {
        return;
      }
      var target := path[0];
      if |path| == 2 && !crossingIntersection {
        crossingIntersection := true;
      }
      if GroundDistSq(position, target) < speed * speed {
        position := target;
        path := path[1..];
        if |path| == 1 {
          crossingIntersection := false;
        }
      } else {
        position := Vec3(position.x + mx, position.y, position.z + mz);
      }
    }
  }

  /**
   * As written, a north- or south-bound vehicle's only waypoint is its own spawn
   * point: its first unblocked move snaps to it and empties the path.
   */
  lemma VerticalVehicleArrivesAtOnce(h: Heading)
    requires IsVertical(h)
    ensures var p := SpawnPosition(h);
            var path := InitialPath(h, p);
            GroundDistSq(p, path[0]) == 0.0 && GroundDistSq(p, path[0]) < SPEED * SPEED
  {
  }

  /**
   * A vehicle off the intersection, one waypoint from the end and within one
   * `speed` of it, that its light does not stop, snaps to that waypoint,
   * empties its path and leaves the latch clear.
   */
  lemma SnapsToLastWaypoint(v: VehicleAgent, s: Motion, lights: seq<CycleLight.TrafficLight>, mx: real, mz: real)
    requires v.MovedFrom(s, lights, mx, mz)
    requires !s.crossing && |s.path| == 1 && GroundDistSq(s.position, s.path[0]) < SPEED * SPEED
    requires v.assignedLight == null || !StopsAt(v.assignedLight, v.direction, s.position)
    ensures v.position == s.path[0] && v.path == [] && !v.crossingIntersection
  {
  }

  /**
   * A move never takes a vehicle away from the head of its path: stopped it
   * stays put, within one `speed` it lands on the waypoint, and otherwise its
   * step brings it at least `speed * speed` closer in squared ground distance.
   */
  lemma MoveApproachesWaypoint(v: VehicleAgent, s: Motion, lights: seq<CycleLight.TrafficLight>, mx: real, mz: real)
    requires v.MovedFrom(s, lights, mx, mz) && StepFitsAt(s.position, s.path, mx, mz) && s.path != []
    ensures v.path == s.path ==> GroundDistSq(v.position, v.path[0]) <= GroundDistSq(s.position, s.path[0])
    ensures v.path == s.path && v.position != s.position ==>
              GroundDistSq(v.position, v.path[0]) <= GroundDistSq(s.position, s.path[0]) - SPEED * SPEED
    ensures v.path != s.path ==> v.position == s.path[0] && v.path == s.path[1..]
  {
    if GroundDistSq(s.position, s.path[0]) >= SPEED * SPEED {
      GeometryLemmas.SpeedStepApproaches(s.position, s.path[0], SPEED, mx, mz);
    }
  }

  /** East- and west-bound vehicles cross the whole map: 280 units to their only waypoint. */
  lemma HorizontalVehicleCrossesMap(h: Heading)
    requires !IsVertical(h)
    ensures var p := SpawnPosition(h);
            var path := InitialPath(h, p);
            path[0].z == p.z && Abs(path[0].x - p.x) == 280.0
  {
  }

  /** The exact first step of a freshly spawned horizontal vehicle: half a unit along x, toward its waypoint. */
  lemma HorizontalSpawnStep(h: Heading)
    requires !IsVertical(h)
    ensures var p := SpawnPosition(h);
            IsSpeedStep(p, InitialPath(h, p)[0], SPEED, if h == E then SPEED else -SPEED, 0.0)
  {
  }
}
