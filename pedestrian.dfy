/**
 * The pedestrians of the 3-D city (act_integ/models/pedestrian.py): a sidewalk
 * path of waypoints built from the spawn point, and a `move` gated by the light
 * at a crosswalk, by personality and by vehicles close to a road crossing.
 * The personality, the spawn point and the impulsive random draw are
 * parameters; the normalised step toward the waypoint is supplied by the caller.
 */
module Pedestrian {
  import opened Wrappers
  import opened Geometry
  import GeometryLemmas
  import CycleLight
  import CityVehicle

  type Heading = CityVehicle.Heading

  datatype Personality = Patient | Aggressive | Impulsive

  /** `self.speed`. */
  const WALK_SPEED: real := 0.3

  /** `safe_distance` of `_is_vehicle_too_close`, and its square. */
  const SAFE_DISTANCE: real := 30.0
  const SAFE_DISTANCE_SQ: real := 900.0

  /** The spawn zones of `assign_spawn_point`: the sidewalk ends of the two vertical roads and of the horizontal road. */
  predicate InSpawnZone(h: Heading, p: Vec3) {
    p.y == 0.0 &&
    match h
    case N => p.z == -140.0 && ((-90.0 <= p.x <= -50.0) || (50.0 <= p.x <= 90.0))
    case S => p.z == 140.0 && ((-90.0 <= p.x <= -50.0) || (50.0 <= p.x <= 90.0))
    case E => p.x == -140.0 && -20.0 <= p.z <= 20.0
    case W => p.x == 140.0 && -20.0 <= p.z <= 20.0
  }

  /**
   * `target_x` of `calculate_vertical_path`: the west sidewalk of the road the
   * pedestrian stands on when heading north, the east one otherwise.
   */
  function TargetX(cx: real, h: Heading): (tx: real)
    ensures tx == -95.0 || tx == -45.0 || tx == 45.0 || tx == 95.0
    ensures (-90.0 <= cx <= -50.0) <==> tx < 0.0
    ensures (h == CityVehicle.N) <==> (tx == -95.0 || tx == 45.0)
  {
    if -90.0 <= cx <= -50.0 then
      (if h == CityVehicle.N then -95.0 else -45.0)
    else
      (if h == CityVehicle.N then 45.0 else 95.0)
  }

  /** `target_z` of `calculate_horizontal_path`: the north sidewalk heading east, the south one otherwise. */
  function TargetZ(h: Heading): (tz: real)
    ensures tz == 25.0 || tz == -25.0
    ensures (tz == 25.0) <==> (h == CityVehicle.E)
  {
    if h == CityVehicle.E then 25.0 else -25.0
  }

  /** The four crosswalk points, along z, that a vertical path passes when it has a crossing ahead. */
  function VerticalCrossing(tx: real, h: Heading): seq<Vec3> {
    if h == CityVehicle.N then
      [Vec3(tx, 0.0, -25.0), Vec3(tx, 0.0, -22.0), Vec3(tx, 0.0, 22.0), Vec3(tx, 0.0, 25.0)]
    else
      [Vec3(tx, 0.0, 25.0), Vec3(tx, 0.0, 22.0), Vec3(tx, 0.0, -22.0), Vec3(tx, 0.0, -25.0)]
  }

  /** The four crosswalk points, along x, that a horizontal path passes; empty when no intersection is ahead. */
  function HorizontalCrossing(cx: real, tz: real, h: Heading): seq<Vec3> {
    if h == CityVehicle.E then
      if cx < -50.0 then [Vec3(-90.0, 0.0, tz), Vec3(-87.0, 0.0, tz), Vec3(-53.0, 0.0, tz), Vec3(-50.0, 0.0, tz)]
      else if cx < 50.0 then [Vec3(50.0, 0.0, tz), Vec3(53.0, 0.0, tz), Vec3(87.0, 0.0, tz), Vec3(90.0, 0.0, tz)]
      else []
    else
      if cx > 50.0 then [Vec3(90.0, 0.0, tz), Vec3(87.0, 0.0, tz), Vec3(53.0, 0.0, tz), Vec3(50.0, 0.0, tz)]
      else if cx > -50.0 then [Vec3(-50.0, 0.0, tz), Vec3(-53.0, 0.0, tz), Vec3(-87.0, 0.0, tz), Vec3(-90.0, 0.0, tz)]
      else []
  }

  /**
   * The waypoints of `calculate_vertical_path` from `p`: an optional step onto
   * the sidewalk, the crosswalk points when a crossing lies ahead, and the far
   * end of the road.  Every waypoint lies on the sidewalk column `TargetX`.
   */
  function VerticalPath(p: Vec3, h: Heading): (path: seq<Vec3>)
    ensures 1 <= |path| <= 6
    ensures forall i :: 0 <= i < |path| ==> path[i].x == TargetX(p.x, h) && path[i].y == 0.0
    ensures path[|path| - 1].z == -p.z
    ensures (Abs(p.x - TargetX(p.x, h)) > 0.5) <==> (path[0] == Vec3(TargetX(p.x, h), 0.0, p.z) && |path| % 2 == 0)
  {
    var tx := TargetX(p.x, h);
    var approach := if Abs(p.x - tx) > 0.5 then [Vec3(tx, 0.0, p.z)] else [];
    var ahead := if h == CityVehicle.N then p.z < -25.0 else p.z > 25.0;
    var crossing := if ahead then VerticalCrossing(tx, h) else [];
    approach + crossing + [Vec3(tx, 0.0, -p.z)]
  }

  /**
   * The waypoints of `calculate_horizontal_path` from `p`: an optional step onto
   * the sidewalk row `TargetZ`, the crosswalk points of the next intersection
   * ahead, and the mirrored end `-x`.
   */
  function HorizontalPath(p: Vec3, h: Heading): (path: seq<Vec3>)
    ensures 1 <= |path| <= 6
    ensures forall i :: 0 <= i < |path| ==> path[i].z == TargetZ(h) && path[i].y == 0.0
    ensures path[|path| - 1].x == -p.x
    ensures (Abs(p.z - TargetZ(h)) > 0.5) <==> (path[0] == Vec3(p.x, 0.0, TargetZ(h)) && |path| % 2 == 0)
  {
    var tz := TargetZ(h);
    var approach := if Abs(p.z - tz) > 0.5 then [Vec3(p.x, 0.0, tz)] else [];
    approach + HorizontalCrossing(p.x, tz, h) + [Vec3(-p.x, 0.0, tz)]
  }

  /** `calculate_path`. */
  function InitialPath(p: Vec3, h: Heading): seq<Vec3> {
    if CityVehicle.IsVertical(h) then VerticalPath(p, h) else HorizontalPath(p, h)
  }

  /** `_is_at_crosswalk`. */
  predicate AtCrosswalk(p: Vec3) {
    || (20.0 <= Abs(p.z) <= 25.0 && ((-90.0 <= p.x <= -50.0) || (50.0 <= p.x <= 90.0)))
    || (-25.0 <= p.z <= 25.0 &&
        ((-90.0 <= p.x <= -85.0) || (-55.0 <= p.x <= -50.0) || (50.0 <= p.x <= 55.0) || (85.0 <= p.x <= 90.0)))
  }

  /** `_is_crossing_road`. */
  predicate CrossingRoad(p: Vec3) {
    || (-20.0 <= p.z <= 20.0 && ((-87.0 <= p.x <= -53.0) || (53.0 <= p.x <= 87.0)))
    || (((-90.0 <= p.x <= -50.0) || (50.0 <= p.x <= 90.0)) && -22.0 <= p.z <= 22.0)
  }

  /** On one of the two vertical roads, where the north-south lights are consulted. */
  predicate OnVerticalRoad(x: real) {
    (-90.0 <= x <= -50.0) || (50.0 <= x <= 90.0)
  }

  /** `light` governs `axis` and stands close enough to `(x, z)` in the box that `_get_relevant_traffic_light` uses for that axis. */
  predicate NearLight(light: CycleLight.TrafficLight, axis: CycleLight.Axis, x: real, z: real)
    reads light
  {
    && light.controlsDirection == axis
    && (axis == CycleLight.NS ==> Abs(x - light.x) < 20.0 && Abs(z - light.z) < 30.0)
    && (axis == CycleLight.EW ==> Abs(x - light.x) < 30.0 && Abs(z - light.z) < 20.0)
  }

  /** The index of the first light from `from` on that is near for `axis`, or -1 when there is none. */
  function FirstNear(lights: seq<CycleLight.TrafficLight>, from: nat, axis: CycleLight.Axis, x: real, z: real): (k: int)
    reads lights
    requires from <= |lights|
    ensures k == -1 || from <= k < |lights|
    ensures k != -1 ==> NearLight(lights[k], axis, x, z)
    ensures forall j :: from <= j < |lights| && (k == -1 || j < k) ==> !NearLight(lights[j], axis, x, z)
    decreases |lights| - from
  {
    if from == |lights| then -1
    else if NearLight(lights[from], axis, x, z) then from
    else FirstNear(lights, from + 1, axis, x, z)
  }

  /**
   * The index of the light `_get_relevant_traffic_light` returns for a
   * pedestrian at `p`, or -1 for `None`: on a vertical road the first near
   * NS light, failing that (within the horizontal road band) the first near
   * EW light.
   */
  function RelevantLight(lights: seq<CycleLight.TrafficLight>, p: Vec3): (k: int)
    reads lights
    ensures k == -1 || 0 <= k < |lights|
    ensures k != -1 && lights[k].controlsDirection == CycleLight.NS ==>
              OnVerticalRoad(p.x) && NearLight(lights[k], CycleLight.NS, p.x, p.z)
    ensures k != -1 && lights[k].controlsDirection == CycleLight.EW ==>
              -25.0 <= p.z <= 25.0 && NearLight(lights[k], CycleLight.EW, p.x, p.z)
    ensures OnVerticalRoad(p.x) && (exists j :: 0 <= j < |lights| && NearLight(lights[j], CycleLight.NS, p.x, p.z)) ==>
              k != -1 && lights[k].controlsDirection == CycleLight.NS
    ensures k == -1 <==>
              && (!OnVerticalRoad(p.x) || forall j :: 0 <= j < |lights| ==> !NearLight(lights[j], CycleLight.NS, p.x, p.z))
              && (!(-25.0 <= p.z <= 25.0) || forall j :: 0 <= j < |lights| ==> !NearLight(lights[j], CycleLight.EW, p.x, p.z))
  {
    var ns := if OnVerticalRoad(p.x) then FirstNear(lights, 0, CycleLight.NS, p.x, p.z) else -1;
    if ns != -1 then ns
    else if -25.0 <= p.z <= 25.0 then FirstNear(lights, 0, CycleLight.EW, p.x, p.z)
    else -1
  }

  /**
   * `_should_wait_at_crossing`, with `light` the light's `is_red()` when there
   * is a light, and `draw` the impulsive pedestrian's `random.random()`.
   */
  function ShouldWaitAtCrossing(personality: Personality, light: Option<bool>, draw: real): (wait: bool)
    ensures light.None? ==> (wait <==> personality == Patient)
    ensures light.Some? && personality == Aggressive ==> !wait
    ensures light.Some? && personality == Patient ==> (wait <==> !light.value)
    ensures light.Some? && personality == Impulsive ==> (wait <==> !light.value && draw > 0.3)
  {
    match light
    case None => personality == Patient
    case Some(safeToCross) =>
      match personality
      case Aggressive => false
      case Impulsive => if !safeToCross then draw > 0.3 else false
      case Patient => !safeToCross
  }

  /** Some vehicle is strictly closer than `SAFE_DISTANCE` to `p` in the ground plane. */
  predicate TooClose(vehicles: seq<CityVehicle.VehicleAgent>, p: Vec3)
    reads vehicles
  {
    exists i :: 0 <= i < |vehicles| && GroundDistSq(p, vehicles[i].position) < SAFE_DISTANCE_SQ
  }

  /** The normalised step for a pedestrian at `p` whenever `move` would step instead of snapping. */
  predicate WalkFitsAt(p: Vec3, path: seq<Vec3>, mx: real, mz: real) {
    path != [] && GroundDistSq(p, path[0]) >= WALK_SPEED * WALK_SPEED ==> IsSpeedStep(p, path[0], WALK_SPEED, mx, mz)
  }

  /** At a crosswalk, the relevant light and the personality (with the impulsive `draw`) make a pedestrian at `p` wait. */
  predicate LightHolds(lights: seq<CycleLight.TrafficLight>, personality: Personality, p: Vec3, draw: real)
    reads lights
  {
    AtCrosswalk(p) &&
    var k := RelevantLight(lights, p);
    k != -1 && ShouldWaitAtCrossing(personality, Some(lights[k].IsRed()), draw)
  }

  /** On a road crossing with a vehicle too close, a pedestrian at `p` waits. */
  predicate VehicleHolds(vehicles: seq<CityVehicle.VehicleAgent>, p: Vec3)
    reads vehicles
  {
    CrossingRoad(p) && TooClose(vehicles, p)
  }

  class PedestrianAgent {
    var position: Vec3
    const speed: real := WALK_SPEED
    const direction: Heading
    var path: seq<Vec3>
    var waitingToCross: bool
    const personality: Personality

    /** `setup`: the random heading, spawn point and personality are parameters; the path follows from them. */
    constructor (h: Heading, p: Vec3, personality: Personality)
      ensures direction == h && position == p && this.personality == personality
      ensures path == InitialPath(p, h) && !waitingToCross
    {
      direction := h;
      position := p;
      this.personality := personality;
      waitingToCross := false;
      path := [];
      new;
      CalculatePath();
    }

    /** `calculate_path`. */
    method CalculatePath()
      modifies this`path
      ensures path == InitialPath(position, direction)
    {
      if CityVehicle.IsVertical(direction) {
        CalculateVerticalPath();
      } else {
        CalculateHorizontalPath();
      }
    }

    /** `calculate_vertical_path`, appending the waypoints in order. */
    method CalculateVerticalPath()
      modifies this`path
      ensures path == VerticalPath(position, direction)
    {
      var currentX, currentZ := position.x, position.z;
      var targetX := TargetX(currentX, direction);
      var targetZ := -currentZ;
      path := [];
      if Abs(currentX - targetX) > 0.5 {
        path := path + [Vec3(targetX, 0.0, currentZ)];
      }
      if direction == CityVehicle.N {
        if currentZ < -25.0 {
          path := path + [Vec3(targetX, 0.0, -25.0), Vec3(targetX, 0.0, -22.0),
                           Vec3(targetX, 0.0, 22.0), Vec3(targetX, 0.0, 25.0)];
        }
        path := path + [Vec3(targetX, 0.0, targetZ)];
      } else {
        if currentZ > 25.0 {
          path := path + [Vec3(targetX, 0.0, 25.0), Vec3(targetX, 0.0, 22.0),
                           Vec3(targetX, 0.0, -22.0), Vec3(targetX, 0.0, -25.0)];
        }
        path := path + [Vec3(targetX, 0.0, targetZ)];
      }
    }

    /** `calculate_horizontal_path`, appending the waypoints in order. */
    method CalculateHorizontalPath()
      modifies this`path
      ensures path == HorizontalPath(position, direction)
    {
      var currentX, currentZ := position.x, position.z;
      var targetX := -currentX;
      var targetZ := TargetZ(direction);
      path := [];
      if Abs(currentZ - targetZ) > 0.5 {
        path := path + [Vec3(currentX, 0.0, targetZ)];
      }
      if direction == CityVehicle.E {
        if currentX < -50.0 {
          path := path + [Vec3(-90.0, 0.0, targetZ), Vec3(-87.0, 0.0, targetZ),
                           Vec3(-53.0, 0.0, targetZ), Vec3(-50.0, 0.0, targetZ)];
        } else if currentX < 50.0 {
          path := path + [Vec3(50.0, 0.0, targetZ), Vec3(53.0, 0.0, targetZ),
                           Vec3(87.0, 0.0, targetZ), Vec3(90.0, 0.0, targetZ)];
        }
      } else {
        if currentX > 50.0 {
          path := path + [Vec3(90.0, 0.0, targetZ), Vec3(87.0, 0.0, targetZ),
                           Vec3(53.0, 0.0, targetZ), Vec3(50.0, 0.0, targetZ)];
        } else if currentX > -50.0 {
          path := path + [Vec3(-50.0, 0.0, targetZ), Vec3(-53.0, 0.0, targetZ),
                           Vec3(-87.0, 0.0, targetZ), Vec3(-90.0, 0.0, targetZ)];
        }
      }
      path := path + [Vec3(targetX, 0.0, targetZ)];
    }

    /** `_is_vehicle_too_close`: the first vehicle within the safe distance ends the scan. */
    method IsVehicleTooClose(vehicles: seq<CityVehicle.VehicleAgent>) returns (close: bool)
      ensures close <==> TooClose(vehicles, position)
    {
      var i := 0;
      while i < |vehicles|
        invariant 0 <= i <= |vehicles|
        invariant forall j :: 0 <= j < i ==> GroundDistSq(position, vehicles[j].position) >= SAFE_DISTANCE_SQ
      {
        var dx := vehicles[i].position.x - position.x;
        var dz := vehicles[i].position.z - position.z;
        assert dx * dx + dz * dz == GroundDistSq(position, vehicles[i].position);
        if dx * dx + dz * dz < SAFE_DISTANCE_SQ {
          return true;
        }
        i := i + 1;
      }
      return false;
    }

    /** `_get_relevant_traffic_light`: two early-return scans, NS lights first. */
    method GetRelevantTrafficLight(lights: seq<CycleLight.TrafficLight>) returns (light: CycleLight.TrafficLight?)
      ensures var k := RelevantLight(lights, position);
              light == if k == -1 then null else lights[k]
    {
      var x, z := position.x, position.z;
      if OnVerticalRoad(x) {
        var i := 0;
        while i < |lights|
          invariant 0 <= i <= |lights|
          invariant FirstNear(lights, 0, CycleLight.NS, x, z) == FirstNear(lights, i, CycleLight.NS, x, z)
        {
          if NearLight(lights[i], CycleLight.NS, x, z) {
            return lights[i];
          }
          i := i + 1;
        }
      }
      if -25.0 <= z <= 25.0 {
        var i := 0;
        while i < |lights|
          invariant 0 <= i <= |lights|
          invariant FirstNear(lights, 0, CycleLight.EW, x, z) == FirstNear(lights, i, CycleLight.EW, x, z)
        {
          if NearLight(lights[i], CycleLight.EW, x, z) {
            return lights[i];
          }
          i := i + 1;
        }
      }
      return null;
    }

    /** `(mx, mz)` is the source's normalised step whenever `move` would step rather than snap. */
    predicate WalkFits(mx: real, mz: real)
      reads this
    {
      WalkFitsAt(position, path, mx, mz)
    }

    /**
     * `move`.  At a crosswalk with a relevant light, a pedestrian whose
     * personality (and, when impulsive, random `draw`) says wait starts waiting;
     * so does one crossing a road with a vehicle too close.  Waiting leaves
     * position and path as they were.  Otherwise the pedestrian snaps to its
     * waypoint within one `speed` and pops it, or steps by `(mx, mz)`.
     * Nothing ever clears `waiting_to_cross`.
     */
    method Move(lights: seq<CycleLight.TrafficLight>, vehicles: seq<CityVehicle.VehicleAgent>, draw: real, mx: real, mz: real)
      requires WalkFits(mx, mz)
      modifies this`position, this`path, this`waitingToCross
      ensures old(path) == [] ==> position == old(position) && path == old(path) && waitingToCross == old(waitingToCross)
      ensures old(path) != [] ==>
                var held := old(LightHolds(lights, personality, position, draw) || VehicleHolds(vehicles, position));
                && (held ==> waitingToCross && position == old(position) && path == old(path))
                && (!held ==> waitingToCross == old(waitingToCross))
                && (!held && GroundDistSq(old(position), old(path)[0]) < speed * speed ==>
                      position == old(path)[0] && path == old(path)[1..])
                && (!held && GroundDistSq(old(position), old(path)[0]) >= speed * speed ==>
                      position == Vec3(old(position).x + mx, old(position).y, old(position).z + mz) && path == old(path))
      // it never moves away from its waypoint, and a step brings it `speed * speed` closer
      ensures old(path) != [] && path == old(path) ==>
                && GroundDistSq(position, path[0]) <= GroundDistSq(old(position), old(path)[0])
                && (position != old(position) ==>
                      GroundDistSq(position, path[0]) <= GroundDistSq(old(position), old(path)[0]) - speed * speed)
    {
      if path == [] {
        return;
      }
      var target := path[0];
      ghost var lightHolds := LightHolds(lights, personality, position, draw);
      ghost var vehicleHolds := VehicleHolds(vehicles, position);
      if AtCrosswalk(position) {
        var light := GetRelevantTrafficLight(lights);
        if light != null {
          var red := light.IsRed();
          if ShouldWaitAtCrossing(personality, Some(red), draw) {
            assert lightHolds;
            waitingToCross := true;
            return;
          }
        }
      }
      assert !lightHolds;
      if CrossingRoad(position) {
        var close := IsVehicleTooClose(vehicles);
        if close {
          assert vehicleHolds;
          waitingToCross := true;
          return;
        }
      }
      assert !vehicleHolds;
      if GroundDistSq(position, target) < speed * speed {
        position := target;
        path := path[1..];
      } else {
        GeometryLemmas.SpeedStepApproaches(position, target, WALK_SPEED, mx, mz);
        position := Vec3(position.x + mx, position.y, position.z + mz);
      }
    }
  }

  /**
   * As written, a vertical walker's sidewalk column lies outside both vertical
   * roads: none of its waypoints is at a crosswalk or on a road crossing, so
   * the lights and the vehicles never hold it at a waypoint.
   */
  lemma VerticalWaypointsOffCrossings(h: Heading, p: Vec3)
    requires CityVehicle.IsVertical(h) && InSpawnZone(h, p)
    ensures forall i :: 0 <= i < |InitialPath(p, h)| ==>
              !AtCrosswalk(InitialPath(p, h)[i]) && !CrossingRoad(InitialPath(p, h)[i])
  {
    var path := InitialPath(p, h);
    var tx := TargetX(p.x, h);
    forall i | 0 <= i < |path|
      ensures !AtCrosswalk(path[i]) && !CrossingRoad(path[i])
    {
      assert path[i].x == tx;
    }
  }

  /**
   * A horizontal walker's waypoints all lie on the sidewalk row z = +-25:
   * never on a road crossing, so vehicles never hold it at a waypoint.
   */
  lemma HorizontalWaypointsOffRoad(h: Heading, p: Vec3)
    requires !CityVehicle.IsVertical(h) && InSpawnZone(h, p)
    ensures forall i :: 0 <= i < |InitialPath(p, h)| ==> !CrossingRoad(InitialPath(p, h)[i])
  {
    var path := InitialPath(p, h);
    forall i | 0 <= i < |path|
      ensures !CrossingRoad(path[i])
    {
      assert path[i].z == TargetZ(h);
    }
  }

  /**
   * From a spawn zone, both path builders take the sidewalk-approach step and
   * pass the four crosswalk points of one intersection: the path has 6 waypoints.
   */
  lemma SpawnPathHasSixWaypoints(h: Heading, p: Vec3)
    requires InSpawnZone(h, p)
    ensures |InitialPath(p, h)| == 6
  {
    if CityVehicle.IsVertical(h) {
      assert Abs(p.x - TargetX(p.x, h)) >= 5.0;
    } else {
      assert Abs(p.z - TargetZ(h)) >= 5.0;
    }
  }
}
