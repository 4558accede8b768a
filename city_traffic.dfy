/**
 * The tick of the 3-D city (act_integ/models/traffic_model.py): update every
 * light, maybe spawn one vehicle, move every vehicle, then drop the vehicles
 * whose path is used up.
 */
module CityTraffic {
  import opened Geometry
  import CycleLight
  import opened CityVehicle

  /** Lower and upper bound of the random spawn interval. */
  const MIN_SPAWN_INTERVAL: int := 120
  const MAX_SPAWN_INTERVAL: int := 300

  /** `r` occurs in `s` in order, possibly with gaps. */
  predicate IsSubsequence<T(==)>(r: seq<T>, s: seq<T>)
    decreases |s|
  {
    if r == [] then true
    else if s == [] then false
    else if r[0] == s[0] then IsSubsequence(r[1..], s[1..])
    else IsSubsequence(r, s[1..])
  }

  /** No element occurs twice. */
  predicate Distinct<T(==)>(s: seq<T>)
    decreases |s|
  {
    s == [] || (s[0] !in s[1..] && Distinct(s[1..]))
  }

  /** Two different positions of a `Distinct` sequence hold different elements. */
  lemma {:induction false} DistinctApart<T>(s: seq<T>, i: int, j: int)
    requires Distinct(s) && 0 <= i < |s| && 0 <= j < |s| && i != j
    ensures s[i] != s[j]
    decreases |s|
  {
    if i == 0 {
      assert s[j] == s[1..][j - 1];
    } else if j == 0 {
      assert s[i] == s[1..][i - 1];
    } else {
      DistinctApart(s[1..], i - 1, j - 1);
    }
  }

  /** The element at `i` occurs nowhere else. */
  lemma DistinctAt<T>(s: seq<T>, i: int)
    requires Distinct(s) && 0 <= i < |s|
    ensures forall j :: 0 <= j < |s| && j != i ==> s[j] != s[i]
  {
    forall j | 0 <= j < |s| && j != i {
      DistinctApart(s, j, i);
    }
  }

  lemma {:induction false} DistinctAppend<T>(s: seq<T>, x: T)
    requires Distinct(s) && x !in s
    ensures Distinct(s + [x])
    decreases |s|
  {
    if s != [] {
      assert (s + [x])[1..] == s[1..] + [x];
      DistinctAppend(s[1..], x);
    } else {
      assert [x][1..] == [];
    }
  }

  /** `[v for v in vehicles if v.path]`. */
  function Survivors(vs: seq<VehicleAgent>): (r: seq<VehicleAgent>)
    reads vs
    ensures forall v :: v in r ==> v in vs && v.path != []
    ensures forall v :: v in vs && v.path != [] ==> v in r
    ensures IsSubsequence(r, vs)
    ensures Distinct(vs) ==> Distinct(r)
    decreases |vs|
  {
    if vs == [] then []
    else
      var rest := Survivors(vs[1..]);
      assert forall v :: v in vs[1..] ==> v in vs;
      if vs[0].path != [] then [vs[0]] + rest else rest
  }

  /** The state and start time of every light, in order. */
  function LightStates(lights: seq<CycleLight.TrafficLight>): (r: seq<(CycleLight.LightState, real)>)
    reads lights
    ensures |r| == |lights| && forall k :: 0 <= k < |lights| ==> r[k] == (lights[k].currentState, lights[k].stateStartTime)
  {
    seq(|lights|, k reads lights requires 0 <= k < |lights| => (lights[k].currentState, lights[k].stateStartTime))
  }

  /** Every light went through one `update` at `now`. */
  predicate AllUpdatedAt(before: seq<(CycleLight.LightState, real)>, after: seq<(CycleLight.LightState, real)>, now: real) {
    |after| == |before| && forall k :: 0 <= k < |before| ==> CycleLight.UpdatedAt(before[k], after[k], now)
  }

  /** Update one light after the other, each at `now`. */
  method UpdateLights(lights: seq<CycleLight.TrafficLight>, now: real)
    requires Distinct(lights)
    modifies lights`currentState, lights`stateStartTime
    ensures AllUpdatedAt(old(LightStates(lights)), LightStates(lights), now)
  {
    ghost var before := LightStates(lights);
    var k := 0;
    while k < |lights|
      invariant 0 <= k <= |lights|
      invariant forall j :: 0 <= j < k ==>
                  CycleLight.UpdatedAt(before[j], (lights[j].currentState, lights[j].stateStartTime), now)
      invariant forall j :: k <= j < |lights| ==> unchanged(lights[j])
    {
      DistinctAt(lights, k);
      lights[k].Update(now);
      k := k + 1;
    }
  }

  /** `for vehicle in self.vehicles: vehicle.move(self.traffic_lights)`, each with its own step. */
  method MoveAll(vs: seq<VehicleAgent>, steps: seq<(real, real)>, lights: seq<CycleLight.TrafficLight>,
                 ghost before: seq<Motion>)
    requires Distinct(vs) && |steps| == |vs| && |before| <= |vs|
    requires forall i :: 0 <= i < |before| ==> before[i] == vs[i].State()
    requires forall i :: 0 <= i < |vs| ==> vs[i].StepFits(steps[i].0, steps[i].1)
    modifies vs`assignedLight, vs`waitingAtLight, vs`position, vs`path, vs`crossingIntersection
    ensures forall i :: 0 <= i < |before| ==> vs[i].MovedFrom(before[i], lights, steps[i].0, steps[i].1)
  {
    var i := 0;
    while i < |vs|
      invariant 0 <= i <= |vs|
      invariant forall j :: 0 <= j < i && j < |before| ==> vs[j].MovedFrom(before[j], lights, steps[j].0, steps[j].1)
      invariant forall j :: i <= j < |vs| ==> unchanged(vs[j])
    {
      DistinctAt(vs, i);
      vs[i].Move(lights, steps[i].0, steps[i].1);
      i := i + 1;
    }
  }

  /** The step the source's normalisation gives a freshly spawned vehicle. */
  function SpawnStep(h: Heading): (real, real) {
    match h
    case E => (SPEED, 0.0)
    case W => (-SPEED, 0.0)
    case _ => (0.0, 0.0)
  }

  /** The state of every vehicle, in order. */
  ghost function States(vs: seq<VehicleAgent>): (r: seq<Motion>)
    reads vs
    ensures |r| == |vs| && forall i :: 0 <= i < |vs| ==> r[i] == vs[i].State()
  {
    seq(|vs|, i reads vs requires 0 <= i < |vs| => vs[i].State())
  }

  /** The state `move` sees in a freshly spawned vehicle heading `h`: at its spawn point, on its initial path, with no light. */
  function SpawnMotion(h: Heading): Motion {
    var p := SpawnPosition(h);
    Motion(p, InitialPath(h, p), false, false, null)
  }

  /** The vehicle at `k` moved from `SpawnMotion(h)` by `SpawnStep(h)` when that was its recorded state and step. */
  lemma MovedFromSpawn(all: seq<VehicleAgent>, snapshot: seq<Motion>, allSteps: seq<(real, real)>, k: nat, h: Heading,
                       lights: seq<CycleLight.TrafficLight>)
    requires k < |snapshot| <= |all| && |allSteps| == |all|
    requires snapshot[k] == SpawnMotion(h) && allSteps[k] == SpawnStep(h)
    requires forall i :: 0 <= i < |snapshot| ==> all[i].MovedFrom(snapshot[i], lights, allSteps[i].0, allSteps[i].1)
    ensures all[k].MovedFrom(SpawnMotion(h), lights, SpawnStep(h).0, SpawnStep(h).1)
  {
    assert all[k].MovedFrom(snapshot[k], lights, allSteps[k].0, allSteps[k].1);
  }

  /** A freshly spawned vehicle's first move uses `SpawnStep`, or snaps without a step. */
  lemma SpawnStepFits(h: Heading)
    ensures StepFitsAt(SpawnPosition(h), InitialPath(h, SpawnPosition(h)), SpawnStep(h).0, SpawnStep(h).1)
  {
    var p := SpawnPosition(h);
    var path := InitialPath(h, p);
    if IsVertical(h) {
      VerticalVehicleArrivesAtOnce(h);
      assert !(GroundDistSq(p, path[0]) >= SPEED * SPEED);
    } else {
      HorizontalSpawnStep(h);
      assert SpawnStep(h) == (if h == E then SPEED else -SPEED, 0.0);
    }
  }

  /**
   * `VehicleAgent(self)` with the random heading and lane as parameters.  The
   * spawn state is stated under a trigger on `SpawnMotion`, so its concrete
   * coordinates only enter proofs that ask about them.
   */
  method Spawn(h: Heading, lane: int) returns (v: VehicleAgent)
    requires lane == 0 || lane == 1
    ensures fresh(v) && v.direction == h && v.lane == lane
    ensures forall g: Heading {:trigger SpawnMotion(g)} :: g == h ==> v.State() == SpawnMotion(g)
    ensures v.StepFits(SpawnStep(h).0, SpawnStep(h).1)
  {
    v := new VehicleAgent(h, lane);
    SpawnStepFits(h);
  }

  /** `all` is `vs`, followed, when `spawn` holds, by one vehicle heading `h` in lane `lane`. */
  predicate SpawnedAtEnd(vs: seq<VehicleAgent>, all: seq<VehicleAgent>, spawn: bool, h: Heading, lane: int) {
    if spawn then |all| == |vs| + 1 && all == vs + [all[|vs|]] && all[|vs|].direction == h && all[|vs|].lane == lane
    else all == vs
  }

  /** `vs + [v]` and `steps + [step]`: every vehicle still fits its step. */
  method Appended(vs: seq<VehicleAgent>, steps: seq<(real, real)>, v: VehicleAgent, step: (real, real))
    returns (all: seq<VehicleAgent>, allSteps: seq<(real, real)>)
    requires Distinct(vs) && v !in vs && |steps| == |vs|
    requires forall i :: 0 <= i < |vs| ==> vs[i].StepFits(steps[i].0, steps[i].1)
    requires v.StepFits(step.0, step.1)
    ensures all == vs + [v] && allSteps == steps + [step]
    ensures Distinct(all) && |allSteps| == |all|
    ensures forall i :: 0 <= i < |all| ==> all[i].StepFits(allSteps[i].0, allSteps[i].1)
  {
    DistinctAppend(vs, v);
    all, allSteps := vs + [v], steps + [step];
  }

  /** `vs` with one vehicle spawned at its end when `spawn` holds, and the steps to move them by. */
  method WithSpawn(vs: seq<VehicleAgent>, steps: seq<(real, real)>, spawn: bool, h: Heading, lane: int)
    returns (all: seq<VehicleAgent>, allSteps: seq<(real, real)>)
    requires lane == 0 || lane == 1
    requires Distinct(vs) && |steps| == |vs|
    requires forall i :: 0 <= i < |vs| ==> vs[i].StepFits(steps[i].0, steps[i].1)
    ensures Distinct(all) && |allSteps| == |all|
    ensures SpawnedAtEnd(vs, all, spawn, h, lane)
    ensures spawn ==> fresh(all[|vs|]) && allSteps[|vs|] == SpawnStep(h)
    ensures spawn ==> forall g: Heading {:trigger SpawnMotion(g)} :: g == h ==> all[|vs|].State() == SpawnMotion(g)
    ensures |vs| <= |allSteps| && allSteps[..|vs|] == steps
    ensures forall i :: 0 <= i < |all| ==> all[i].StepFits(allSteps[i].0, allSteps[i].1)
  {
    all, allSteps := vs, steps;
    if spawn {
      var v := Spawn(h, lane);
      all, allSteps := Appended(vs, steps, v, SpawnStep(h));
    }
  }

  class TrafficModel {
    var vehicles: seq<VehicleAgent>
    const trafficLights: seq<CycleLight.TrafficLight>
    var stepCount: int
    /** The vehicles moved in the last step, before pruning. */
    ghost var moved: seq<VehicleAgent>

    constructor (lights: seq<CycleLight.TrafficLight>)
      ensures vehicles == [] && trafficLights == lights && stepCount == 0 && moved == []
    {
      vehicles := [];
      trafficLights := lights;
      stepCount := 0;
      moved := [];
    }

    /**
     * `step`.  The random spawn interval, spawn heading and lane, the current
     * time and each vehicle's normalised step are parameters.
     */
    method Step(now: real, interval: int, h: Heading, lane: int, steps: seq<(real, real)>)
      requires MIN_SPAWN_INTERVAL <= interval <= MAX_SPAWN_INTERVAL
      requires lane == 0 || lane == 1
      requires Distinct(vehicles) && Distinct(trafficLights)
      requires |steps| == |vehicles|
      requires forall i :: 0 <= i < |vehicles| ==> vehicles[i].StepFits(steps[i].0, steps[i].1)
      modifies this`vehicles, this`stepCount, this`moved, trafficLights`currentState, trafficLights`stateStartTime
      modifies vehicles`assignedLight, vehicles`waitingAtLight, vehicles`position, vehicles`path, vehicles`crossingIntersection
      ensures stepCount == old(stepCount) + 1
      ensures AllUpdatedAt(old(LightStates(trafficLights)), LightStates(trafficLights), now)
      // at most one spawn, exactly when the step count hits the interval
      ensures SpawnedAtEnd(old(vehicles), moved, stepCount % interval == 0, h, lane)
      ensures stepCount % interval == 0 ==> fresh(moved[|old(vehicles)|])
      // the vehicle spawned in this step moves in it too, from its spawn state
      ensures stepCount % interval == 0 ==>
                moved[|old(vehicles)|].MovedFrom(SpawnMotion(h), trafficLights, SpawnStep(h).0, SpawnStep(h).1)
      // every vehicle moved against the lights as they were after their update
      ensures forall i :: 0 <= i < |old(vehicles)| ==>
                moved[i].MovedFrom(old(States(vehicles))[i], trafficLights, steps[i].0, steps[i].1)
      ensures vehicles == Survivors(moved) && Distinct(vehicles)
    {
      stepCount := stepCount + 1;
      Tick(now, stepCount % interval == 0, h, lane, steps);
    }

    /** Update the lights, spawn a vehicle when `spawn` holds, move every vehicle and prune. */
    method Tick(now: real, spawn: bool, h: Heading, lane: int, steps: seq<(real, real)>)
      requires lane == 0 || lane == 1
      requires Distinct(vehicles) && Distinct(trafficLights)
      requires |steps| == |vehicles|
      requires forall i :: 0 <= i < |vehicles| ==> vehicles[i].StepFits(steps[i].0, steps[i].1)
      modifies this`vehicles, this`moved, trafficLights`currentState, trafficLights`stateStartTime
      modifies vehicles`assignedLight, vehicles`waitingAtLight, vehicles`position, vehicles`path, vehicles`crossingIntersection
      ensures AllUpdatedAt(old(LightStates(trafficLights)), LightStates(trafficLights), now)
      ensures SpawnedAtEnd(old(vehicles), moved, spawn, h, lane)
      ensures spawn ==> fresh(moved[|old(vehicles)|])
      ensures spawn ==> moved[|old(vehicles)|].MovedFrom(SpawnMotion(h), trafficLights, SpawnStep(h).0, SpawnStep(h).1)
      ensures forall i :: 0 <= i < |old(vehicles)| ==>
                moved[i].MovedFrom(old(States(vehicles))[i], trafficLights, steps[i].0, steps[i].1)
      ensures vehicles == Survivors(moved) && Distinct(vehicles)
    {
      UpdateLights(trafficLights, now);
      SpawnMoveAndPrune(spawn, h, lane, steps);
    }

    /** Spawn a vehicle when `spawn` holds, move every vehicle, then keep those with a remaining path. */
    method SpawnMoveAndPrune(spawn: bool, h: Heading, lane: int, steps: seq<(real, real)>)
      requires lane == 0 || lane == 1
      requires Distinct(vehicles) && |steps| == |vehicles|
      requires forall i :: 0 <= i < |vehicles| ==> vehicles[i].StepFits(steps[i].0, steps[i].1)
      modifies this`vehicles, this`moved
      modifies vehicles`assignedLight, vehicles`waitingAtLight, vehicles`position, vehicles`path, vehicles`crossingIntersection
      ensures SpawnedAtEnd(old(vehicles), moved, spawn, h, lane)
      ensures spawn ==> fresh(moved[|old(vehicles)|])
      ensures spawn ==> moved[|old(vehicles)|].MovedFrom(SpawnMotion(h), trafficLights, SpawnStep(h).0, SpawnStep(h).1)
      ensures forall i :: 0 <= i < |old(vehicles)| ==>
                moved[i].MovedFrom(old(States(vehicles))[i], trafficLights, steps[i].0, steps[i].1)
      ensures vehicles == Survivors(moved) && Distinct(vehicles)
    {
      var all, allSteps := WithSpawn(vehicles, steps, spawn, h, lane);
      ghost var snapshot := States(all);
      assert forall i :: 0 <= i < |vehicles| ==> snapshot[i] == old(States(vehicles))[i] && allSteps[i] == steps[i];
      moved := all;
      MoveAndPrune(all, allSteps, snapshot);
      if spawn {
        MovedFromSpawn(moved, snapshot, allSteps, |old(vehicles)|, h, trafficLights);
      }
    }

    /** Move every vehicle, then keep those with a remaining path. */
    method MoveAndPrune(all: seq<VehicleAgent>, allSteps: seq<(real, real)>, ghost snapshot: seq<Motion>)
      requires Distinct(all) && |allSteps| == |all| && |snapshot| <= |all|
      requires forall i :: 0 <= i < |snapshot| ==> snapshot[i] == all[i].State()
      requires forall i :: 0 <= i < |all| ==> all[i].StepFits(allSteps[i].0, allSteps[i].1)
      modifies this`vehicles, all`assignedLight, all`waitingAtLight, all`position, all`path, all`crossingIntersection
      ensures forall i :: 0 <= i < |snapshot| ==> all[i].MovedFrom(snapshot[i], trafficLights, allSteps[i].0, allSteps[i].1)
      ensures vehicles == Survivors(all) && Distinct(vehicles)
    {
      MoveAll(all, allSteps, trafficLights, snapshot);
      Prune(all);
    }

    /** `self.vehicles = [v for v in self.vehicles if v.path]`. */
    method Prune(all: seq<VehicleAgent>)
      requires Distinct(all)
      modifies this`vehicles
      ensures vehicles == Survivors(all) && Distinct(vehicles)
    {
      vehicles := Survivors(all);
    }
  }
}
