# Verified model of the traffic, vacuum-world, game and wealth-agent rules

This project is a Dafny model of the deterministic rules underneath a set of
small multi-agent simulations: pygame and OpenGL traffic scenes, a grid
vacuum world, a game-analysis toolkit and several wealth-exchanging agent
societies. Each modelled source file is one Dafny module in a file of its
own. Objects whose fields the simulations update in place are classes with
`modifies` frames. Pure selections and searches are functions, with lemmas
about them.

The model covers five groups.

- **Traffic lights and the stop gate.**
  - `PairedLight` is the demand-responsive pair of m3: GREEN, YELLOW, SAFETY_DELAY, RED, integer tick timers, a clamped green duration and hand-over to the partner light.
  - `CycleLight` is the three-phase timed light of the city scene, with the elapsed time as an input.
  - `StopGate` is the stop block that follows its light.
- **Vehicles and pedestrians.**
  - `CityVehicle` and `Pedestrian` cover waypoint paths, the light, crosswalk and proximity gates, and the `crossing_intersection` latch.
  - `CityTraffic` covers the traffic model's tick: lights, then spawn, then move, then prune.
  - `VehicleProfiles`, `Kinematics`, `Vehicle2Agent` and `Vehicle3Agent` cover the pygame vehicles.
  - `PathFollower` covers the path-following vehicle.
- **The vacuum world.**
  - `VacuumWorld` is the grid and its dirty set.
  - `BasicVacuum`, `SmartVacuum`, `EfficientVacuum` and `CollaborativeVacuum` are the four cleaning policies, sharing `VacuumMoves`.
- **Games and protocols.**
  - `GameTheory`, `GameCatalog` and `GameScenarios` cover the Nash, Pareto and maximum-welfare searches over payoff tables, and the concrete games with their answers.
  - `InteractionProtocols` is the participant and message registry, with its three built-in protocols.
- **Wealth agents and message buffers.**
  - `WealthRules`, `SavingAgents`, `DeductiveAgents`, `HybridAgents`, `WealthBdiAgents` and `PracticalAgents` are the rule-based, hybrid and BDI agents that pass on one unit of wealth.
  - `ContractNet` is the contract-net manager and worker over a shared message buffer.
  - `Act7Messages` and `CheatingAgents` are the act7 messages and the cheating agent.

Coordinates, speeds and utilities are exact `real`s. Every random draw and
every clock reading is a parameter of the operation that uses it.

Some behaviour of the code as written is stated outright:
- Quadrant 0 is also the "unassigned" value of the collaborative agent, because `if not self.assigned_quadrant` treats 0 as false (`CollaborativeVacuum.UnvisitedInQuadrant`, `CollaborativeVacuum.CollaborativeAgent.MoveStep`).
- The smart vacuum can stall for one step at a corner, because it turns only once per call (`SmartVacuum.SmartMoveStallsAtMostOnce`).
- A vertical city vehicle's path is just its spawn point, so it arrives on its first move (`CityVehicle.VerticalVehicleArrivesAtOnce`). That move happens in the step that spawns it, so unless its light stops it, it is pruned in that same step (`CityTraffic.TrafficModel.Step`, `CityVehicle.SnapsToLastWaypoint`).
- In m3, a light whose safety delay expires while the switch rule declines the hand-over turns RED. With a RED partner, neither light ever leaves RED again (`PairedLight.DeclinedHandOverKeepsBothRed`, `PairedLight.RedHasNoOwnExit`).
- The cheating agent's `take_msg` removes messages while iterating over the list, so it skips the message right after each one it removes (`CheatingAgents.SecondTransferIsSkipped`).

## Model

| member | source | states |
|---|---|---|
| CycleLight.Timing | act_integ/objects/traffic_light.py:26-30 | every phase lasts a positive time (RED 10 s, YELLOW 3 s, GREEN 8 s) |
| CycleLight.ChangeState | act_integ/objects/traffic_light.py:43-49 | the next state always differs from the current one; GREEN goes to YELLOW; GREEN is reached exactly from RED |
| CycleLight.StopRequiredExactlyWhenNotGreen | act_integ/objects/traffic_light.py:51-58 | `is_red` holds exactly for RED and YELLOW, false only for GREEN |
| CycleLight.ChangeStateCycles | act_integ/objects/traffic_light.py:43-49 | three changes return to the starting state; RED is entered only from YELLOW, so GREEN never goes straight to RED |
| CycleLight.ChangeTimesPeriodic | act_integ/objects/traffic_light.py:43-49 | after any number of changes, three more give the same state |
| CycleLight.Run | act_integ/objects/traffic_light.py:35-41 | over a run of `update` calls the light changes at most once per call, and its state is the k-th successor of the start for the k changes made |
| CycleLight.RunFollowsUpdates | act_integ/objects/traffic_light.py:35-41 | a light taken through successive `update` calls, one per clock reading, ends in the state and start time that `Run` computes |
| CycleLight.TrafficLight.constructor | act_integ/objects/traffic_light.py:15-33 | a new light sits at the origin, is RED from the given clock reading and controls "NS" |
| CycleLight.TrafficLight.Update | act_integ/objects/traffic_light.py:35-41 | once the current state's timing has elapsed, one change and a timer restart at `now`; before that, state and start time unchanged |
| CycleLight.TrafficLight.ChangeStateNow | act_integ/objects/traffic_light.py:43-49 | the field takes the successor state |
| StopGate.StopBlock.constructor | act_integ/objects/stop_block.py:5-12 | the fields as given; a new block is active and not visible |
| StopGate.StopBlock.Update | act_integ/objects/stop_block.py:14-16 | `active` becomes exactly the light's `is_red` |
| StopGate.UpdateTwice | act_integ/objects/stop_block.py:14-16 | synchronising twice with the same light leaves the same flag as once |
| StopGate.CentreAndCornersCollide | act_integ/objects/stop_block.py:18-27 | with non-negative extents the centre and the four corners collide, at any height |
| StopGate.OutsideDoesNotCollide | act_integ/objects/stop_block.py:18-27 | a point beyond half the width in x or half the depth in z does not collide |
| StopGate.CollisionIgnoresHeight | act_integ/objects/stop_block.py:18-27 | the test never depends on index 1 (height) |
| PairedLight.GreenDuration | m3/traffic_light.py:83-102 | the green duration always lies in [90, 600]; with no car waiting at the partner it is at least min(120 + 20 per waiting car, 600) |
| PairedLight.Tick | m3/traffic_light.py:49-81 | one update: the own phase stays or moves to its successor (never out of RED); the timer grows by 1 and resets to 0 on every change; the queue is untouched; the partner changes only by a hand-over to GREEN with timer and total wait 0; wait time accrues only on RED with cars |
| PairedLight.TickKeepsExclusive | m3/traffic_light.py:49-77 | updating either light of a pair with at least one RED keeps one RED, so never both GREEN |
| PairedLight.RedHasNoOwnExit | m3/traffic_light.py:49-81 | a RED light's own update keeps it RED and leaves the partner alone |
| PairedLight.TickKeepsTimerBounded | m3/traffic_light.py:50-77 | GREEN ends within 600 frames and YELLOW and SAFETY_DELAY within 60, also for a partner just handed GREEN |
| PairedLight.GreenEndsByMaxDuration | m3/traffic_light.py:52-58 | a GREEN light whose timer reaches 600 turns YELLOW whatever the queues |
| PairedLight.TieDoesNotSwitch | m3/traffic_light.py:104-119 | equal non-empty queues with a partner that has waited under 300 frames do not switch |
| PairedLight.SwitchCauses | m3/traffic_light.py:104-119 | the switch rule holds exactly for an empty own queue, a starved partner queue (waiting cars and at least 300 frames), or a partner queue above 1.5 times this one |
| PairedLight.DeclinedHandOverKeepsBothRed | m3/traffic_light.py:67-77 | a safety delay that expires with 2 cars here and 1 at a partner that has waited under 300 frames leaves both lights RED |
| PairedLight.Run | m3/traffic_light.py:49-77 | any schedule of updates of the two lights keeps a pair with one RED light that way |
| PairedLight.InitialSplitIsExclusive | m3/traffic_light.py:38-47 | from the split `set_other_light` makes (one GREEN, one RED) no schedule of updates makes both GREEN |
| PairedLight.Registry.constructor | m3/traffic_light.py:15-17 | no light is green and the initial state is not set |
| PairedLight.TrafficLight.constructor | m3/traffic_light.py:20-36 | a new light is RED with timer, queue, wait time and passed cars at 0, and no partner |
| PairedLight.TrafficLight.SetOtherLight | m3/traffic_light.py:38-47 | the partner is recorded; only the first call with a partner makes this light GREEN, the partner RED and sets the registry; counters unchanged |
| PairedLight.TrafficLight.Update | m3/traffic_light.py:49-81 | the light and its partner take exactly the values `Tick` gives, and the registry's green light follows |
| PairedLight.TrafficLight.RequestGreen | m3/traffic_light.py:121-123 | the queue grows by exactly one and nothing else changes |
| Kinematics.Accelerate | m3/vehicle.py:28 | `min(speed + acceleration, max_speed)`: never above the cap or the raw sum, equal to one of them, never slower with a non-negative acceleration below the cap, never negative from non-negative inputs |
| Kinematics.Brake | m3/vehicle.py:26 | `max(0, speed - deceleration)`: never negative, equal to 0 or the reduced speed, never faster with a non-negative deceleration |
| Kinematics.SpeedUpdatesStayInRange | m3/vehicle.py:26-33 | both speed updates keep a speed inside [0, max_speed] |
| VehicleProfiles.ProfileOf | m3/vehicle.py:86-124 | every profile starts at its top speed, with positive sizes (length above width) and positive speed parameters |
| VehicleProfiles.NextSpeed | m3/vehicle.py:22-33 | approaching a non-GREEN light brakes; approaching a GREEN light accelerates with a free lane and keeps the speed behind a vehicle; elsewhere a vehicle ahead brakes and a free lane accelerates; a speed in [0, max_speed] stays there |
| VehicleProfiles.VehicleBase.constructor | m3/vehicle.py:3-16 | the fields as given and the profile's characteristics, with width and height swapped for a horizontal vehicle |
| VehicleProfiles.VehicleBase.IsVehicleAhead | m3/vehicle.py:48-64 | true exactly when some other same-direction vehicle is within (0, 60) ahead and overlaps the lane (lateral offset below the own height or width) |
| VehicleProfiles.VehicleBase.Update | m3/vehicle.py:22-39 | the new speed is `NextSpeed` of the old state; horizontal x grows by it, vertical y shrinks by it, the other coordinate stays |
| VehicleProfiles.ProfileSpeedStaysInRange | m3/vehicle.py:26-33 | for every profile the initial speed and every update stay within [0, max_speed] |
| Vehicle2Agent.SignalLight.constructor | m3/vehicle2.py:84-90 | a light object with the given textual state and partner, as `request_green` reads and writes it |
| Vehicle2Agent.RequestedState | m3/vehicle2.py:84-90 | the light keeps its state while its partner loops or pauses or while it pauses itself, and otherwise becomes 'loop' |
| Vehicle2Agent.Vehicle2.constructor | m3/vehicle2.py:5-22 | the position, direction and vehicle list as given; a new vehicle starts at its top speed 2, heading to the light, not close to a car and not in the intersection |
| Vehicle2Agent.Vehicle2.IsVehicleAhead | m3/vehicle2.py:57-73 | true exactly when some other vehicle of the list is less than 40 pixels ahead along the own axis of travel, in any lane (no lane test is made) |
| Vehicle2Agent.Vehicle2.RequestGreen | m3/vehicle2.py:84-90 | the light's state becomes `RequestedState` of its own and its partner's state |
| Vehicle2Agent.Vehicle2.Update | m3/vehicle2.py:24-55 | the stage only advances, one step at a time; heading to the light it brakes behind a vehicle and accelerates otherwise, moves along its axis, and on reaching the intersection stops there, brakes again and waits; waiting it stays put, requests green and is accepted exactly when the light answers green; accepted it moves on at constant speed; a speed within [0, 2] stays there |
| Vehicle3Agent.SpanTouchesIsOverlap | m3/vehicle3.py:79-90 | the three-way front/back/spanning test of `is_in_intersection` is exactly the overlap of two closed intervals |
| Vehicle3Agent.NextSpeed | m3/vehicle3.py:108-130 | a vehicle close ahead always brakes; with a free lane and leave to go on the speed never drops; a speed within [0, 1] stays there |
| Vehicle3Agent.Vehicle3.constructor | m3/vehicle3.py:5-20 | the position, direction and vehicle list as given; a new vehicle starts at speed 1, not close to a car and not in the intersection |
| Vehicle3Agent.Vehicle3.InIntersectionZone | m3/vehicle3.py:56-90 | the vehicle's extent along its axis overlaps the intersection box of side 30 centred at (345, 340) widened by 1 pixel |
| Vehicle3Agent.Vehicle3.FindVehicleAhead | m3/vehicle3.py:22-36 | true exactly when some other vehicle in the same lane is strictly between 0 and 25 pixels ahead |
| Vehicle3Agent.Vehicle3.FindVehicleInIntersection | m3/vehicle3.py:38-54 | true exactly when some other vehicle moving on the other axis is in or at the intersection box |
| Vehicle3Agent.AdjustSpeed | m3/vehicle3.py:108-130 | the branches on closeness, lane and light give exactly the `NextSpeed` of what the vehicle observed, with leave to go on when it has passed the light, is in the zone, has a green light and a free intersection, or is farther than the stop distance |
| Vehicle3Agent.Vehicle3.Update | m3/vehicle3.py:92-135 | the intersection and closeness flags are recomputed from the old position; the speed follows `NextSpeed`; the vehicle moves along its own axis by the new speed only; a speed within [0, 1] stays there, and then the vehicle never moves backwards |
| PathFollower.SpawnPoint | act_integ/agentes.py:21-40 | every spawn lies on the ground plane; left and right spawns are 140 out on x and take the drawn turning path; top and bottom spawns are 135 out on z and go straight (path 1) |
| PathFollower.NextPosition | act_integ/agentes.py:47-63 | the height never changes and z never decreases; path 1 advances z; paths 2 and 3 advance z before z = 100 and then move right (2) or left (3) on x; any other path id stays put |
| PathFollower.VehicleAgent.constructor | act_integ/agentes.py:8-12 | a new car starts at speed 0.5 at the spawn point and on the path of the side drawn |
| PathFollower.VehicleAgent.AssignSpawnPoint | act_integ/agentes.py:21-40 | position and path become those of `SpawnPoint` for the side and turn drawn |
| PathFollower.VehicleAgent.MoveAlongPath | act_integ/agentes.py:42-63 | the speed is raised by 0.01 up to the cap 0.5 first, and the car then moves by the new speed as `NextPosition` says |
| PathFollower.VehicleAgent.Step | act_integ/agentes.py:65-66 | one step is one move of the run |
| PathFollower.RunSpeedStaysInRange | act_integ/agentes.py:45 | over any number of steps from a speed in [0, 0.5] the speed never drops and never exceeds 0.5 |
| PathFollower.RunNeverGoesBack | act_integ/agentes.py:47-63 | over any number of steps a car never moves back in z and never leaves the ground plane |
| PathFollower.TurnedStaysTurned | act_integ/agentes.py:51-63 | a turning car past z = 100 keeps its z for ever; one before it never overshoots z = 100 by a full step |
| PathFollower.SpawnRunsForward | act_integ/agentes.py:8-66 | from every spawn the car keeps its top speed and only moves forward in z |
| CityVehicle.VerticalPath | act_integ/models/agents.py:64-73 | the one waypoint of a north- or south-bound vehicle has the vehicle's own x and z and height 0: the double negation leaves it where it starts |
| CityVehicle.HorizontalPath | act_integ/models/agents.py:75-84 | the one waypoint of an east- or west-bound vehicle is its position mirrored in x, at the same z, on the ground |
| CityVehicle.VehicleAgent.constructor | act_integ/models/agents.py:14-55 | heading and lane as drawn; spawn position and rotation of that heading; the path of `calculate_path`; not waiting, not crossing, no light assigned |
| CityVehicle.VehicleAgent.CheckTrafficLight | act_integ/models/agents.py:86-129 | an assigned light stays assigned; otherwise the first eligible light in list order is assigned, and none only when none is eligible; with no light or while crossing it never stops and the waiting flag stays; otherwise it stops, and waits, exactly when the light is red or yellow and less than 5 away along the axis |
| CityVehicle.VehicleAgent.Move | act_integ/models/agents.py:131-163 | a vehicle not crossing takes the first eligible light once and sets its waiting flag to whether that light is red and close (with no light the flag stays); stopped, or with no waypoint left, it keeps position, path and crossing flag; otherwise the flag is latched with two waypoints left, and it either snaps to the waypoint within one speed (popping it, and clearing the flag when one is left) or advances by the normalised step with the path unchanged |
| CityVehicle.MoveApproachesWaypoint | act_integ/models/agents.py:141-163 | a move never takes a vehicle farther from the head of its path: stopped it stays put, within one speed it lands on the waypoint and pops it, and otherwise its step brings it at least speed squared closer in squared ground distance |
| CityVehicle.VerticalVehicleArrivesAtOnce | act_integ/models/agents.py:64-73 | a north- or south-bound vehicle is at distance 0 from its only waypoint, so its first unblocked move snaps there and empties its path |
| CityVehicle.SnapsToLastWaypoint | act_integ/models/agents.py:131-157 | a vehicle off the intersection with one waypoint left, within one speed of it and not stopped by its light, lands on it with an empty path and the latch clear, so the same step prunes it |
| CityVehicle.HorizontalVehicleCrossesMap | act_integ/models/agents.py:75-84 | an east- or west-bound vehicle's only waypoint is 280 units away along x, at its own z |
| CityVehicle.HorizontalSpawnStep | act_integ/models/agents.py:141-163 | the first step of a new east-bound vehicle is +0.5 on x and of a west-bound one -0.5, with no change in z |
| Pedestrian.TargetX | act_integ/models/pedestrian.py:88-102 | the sidewalk column is one of -95, -45, 45, 95: on the left road exactly when the start is in [-90, -50], and the west sidewalk exactly when heading north |
| Pedestrian.TargetZ | act_integ/models/pedestrian.py:144-150 | the sidewalk row is 25 exactly when heading east, else -25 |
| Pedestrian.VerticalPath | act_integ/models/pedestrian.py:84-137 | between 1 and 6 waypoints, all on the ground in the sidewalk column, ending at the mirrored z; the first is the sidewalk approach, and the count is even, exactly when the start is more than 0.5 off the column |
| Pedestrian.HorizontalPath | act_integ/models/pedestrian.py:139-199 | between 1 and 6 waypoints, all on the ground in the sidewalk row, ending at the mirrored x; the first is the sidewalk approach, and the count is even, exactly when the start is more than 0.5 off the row |
| Pedestrian.FirstNear | act_integ/models/pedestrian.py:317-329 | the index of the first light from a position on that governs the axis and is within its box, or -1 exactly when there is none |
| Pedestrian.RelevantLight | act_integ/models/pedestrian.py:311-331 | a returned NS light is near and the pedestrian is on a vertical road; a returned EW light is near and the pedestrian is within the horizontal road band; a near NS light on a vertical road always wins; `None` exactly when neither scan finds one |
| Pedestrian.ShouldWaitAtCrossing | act_integ/models/pedestrian.py:333-354 | with no light only patient pedestrians wait; aggressive ones never wait; patient ones wait exactly when the light is not red; impulsive ones wait exactly when it is not red and the draw exceeds 0.3 |
| Pedestrian.PedestrianAgent.constructor | act_integ/models/pedestrian.py:10-22 | heading, spawn point and personality as drawn, the path `calculate_path` builds, not waiting |
| Pedestrian.PedestrianAgent.CalculatePath | act_integ/models/pedestrian.py:77-82 | the path becomes the vertical path for north and south, the horizontal one for east and west |
| Pedestrian.PedestrianAgent.CalculateVerticalPath | act_integ/models/pedestrian.py:84-137 | the appended waypoints are exactly `VerticalPath` of the position |
| Pedestrian.PedestrianAgent.CalculateHorizontalPath | act_integ/models/pedestrian.py:139-199 | the appended waypoints are exactly `HorizontalPath` of the position |
| Pedestrian.PedestrianAgent.IsVehicleTooClose | act_integ/models/pedestrian.py:293-301 | true exactly when some vehicle is less than 30 away in the ground plane |
| Pedestrian.PedestrianAgent.GetRelevantTrafficLight | act_integ/models/pedestrian.py:311-331 | the light returned is the one `RelevantLight` picks, `None` when it picks none |
| Pedestrian.PedestrianAgent.Move | act_integ/models/pedestrian.py:210-246 | with no waypoint nothing changes; held by the light at a crosswalk or by a vehicle too close on a road crossing, it starts waiting and stays put; otherwise the waiting flag is left alone and it snaps to the waypoint within 0.3, popping it, or steps by the normalised step; it never ends up farther from its waypoint, and a step brings it at least 0.09 closer in squared ground distance |
| Pedestrian.VerticalWaypointsOffCrossings | act_integ/models/pedestrian.py:84-137 | from any spawn zone no waypoint of a north- or south-bound walker is at a crosswalk or on a road crossing, so at its waypoints neither lights nor vehicles hold it |
| Pedestrian.HorizontalWaypointsOffRoad | act_integ/models/pedestrian.py:139-199 | from any spawn zone no waypoint of an east- or west-bound walker is on a road crossing |
| Pedestrian.SpawnPathHasSixWaypoints | act_integ/models/pedestrian.py:33-199 | from every spawn zone the path has the sidewalk approach, four crosswalk points and the far end: 6 waypoints |
| CityTraffic.Survivors | act_integ/models/traffic_model.py:36-38 | exactly the vehicles with a remaining path are kept, in their order and without duplicates |
| CityTraffic.UpdateLights | act_integ/models/traffic_model.py:23-24 | every light, each listed once, goes through exactly one `update` at the same time reading |
| CityTraffic.MoveAll | act_integ/models/traffic_model.py:32-33 | every vehicle makes exactly one `move` against the current lights, from the state it had before the loop |
| CityTraffic.SpawnStepFits | act_integ/models/agents.py:141-163 | the first move of a new vehicle of any heading either snaps to its waypoint or steps by half a unit along x |
| CityTraffic.Spawn | act_integ/models/traffic_model.py:28 | a new vehicle with the heading and lane drawn; it stands at its spawn point on its initial path, latch and waiting flag clear and no light (`SpawnMotion`), and its first step is `SpawnStep` |
| CityTraffic.WithSpawn | act_integ/models/traffic_model.py:27-29 | the vehicle list gets at most one new, distinct vehicle at its end, which starts in `SpawnMotion` and moves by `SpawnStep`; every vehicle keeps a step to move by |
| CityTraffic.MovedFromSpawn | act_integ/models/traffic_model.py:28-33 | a vehicle moved from its recorded state and step, when these are the spawn state and `SpawnStep`, moved from `SpawnMotion` by `SpawnStep` |
| CityTraffic.TrafficModel.constructor | act_integ/models/traffic_model.py:8-12 | no vehicles, the lights as given, step count 0 |
| CityTraffic.TrafficModel.Step | act_integ/models/traffic_model.py:18-38 | the step count grows by one; every light is updated once; one vehicle is spawned at the end of the list exactly when the step count is a multiple of the interval drawn from [120, 300]; every vehicle, the newly spawned one included, moves once: the old ones from their states before the step, the new one from `SpawnMotion` by `SpawnStep`; afterwards exactly those with a remaining path are kept, and the list stays free of duplicates |
| CityTraffic.TrafficModel.Tick | act_integ/models/traffic_model.py:22-38 | lights updated once each, at most one spawn at the end, one move each (the new vehicle from its spawn state), then the survivors |
| CityTraffic.TrafficModel.SpawnMoveAndPrune | act_integ/models/traffic_model.py:26-38 | at most one spawn at the end, one move each (the new vehicle from its spawn state), then the survivors |
| CityTraffic.TrafficModel.MoveAndPrune | act_integ/models/traffic_model.py:31-38 | one move each, then the list becomes the survivors |
| CityTraffic.TrafficModel.Prune | act_integ/models/traffic_model.py:35-38 | the vehicle list becomes exactly the survivors of the moved list, which stays free of repeats |
| VacuumWorld.NextAction | act_6/src/agents/basic_agent.py:26-29 | the action is "clean" exactly when the agent's own cell reads dirty |
| VacuumWorld.AllCellsCount | act_general/act_6/src/environment.py:15-18 | the grid has exactly width times height positions |
| VacuumWorld.Written | act_general/act_6/src/environment.py:22 | writing one entry keeps a well-formed grid, sets that entry and no other, and adds the position to (1) or removes it from (0) the dirty positions |
| VacuumWorld.Cleaned | act_general/act_6/src/environment.py:32-37 | cleaning leaves the grid well formed, zeroes an in-grid entry, touches no other entry, and removes exactly that position from the dirty positions |
| VacuumWorld.CleanedIdempotent | act_general/act_6/src/environment.py:32-37 | cleaning a position twice is cleaning it once |
| VacuumWorld.CountsPartition | act_general/act_6/src/environment.py:44-50 | every position is clean or dirty, so the two counts add up to the grid size |
| VacuumWorld.Environment.constructor | act_general/act_6/src/environment.py:6-11 | the dimensions as given; the dirty set is exactly the drawn positions and the grid agrees with it |
| VacuumWorld.Environment.InitializeDirtyCells | act_general/act_6/src/environment.py:13-23 | every drawn position reads 1 and joins the dirty set; grid and set stay in agreement |
| VacuumWorld.Environment.GetCellState | act_general/act_6/src/environment.py:25-30 | -1 exactly off the grid; on it the entry, which is 1 exactly for a dirty position |
| VacuumWorld.Environment.CleanCell | act_general/act_6/src/environment.py:32-37 | the position leaves the dirty set, and the grid is the `Cleaned` grid; nothing else changes |
| VacuumWorld.Environment.GetDirtyCount | act_general/act_6/src/environment.py:44-46 | the number of entries reading 1, at most the grid size |
| VacuumWorld.Environment.GetCleanCount | act_general/act_6/src/environment.py:48-50 | the number of entries reading 0, and with the dirty count it makes the grid size |
| VacuumWorld.Environment.GetDirtyCells | act_general/act_6/src/environment.py:56-58 | exactly the in-grid positions whose entry reads 1 |
| VacuumMoves.InGridShifts | act_6/src/agents/basic_agent.py:53-60 | at most one candidate per direction, and each candidate is in the grid |
| VacuumMoves.InGridShiftsMembers | act_6/src/agents/basic_agent.py:53-60 | a cell is a candidate exactly when it is in the grid and one of the directions leads to it |
| VacuumMoves.OrthogonalMovesAreSteps | act_6/src/agents/efficient_agent.py:100-107 | every candidate over the four directions is at Manhattan distance 1 |
| VacuumMoves.KingMovesAreAdjacent | act_6/src/agents/basic_agent.py:11-20 | every candidate over the eight directions is at Chebyshev distance 1 |
| VacuumMoves.AllShiftsInGrid | act_6/src/agents/basic_agent.py:53-60 | when every target is in the grid the scan keeps them all, in the listed order |
| VacuumMoves.InteriorHasEightMoves | act_6/src/agents/basic_agent.py:53-60 | from an interior cell all eight neighbours are candidates, in the listed order |
| VacuumMoves.GetValidMoves | act_6/src/agents/basic_agent.py:53-60 | the loop returns exactly `InGridShifts` of the position |
| VacuumMoves.GetSurroundings | act_6/src/agents/smart_agent.py:67-76 | one reading per direction, in order: the neighbour's cell state, which is -1 exactly off the grid |
| VacuumMoves.FirstUnvisitedFinds | act_6/src/agents/efficient_agent.py:76-83 | the first in-grid neighbour that was not visited, and none exactly when every neighbour is off the grid or visited |
| VacuumMoves.NearestInSet | act_6/src/agents/efficient_agent.py:60-64 | `min` over a set gives a member at least Manhattan distance from the position |
| VacuumMoves.NearestInSeq | act_6/src/agents/collaborative_agent.py:126-133 | `min` over a list gives the first entry of least Manhattan distance |
| BasicVacuum.BasicAgent.constructor | act_general/act_6/src/agents/base.py:8-11 | the position as given and both counters at 0 |
| BasicVacuum.BasicAgent.See | act_6/src/agents/basic_agent.py:22-24 | the perception holds only the reading of the agent's own cell |
| BasicVacuum.BasicAgent.Action | act_6/src/agents/basic_agent.py:31-51 | CLEAN cleans the own cell, counts it and does not move; MOVE leaves the grid alone and goes to the picked in-grid neighbour among the eight, counting the move, or stays put uncounted when there is none |
| BasicVacuum.PerformedMoveIsOneStep | act_6/src/agents/basic_agent.py:40-45 | a performed move lands in the grid at Chebyshev distance 1 |
| BasicVacuum.SomeMoveExists | act_6/src/agents/basic_agent.py:40-45 | on a grid at least 2 by 2 every cell has a neighbour in the grid, so MOVE always moves |
| SmartVacuum.SmartAgent.constructor | act_6/src/agents/smart_agent.py:9-14 | the position as given, counters at 0, direction 0, only the start visited |
| SmartVacuum.SmartAgent.See | act_6/src/agents/smart_agent.py:16-19 | the own reading and the four neighbour readings, in the direction order |
| SmartVacuum.SmartAgent.SmartMove | act_6/src/agents/smart_agent.py:48-65 | the step ahead when it stays in the grid; otherwise one clockwise turn and the step in the new direction, or no move when that leaves the grid too; the target is the position or an in-grid orthogonal neighbour |
| SmartVacuum.SmartAgent.Action | act_6/src/agents/smart_agent.py:26-63 | CLEAN cleans the own cell and counts it; MOVE counts a move even when the target is the position (a tuple is never falsy), records the target as visited, goes one step ahead when that cell is in the grid and otherwise moves to the next of the four directions and steps along it if that cell is in the grid, else stays |
| SmartVacuum.SmartMoveStallsAtMostOnce | act_6/src/agents/smart_agent.py:48-65 | on a grid at least 2 by 2, when both the current and the turned direction leave the grid, the next direction leads back in |
| EfficientVacuum.SignStepStaysInGrid | act_6/src/agents/efficient_agent.py:65-70 | the sign step between in-grid cells stays in the grid and gets strictly closer to the target |
| EfficientVacuum.EfficientMoveStaysInGrid | act_6/src/agents/efficient_agent.py:57-87 | an efficient move ends in the grid or where the agent stood |
| EfficientVacuum.EfficientMoveHeadsForNearestDirt | act_6/src/agents/efficient_agent.py:58-73 | with known in-grid dirt, the move is always the sign step toward a nearest dirty cell |
| EfficientVacuum.ReportedDirtIsInGrid | act_6/src/agents/efficient_agent.py:25-30 | neighbours read dirty are in the grid and in the environment's dirty set |
| EfficientVacuum.EfficientAgent.constructor | act_6/src/agents/efficient_agent.py:9-14 | the position as given, counters at 0, only the start visited, no dirt known |
| EfficientVacuum.EfficientAgent.See | act_6/src/agents/efficient_agent.py:16-19 | the own reading and the four neighbour readings, in the direction order |
| EfficientVacuum.EfficientAgent.Next | act_6/src/agents/efficient_agent.py:21-32 | CLEAN exactly on a dirty cell, remembering nothing; otherwise MOVE, and the neighbours read dirty join the remembered dirt |
| EfficientVacuum.EfficientAgent.ScanUnvisited | act_6/src/agents/efficient_agent.py:76-83 | the direction loop returns the first in-grid unvisited neighbour in direction order, or none when every neighbour is off the grid or visited |
| EfficientVacuum.EfficientAgent.ExploreMove | act_6/src/agents/efficient_agent.py:75-87 | the first unvisited in-grid neighbour, else the picked in-grid neighbour, else the position |
| EfficientVacuum.EfficientAgent.EfficientMove | act_6/src/agents/efficient_agent.py:57-87 | the sign step toward a nearest remembered dirty cell when it stays in the grid, and the exploring move otherwise |
| EfficientVacuum.EfficientAgent.Action | act_6/src/agents/efficient_agent.py:34-55 | CLEAN cleans the own cell, counts it and forgets it as dirt; MOVE counts a move, records the target as visited and goes where `_efficient_move` says |
| CollaborativeVacuum.QuadrantBounds | act_6/src/agents/collaborative_agent.py:26-31 | each quadrant box is a sub-box of the grid, its corners ordered |
| CollaborativeVacuum.QuadrantOf | act_6/src/agents/collaborative_agent.py:211-226 | the quadrant chosen is one of the four, and an in-grid position lies inside its box |
| CollaborativeVacuum.QuadrantsPartitionGrid | act_6/src/agents/collaborative_agent.py:26-31 | an in-grid position lies in exactly one quadrant box, the one `_assign_quadrant` gives it |
| CollaborativeVacuum.ColumnScanMembers | act_6/src/agents/collaborative_agent.py:37-41 | the inner loop lists exactly the unvisited in-grid cells of its column segment |
| CollaborativeVacuum.BoxScanMembers | act_6/src/agents/collaborative_agent.py:36-41 | the nested loops list exactly the unvisited in-grid cells of the box |
| CollaborativeVacuum.UnvisitedInQuadrant | act_6/src/agents/collaborative_agent.py:18-43 | empty without a (truthy) quadrant; otherwise exactly the unvisited in-grid cells of the quadrant box |
| CollaborativeVacuum.MoveTowards | act_6/src/agents/collaborative_agent.py:138-156 | the result is the position or an in-grid neighbour one closer to the target; the x step is taken whenever x differs and it stays in the grid; staying means neither step was possible |
| CollaborativeVacuum.MoveTowardsProgresses | act_6/src/agents/collaborative_agent.py:138-156 | between in-grid cells the agent stays put exactly when it is at the target |
| CollaborativeVacuum.Avoiding | act_6/src/agents/collaborative_agent.py:170-172 | exactly the moves not occupied by another agent |
| CollaborativeVacuum.CollaborativeMoveStaysInGrid | act_6/src/agents/collaborative_agent.py:114-173 | whatever the priority taken, the agent ends in the grid or where it stood |
| CollaborativeVacuum.CollaborativeAgent.constructor | act_6/src/agents/collaborative_agent.py:9-16 | the position as given, counters at 0, only the start visited, no dirt known, no quadrant, no other agents |
| CollaborativeVacuum.CollaborativeAgent.GetQuadrantDirtyCells | act_6/src/agents/collaborative_agent.py:45-67 | none without a (truthy) quadrant; otherwise exactly the known dirty cells inside the quadrant box |
| CollaborativeVacuum.CollaborativeAgent.GetUnvisitedCellsInQuadrant | act_6/src/agents/collaborative_agent.py:18-43 | the nested loops return exactly `UnvisitedInQuadrant` |
| CollaborativeVacuum.CollaborativeAgent.ScanColumn | act_6/src/agents/collaborative_agent.py:37-41 | the inner loop returns exactly `ColumnScan` of its column |
| CollaborativeVacuum.CollaborativeAgent.See | act_6/src/agents/collaborative_agent.py:69-76 | the own reading, the four neighbour readings in order, and no other agents (`_get_other_agents_positions` reports none) |
| CollaborativeVacuum.CollaborativeAgent.UpdateDirtyCells | act_6/src/agents/collaborative_agent.py:186-193 | each neighbour reading 1 is remembered as dirt, each reading 0 forgotten, each -1 left as it was, and no other cell changes |
| CollaborativeVacuum.CollaborativeAgent.Next | act_6/src/agents/collaborative_agent.py:78-86 | CLEAN exactly on a dirty reading, changing nothing; otherwise MOVE after taking in the other agents and the neighbour readings |
| CollaborativeVacuum.CollaborativeAgent.GetHelpMove | act_6/src/agents/collaborative_agent.py:158-173 | toward a nearest known dirty cell; without known dirt the picked free in-grid neighbour, or staying |
| CollaborativeVacuum.CollaborativeAgent.CollaborativeMove | act_6/src/agents/collaborative_agent.py:114-136 | toward a nearest known dirty cell of the quadrant; else toward the first nearest unvisited cell of the quadrant; else the help move |
| CollaborativeVacuum.CollaborativeAgent.AssignQuadrant | act_6/src/agents/collaborative_agent.py:211-229 | the quadrant of the current position, with the environment stored beside it |
| CollaborativeVacuum.CollaborativeAgent.MoveStep | act_6/src/agents/collaborative_agent.py:98-106 | a quadrant is taken when none (or quadrant 0) is set; the agent moves to the collaborative target, counts the move and records it as visited |
| CollaborativeVacuum.CollaborativeAgent.Action | act_6/src/agents/collaborative_agent.py:88-112 | CLEAN cleans the own cell, counts it and forgets it as dirt, keeping quadrant and environment; MOVE leaves the grid alone and performs `MoveStep`: an agent with a quadrant keeps it and its environment, one without takes the quadrant of its position and the given environment |
| GameTheory.PayoffMatrix.Add | act_integ/models/game_theory.py:38-39 | after storing an outcome for a pair, the pair is present and maps to exactly that outcome |
| GameTheory.AddStoresOrOverwrites | act_integ/models/game_theory.py:38-39 | `add_outcome` keeps the dictionary well formed, changes the outcome of the given pair and of no other, appends a new pair to the insertion order and leaves an existing pair in its place |
| GameTheory.TrafficGame.constructor | act_integ/models/game_theory.py:31-36 | name and player types as given, empty payoff dictionary, empty preference chain |
| GameTheory.TrafficGame.GetOutcome | act_integ/models/game_theory.py:41-42 | `None` exactly for a pair that was never added |
| GameTheory.TrafficGame.AddOutcome | act_integ/models/game_theory.py:38-39 | the matrix becomes the old one with the pair stored or overwritten, and stays well formed |
| GameTheory.TrafficGame.SetPreferenceChain | act_integ/models/game_theory.py:44-45 | the preference chain is replaced by the given list |
| GameTheory.Improves1Exact | act_integ/models/game_theory.py:60-65 | when every alternative row has an outcome, player 1's deviation scan succeeds and says true exactly when some other row gives player 1 strictly more |
| GameTheory.Improves2Exact | act_integ/models/game_theory.py:68-73 | the same for player 2 over the alternative columns |
| GameTheory.NoImprovement1 | act_integ/models/game_theory.py:60-65 | a scan that finds no improvement for player 1 means every other row exists and is no better for player 1 |
| GameTheory.NoImprovement2 | act_integ/models/game_theory.py:68-73 | the same for player 2 over the other columns |
| GameTheory.NashCheckExact | act_integ/models/game_theory.py:55-75 | on a complete matrix the test of one pair succeeds and answers exactly whether the pair is a pure Nash equilibrium |
| GameTheory.NashCheckSound | act_integ/models/game_theory.py:55-75 | on any matrix, a pair the test accepts is a pure Nash equilibrium |
| GameTheory.NashColsExact | act_integ/models/game_theory.py:53-76 | on a complete matrix the inner loop over a row succeeds and collects, without repetition, exactly the equilibria of that row among the scanned columns |
| GameTheory.NashRowsExact | act_integ/models/game_theory.py:52-76 | on a complete matrix the outer loop succeeds and collects, without repetition, exactly the equilibria of the scanned rows |
| GameTheory.NashExact | act_integ/models/game_theory.py:47-78 | on a complete matrix, for any iteration order of the two action sets, the result lists every pure Nash equilibrium exactly once and nothing else |
| GameTheory.NashColsSound | act_integ/models/game_theory.py:53-76 | on any matrix, every pair a successful inner loop collects is an equilibrium |
| GameTheory.NashSound | act_integ/models/game_theory.py:52-76 | on any matrix, every pair a successful scan returns is an equilibrium |
| GameTheory.ColsFailureExtends | act_integ/models/game_theory.py:60-73 | an error raised in a prefix of the inner loop ends the whole inner loop with that error |
| GameTheory.RowsFailureExtends | act_integ/models/game_theory.py:52-73 | an error raised in a prefix of the outer loop ends the whole scan with that error |
| GameTheory.TrafficGame.FindNashEquilibrium | act_integ/models/game_theory.py:47-78 | the loop returns the scan's result for the given iteration orders: the equilibria in scan order, or the error of a missing deviation |
| GameTheory.ParetoFilterMembers | act_integ/models/game_theory.py:80-108 | a pair is in the filtered list exactly when it is a key and no other outcome dominates it |
| GameTheory.TrafficGame.Undominated | act_integ/models/game_theory.py:86-103 | the inner loop answers true exactly when no other pair dominates the given one |
| GameTheory.TrafficGame.FindParetoOptimal | act_integ/models/game_theory.py:80-108 | the result is the undominated keys in insertion order |
| GameTheory.TrafficGame.FindMaximumSocialWelfare | act_integ/models/game_theory.py:110-120 | `(None, -inf)` on an empty matrix; otherwise the first key in insertion order whose welfare is maximal, with that welfare |
| GameTheory.MaxWelfareIsParetoOptimal | act_integ/models/game_theory.py:110-120 | the pair of maximal social welfare is never dominated, so it is Pareto optimal |
| GameCatalog.CreateVehicleIntersectionGame | act_integ/models/game_theory.py:124-151 | the game named "Vehicle Intersection" between two vehicles, with the four outcomes in the order they are added and the given preference chain |
| GameCatalog.CreatePedestrianVehicleGame | act_integ/models/game_theory.py:154-181 | the "Pedestrian Crossing" game between a pedestrian and a vehicle, with its four outcomes and preference chain |
| GameCatalog.CreateEmergencyRedLightGame | act_integ/models/game_theory.py:184-213 | the "Emergency at Red Light" game between a vehicle and a light, with its four outcomes and preference chain |
| GameCatalog.CreatePedestrianLightRequestGame | act_integ/models/game_theory.py:216-245 | the "Pedestrian Light Request" game between a pedestrian and a light, with its four outcomes and preference chain |
| GameCatalog.TwoByTwoActions | act_integ/models/game_theory.py:49-50 | a matrix over two rows and two columns has those as its action sets and is complete |
| GameCatalog.TwoByTwoDeviations | act_integ/models/game_theory.py:59-75 | in a two-by-two game a pair is an equilibrium exactly when the other row and the other column are no better for the deviating player |
| GameCatalog.TwoByTwo | act_integ/models/game_theory.py:47-78 | the four cases of a two-by-two game spelled out: which pairs are equilibria, in terms of the eight utilities |
| GameCatalog.VehicleGameContents | act_integ/models/game_theory.py:129-140 | the four `add_outcome` calls give a well-formed dictionary with exactly those pairs in that order |
| GameCatalog.VehicleGameEquilibria | act_integ/models/game_theory.py:47-78 | for any iteration order, the equilibria of the vehicle game are exactly (proceed, yield) and (yield, proceed) |
| GameCatalog.VehicleGameMaxWelfare | act_integ/models/game_theory.py:110-120 | the welfare maximum of the vehicle game is (proceed, yield), with welfare 7 |
| GameCatalog.PedestrianVehicleGameContents | act_integ/models/game_theory.py:159-170 | the pedestrian-vehicle dictionary holds its four pairs in the order added |
| GameCatalog.PedestrianVehicleGameEquilibria | act_integ/models/game_theory.py:47-78 | its equilibria are exactly (cross, brake) and (stop, proceed) |
| GameCatalog.PedestrianVehicleGameMaxWelfare | act_integ/models/game_theory.py:110-120 | its welfare maximum is (stop, proceed), with welfare 7 |
| GameCatalog.EmergencyGameContents | act_integ/models/game_theory.py:191-202 | the emergency dictionary holds its four pairs in the order added |
| GameCatalog.EmergencyGameEquilibria | act_integ/models/game_theory.py:47-78 | its only equilibrium is (run_light, change_green) |
| GameCatalog.EmergencyGameMaxWelfare | act_integ/models/game_theory.py:110-120 | its welfare maximum is (run_light, change_green), with welfare 10 |
| GameCatalog.LightRequestGameContents | act_integ/models/game_theory.py:223-234 | the light-request dictionary holds its four pairs in the order added |
| GameCatalog.LightRequestGameEquilibria | act_integ/models/game_theory.py:47-78 | its only equilibrium is (request, respond) |
| GameCatalog.LightRequestGameMaxWelfare | act_integ/models/game_theory.py:110-120 | its welfare maximum is (request, respond), with welfare 10 |
| GameScenarios.BetterForPlayer1Exact | act_integ/models/game_scenarios.py:33-37 | when every alternative row is in the dictionary, the first loop succeeds and finds an improvement exactly when some other listed action of player 1 pays player 1 strictly more |
| GameScenarios.BetterForPlayer2Exact | act_integ/models/game_scenarios.py:40-44 | the same for player 2 over the listed columns |
| GameScenarios.EquilibriumCheckExact | act_integ/models/game_scenarios.py:29-46 | when every listed pair has an outcome, the test of a listed pair succeeds and answers exactly whether it is an equilibrium |
| GameScenarios.IsNashEquilibrium | act_integ/models/game_scenarios.py:29-46 | the method's two early-exit loops give the test's answer, or the `KeyError` of a missing pair |
| GameScenarios.EquilibriaColsExact | act_integ/models/game_scenarios.py:24-26 | with every listed pair present, the inner loop collects exactly the equilibria of the row among the scanned columns |
| GameScenarios.EquilibriaRowsExact | act_integ/models/game_scenarios.py:20-27 | with every listed pair present, the scan collects exactly the equilibria among the listed actions |
| GameScenarios.ErrorMeansMissingPair | act_integ/models/game_scenarios.py:20-46 | the scan raises only when some pair of listed actions has no outcome |
| GameScenarios.ColsFailureExtends | act_integ/models/game_scenarios.py:24-26 | an error in a prefix of the inner loop ends the inner loop with that error |
| GameScenarios.RowsFailureExtends | act_integ/models/game_scenarios.py:23-26 | an error in a prefix of the outer loop ends the scan with that error |
| GameScenarios.GetNashEquilibria | act_integ/models/game_scenarios.py:20-27 | the nested loops return the scan over the listed actions in list order |
| GameScenarios.ScanRow | act_integ/models/game_scenarios.py:24-26 | the inner loop over the second player's actions gives the equilibria of one row in column order, or fails where a payoff is missing |
| GameScenarios.TwoColumns | act_integ/models/game_scenarios.py:24-26 | over two columns the inner loop yields the accepted pairs of the first column, then of the second |
| GameScenarios.TwoRows | act_integ/models/game_scenarios.py:23-26 | over two rows the scan yields the first row's equilibria followed by the second's |
| GameScenarios.VehicleVehicleEquilibria | act_integ/models/game_scenarios.py:50-63 | the vehicle-vehicle scenario's equilibria are (stop, proceed) then (proceed, stop) |
| GameScenarios.PedestrianVehicleEquilibria | act_integ/models/game_scenarios.py:64-77 | the pedestrian-vehicle scenario's equilibria are (wait, continue) then (cross, stop) |
| InteractionProtocols.InteractionProtocol.constructor | act_integ/models/interaction_protocols.py:27-31 | the given name, no participants, no messages, no states; the registry invariant holds |
| InteractionProtocols.InteractionProtocol.AddParticipant | act_integ/models/interaction_protocols.py:33-36 | a new participant is appended and starts in "initial"; a known one changes nothing; the registry invariant `Valid` (no duplicates, a state for exactly the participants) holds before and after |
| InteractionProtocols.AddParticipantKeepsRegistry | act_integ/models/interaction_protocols.py:33-36 | adding a participant keeps the list free of duplicates with a state for exactly the participants, registers the newcomer in "initial" and keeps everyone else's state |
| InteractionProtocols.AddParticipantIdempotent | act_integ/models/interaction_protocols.py:33-36 | adding the same participant twice is the same as adding it once |
| InteractionProtocols.InteractionProtocol.AddMessage | act_integ/models/interaction_protocols.py:38-39 | the message goes at the end of the list; earlier messages stay, in order |
| InteractionProtocols.AdjacentIncreaseSuffices | act_integ/models/interaction_protocols.py:72-103 | timestamps that increase from each message to the next increase along the whole list |
| InteractionProtocols.NegotiationWellFormed | act_integ/models/interaction_protocols.py:63-103 | the negotiation's registry is well formed, its messages go between its participants, and its timestamps strictly increase |
| InteractionProtocols.RegisterNegotiationParticipants | act_integ/models/interaction_protocols.py:68-69 | the two vehicles, in order, each in "initial" |
| InteractionProtocols.AddNegotiationMessages | act_integ/models/interaction_protocols.py:72-103 | the four negotiation messages, in order |
| InteractionProtocols.NewIntersectionNegotiation | act_integ/models/interaction_protocols.py:63-103 | the "Intersection Negotiation" protocol with its participants, states and messages, well formed |
| InteractionProtocols.VotingWellFormed | act_integ/models/interaction_protocols.py:106-169 | the same well-formedness for the voting protocol |
| InteractionProtocols.RegisterVotingParticipants | act_integ/models/interaction_protocols.py:111-113 | the two pedestrians and the light, in order, each in "initial" |
| InteractionProtocols.VotingRegistrySteps | act_integ/models/interaction_protocols.py:111-113 | the registry after each of the vote's three `add_participant` calls: each name is new, so it is appended and starts in "initial" |
| InteractionProtocols.AddVotingMessages | act_integ/models/interaction_protocols.py:116-169 | the six voting messages, in order |
| InteractionProtocols.NewPedestrianLightVoting | act_integ/models/interaction_protocols.py:106-169 | the "Pedestrian Light Voting" protocol with its participants, states and messages, well formed |
| InteractionProtocols.AuctionWellFormed | act_integ/models/interaction_protocols.py:172-236 | the same well-formedness for the auction protocol |
| InteractionProtocols.RegisterAuctionParticipants | act_integ/models/interaction_protocols.py:177-180 | the emergency vehicle, the two regular vehicles and the light, in order, each in "initial" |
| InteractionProtocols.AuctionRegistrySteps | act_integ/models/interaction_protocols.py:177-180 | the registry after each of the auction's four `add_participant` calls: each name is new, so it is appended and starts in "initial" |
| InteractionProtocols.AddAuctionMessages | act_integ/models/interaction_protocols.py:183-236 | the six auction messages, in order |
| InteractionProtocols.NewEmergencyVehicleAuction | act_integ/models/interaction_protocols.py:172-236 | the "Emergency Vehicle Auction" protocol with its participants, states and messages, well formed |
| WealthRules.Next | act_4/src/agentes/saving_agent.py:22-45 | the nested loop over the actions and the rules picks transfer exactly when wealth is above 5 with a partner, save exactly when wealth is at most 5, and nothing otherwise |
| WealthRules.NextDecides | act_4/src/agentes/saving_agent.py:22-45 | the first action accepted by some rule, as a decision table over wealth and partner |
| SavingAgents.OtherAgents | act_4/src/agentes/saving_agent.py:17 | the candidates are agents of the list with another id, and every such agent is a candidate |
| SavingAgents.SavingAgent.constructor | act_4/src/agentes/saving_agent.py:7-13 | the drawn initial wealth, in 1..9, and no partner |
| SavingAgents.SavingAgent.See | act_4/src/agentes/saving_agent.py:15-20 | the partner becomes the drawn candidate, an agent other than itself; with no candidate it stays as it was |
| SavingAgents.SavingAgent.TransferWealth | act_4/src/agentes/saving_agent.py:47-54 | with a partner and positive wealth one unit moves to the partner; otherwise nothing changes; the pair's total is kept and wealth never goes below 0 |
| SavingAgents.SavingAgent.Action | act_4/src/agentes/saving_agent.py:30-33 | only a transfer changes any wealth, and it changes it as the transfer does |
| SavingAgents.SavingAgent.Step | act_4/src/agentes/saving_agent.py:60-64 | after perceiving, one unit goes to the new partner exactly when wealth was above 5; the pair's total is kept, no other agent's wealth (the old partner's included) changes, and a step never takes non-negative wealth below 0 |
| DeductiveAgents.SavingAgent.constructor | act_4/src/agentes/deductive_agent.py:10-15 | the drawn initial wealth, in 1..9, and no partner |
| DeductiveAgents.SavingAgent.See | act_4/src/agentes/deductive_agent.py:17-20 | the partner becomes the drawn agent, which may be the agent itself |
| DeductiveAgents.SavingAgent.TransferWealth | act_4/src/agentes/deductive_agent.py:47-52 | with a partner other than itself one unit moves to it, whatever the wealth; to itself nothing changes; the pair's total is kept |
| DeductiveAgents.SavingAgent.Action | act_4/src/agentes/deductive_agent.py:30-33 | only a transfer changes any wealth, and it changes it as the transfer does |
| DeductiveAgents.SavingAgent.Step | act_4/src/agentes/deductive_agent.py:58-62 | one unit goes to a partner other than itself exactly when wealth was above 5, so a step never takes wealth from above 5 to below 5; the pair's total is kept and no other agent's wealth changes |
| HybridAgents.React | act_5/hybrid_agent.py:17-20 | the reactive layer saves exactly when wealth is below 3 and proposes nothing otherwise |
| HybridAgents.Deliberate | act_5/hybrid_agent.py:22-25 | the deliberative layer transfers exactly when a partner is set and wealth is above 5 |
| HybridAgents.IntegrateDecides | act_5/hybrid_agent.py:27-32 | the combined decision saves below 3, transfers above 5 with a partner, does nothing otherwise, and the reactive layer wins whenever it proposes something |
| HybridAgents.HybridAgent.constructor | act_5/hybrid_agent.py:7-10 | the drawn initial wealth, in 1..9, and no partner |
| HybridAgents.HybridAgent.See | act_5/hybrid_agent.py:12-15 | the partner becomes the drawn agent, which may be the agent itself |
| HybridAgents.HybridAgent.TransferWealth | act_5/hybrid_agent.py:34-39 | with a partner other than itself one unit moves to it; the pair's total is kept |
| HybridAgents.HybridAgent.Step | act_5/hybrid_agent.py:45-50 | one unit goes to a partner other than itself exactly when wealth was above 5; the pair's total is kept, no other agent's wealth changes, and wealth above 5 never drops below 5 |
| WealthBdiAgents.IntentionsOneToOne | act_general/act_4/src/agentes/wealth_bdi_agent.py:40-47 | for desires that all name an action, there is one intention per desire, the one it names, in the same order |
| WealthBdiAgents.OtherAgents | act_general/act_4/src/agentes/wealth_bdi_agent.py:22 | the candidates are agents of the list with another id, and every such agent is a candidate |
| WealthBdiAgents.WealthBDIAgent.constructor | act_general/act_4/src/agentes/wealth_bdi_agent.py:6-17 | the drawn wealth, in 1..10, believed as it is; no partner, desires, intentions or plan |
| WealthBdiAgents.WealthBDIAgent.Perceive | act_general/act_4/src/agentes/wealth_bdi_agent.py:19-26 | with another agent to choose, the partner becomes one of the others and the belief about wealth is brought up to date; otherwise both beliefs stay |
| WealthBdiAgents.WealthBDIAgent.Deliberate | act_general/act_4/src/agentes/wealth_bdi_agent.py:28-38 | at most one desire: to transfer exactly when the believed wealth is above 3 with a partner, to save exactly when it is at most 3, none otherwise |
| WealthBdiAgents.WealthBDIAgent.FilterIntentions | act_general/act_4/src/agentes/wealth_bdi_agent.py:40-47 | the intentions are those the desires name, in order |
| WealthBdiAgents.WealthBDIAgent.TransferWealth | act_general/act_4/src/agentes/wealth_bdi_agent.py:58-66 | with a partner and positive wealth one unit moves to the partner and the belief follows; otherwise nothing changes; the pair's total is kept |
| WealthBdiAgents.WealthBDIAgent.Execute | act_general/act_4/src/agentes/wealth_bdi_agent.py:49-56 | the head of the plan runs, or with an empty plan the first intention; only a transfer changes wealth, and exactly as the transfer does: one unit to a partner other than itself when the wealth is positive, with the belief resynchronised to the new wealth; a transfer that cannot pay leaves the belief and the partner's wealth as they were |
| WealthBdiAgents.WealthBDIAgent.Step | act_general/act_4/src/agentes/wealth_bdi_agent.py:72-77 | after perceiving, one unit goes to a partner other than itself exactly when the believed wealth is above 3 and the wealth is positive, and otherwise the partner's wealth is unchanged; the pair's total is kept and no other agent's wealth (the old partner's included) changes; the desires are transfer, save or none as deliberation decides, no intention is left, the belief is the perceived one or the new wealth after a transfer, and the plan ends empty |
| PracticalAgents.PracticalAgent.constructor | act_4/src/agentes/practical_agent.py:8-16 | believed wealth 1, no partner, and nothing desired, intended or planned |
| PracticalAgents.PracticalAgent.Perceive | act_4/src/agentes/practical_agent.py:18-21 | the partner becomes the drawn agent, which may be the agent itself |
| PracticalAgents.PracticalAgent.Deliberate | act_4/src/agentes/practical_agent.py:23-27 | the single transfer desire exactly when the believed wealth is positive and a partner is set, no desire otherwise |
| PracticalAgents.PracticalAgent.FilterIntentions | act_4/src/agentes/practical_agent.py:29-33 | the transfer intention exactly when it is desired |
| PracticalAgents.PracticalAgent.TransferWealth | act_4/src/agentes/practical_agent.py:52-57 | with a partner other than itself one unit of believed wealth moves to it; the pair's total is kept |
| PracticalAgents.PracticalAgent.Execute | act_4/src/agentes/practical_agent.py:35-43 | the head of the plan runs, or with an empty plan the last intention; only a transfer changes wealth, and exactly as the transfer does |
| PracticalAgents.PracticalAgent.Step | act_4/src/agentes/practical_agent.py:45-50 | one unit goes to a partner other than itself exactly when the believed wealth is positive, and otherwise the partner's belief is unchanged, so a step never takes it below 0; the pair's total is kept and no other agent's believed wealth changes; the desire is to transfer exactly when the believed wealth was positive, no intention is left and the plan ends empty |
| Act7Messages.Lookup | act_general/act7/cheatingAgent.py:21 | `content["coins"]` finds a value exactly when some entry has that key, and the value found is that of such an entry; a missing key gives `None`, where Python raises |
| Act7Messages.IntToStringRoundTrip | act7/message.py:14-15 | the decimal rendering of an id used in `__str__` parses back to the same integer, negative ones included |
| Act7Messages.IntToStringHasNoComma | act7/message.py:14-15 | a rendered id contains no comma, so it cannot run into the separator that follows it |
| Act7Messages.ToStringDeterminesIds | act7/message.py:14-15 | two messages with the same string rendering have the same sender and the same receiver |
| Act7Messages.DictRepr | act7/message.py:15 | the content renders between braces, as `{}` exactly when it has no entries; each entry starts with its key's opening quote |
| Act7Messages.Message.ToString | act7/message.py:14-15 | the rendering starts with `Sender: ` and ends with the closing brace of the content |
| Act7Messages.Message.constructor | act7/message.py:8-12 | sender, receiver, performative and content as given |
| Act7Messages.Message.Send | act7/message.py:17-19 | the message goes at the end of the shared buffer; what was there stays, in order |
| Act7Messages.MessageBuffer.constructor | act7/message.py:6 | the shared buffer starts empty |
| CheatingAgents.TakeKeepsOtherMessages | act_general/act7/cheatingAgent.py:14-22 | collecting adds nothing to the buffer and keeps every message that is not a transfer addressed to the agent |
| CheatingAgents.ZeroTransfersKeepWealth | act_general/act7/cheatingAgent.py:14-22 | when every transfer to the agent carries 0 coins, collecting finishes without error and leaves the wealth as it was |
| CheatingAgents.MissingCoinsStops | act_general/act7/cheatingAgent.py:20-21 | a transfer without a "coins" entry stops the loop with the error, the buffer and the wealth unchanged |
| CheatingAgents.SecondTransferIsSkipped | act_general/act7/cheatingAgent.py:18-22 | of two successive transfers to the agent only the first is collected: removing it makes the iterator step past the second, which stays in the buffer |
| CheatingAgents.CheatingAgent.constructor | act_general/act7/cheatingAgent.py:10-12 | the drawn wealth, in 1..9, and no partner |
| CheatingAgents.CheatingAgent.TakeMsg | act_general/act7/cheatingAgent.py:14-22 | the loop leaves the buffer, the wealth and the error flag that the iterator-exact collection gives |
| CheatingAgents.CheatingAgent.SendMsg | act_general/act7/cheatingAgent.py:24-29 | a new message from this agent with the given receiver, performative and content goes at the end of the buffer |
| CheatingAgents.CheatingAgent.Step | act_general/act7/cheatingAgent.py:31-38 | the wealth is what collection gives; without an error, with wealth above 5 and a partner, one transfer of 0 coins to the partner is appended and the wealth is kept; otherwise the buffer is what collection left |
| ContractNet.Message.constructor | act_general/act_9/message.py:7-11 | sender, receiver, performative and content as given |
| ContractNet.Message.Send | act_general/act_9/message.py:13-19 | the message goes at the end of the shared buffer; what was there stays, in order |
| ContractNet.MessageBuffer.constructor | act_general/act_9/message.py:5 | the shared buffer starts empty |
| ContractNet.OthersExact | act_9/wealthAgent.py:61 | the potential receivers are exactly the agents of the list other than the manager itself |
| ContractNet.ProposalsExact | act_9/wealthAgent.py:71 | the proposals are exactly the messages of the buffer addressed to the manager with performative "propose" |
| ContractNet.BestIndexIsFirstMinimum | act_9/wealthAgent.py:73 | `min` by cost picks a proposal of least cost, and no earlier proposal has that cost |
| ContractNet.AnswersAreNotTriggers | act_9/wealthAgent.py:85-95 | a proposal or a report is never a message a worker answers, so the answers a worker appends during its pass trigger nothing |
| ContractNet.PassConserves | act_9/wealthAgent.py:42-51 | over a pass the worker loses exactly what it pays out, never goes below 0 from a non-negative start, and never pays itself |
| ContractNet.NoAcceptanceNoPayment | act_9/wealthAgent.py:85-95 | a pass over messages with no acceptance addressed to the worker moves no wealth, neither its own nor any receiver's |
| ContractNet.PassFailureExtends | act_9/wealthAgent.py:85-95 | once a non-task content stops a pass, later messages change neither the worker's wealth nor any payment |
| ContractNet.PassStep | act_9/wealthAgent.py:85-95 | one more message in a running pass: an acceptance the worker can afford, for another receiver, moves its amount; any other message it answers moves nothing; non-task content stops the pass |
| ContractNet.WealthAgent.constructor | act_9/wealthAgent.py:11-15 | the drawn wealth, in 1..9, the role "worker" and no tasks |
| ContractNet.WealthAgent.EvaluateTask | act_9/wealthAgent.py:26-32 | the cost is the absolute difference between the amount and the wealth: never negative, and zero exactly when they are equal |
| ContractNet.WealthAgent.CallForProposals | act_9/wealthAgent.py:17-24 | one call for proposals carrying the task to each other agent, in the agents' order, appended after the existing messages |
| ContractNet.WealthAgent.SendProposal | act_9/wealthAgent.py:34-40 | one proposal to the manager carrying this agent's cost for the task, appended at the end |
| ContractNet.WealthAgent.PerformTask | act_9/wealthAgent.py:42-51 | with wealth at least the amount it moves to the receiver, otherwise nothing changes; the pair's total is kept and the wealth never becomes negative |
| ContractNet.WealthAgent.Announce | act_9/wealthAgent.py:59-68 | a manager without tasks records one task for the picked other agent and announces it to every other agent; with no other agent it fails and changes nothing |
| ContractNet.WealthAgent.Award | act_9/wealthAgent.py:69-81 | with proposals, the first cheapest leaves the buffer, its sender gets an acceptance carrying the oldest task and that task is dropped; without proposals nothing changes; an unreadable cost fails before any change |
| ContractNet.WealthAgent.Respond | act_9/wealthAgent.py:85-95 | a call for proposals is answered with a proposal and moves no wealth; an acceptance is answered with a "Task completed" report after paying the amount to the receiver exactly when the worker can afford it and the receiver is another agent; anything else gets nothing; non-task content fails |
| ContractNet.WealthAgent.Work | act_9/wealthAgent.py:83-95 | the buffer only grows; everything appended is an answer from this worker, and without error exactly one answer per message it answers, in their order; the worker's wealth and success are those of the pass `PassWealth`, each receiver gains what `PassPaidTo` says, and wealth never becomes negative |
| ContractNet.WealthAgent.AnswerTriggers | act_9/wealthAgent.py:85-95 | over the messages present at the start, one answer per message it answers, appended in their order after the untouched old buffer, unless a content fails; wealth and success follow `PassWealth` and each receiver gains what `PassPaidTo` says; wealth never becomes negative |
| ContractNet.WealthAgent.AnswerStep | act_9/wealthAgent.py:85-95 | answering the next message present at the start extends the answered prefix by one, unless its content fails, and moves wealth as one more step of `PassWealth` and `PassPaidTo` |
| ContractNet.WealthAgent.PassOverAnswers | act_9/wealthAgent.py:85-86 | the iterator passing over the worker's own appended answers changes neither the buffer nor the wealth |
| ContractNet.WealthAgent.Step | act_9/wealthAgent.py:53-95 | a manager's and every receiver's wealth never change; with no tasks it announces one task of the given amount for another agent to every other agent, otherwise it awards the oldest task to the cheapest proposal as `Award` says; a worker keeps its tasks and does what `Work` says, payments included |
| Lists.IndexOf | act_general/act7/cheatingAgent.py:22 | the position `list.remove` acts on: an occurrence of the element with none before it |
| Lists.RemoveFirst | act_general/act7/cheatingAgent.py:22 | `list.remove` drops exactly one copy of the element (as a multiset), the one at its first position: the elements before it and after it keep their order |

## Left out

- Rendering and windowing have no behaviour to state: the OpenGL, GLUT and pygame `draw` code, `act_integ/environment/city.py`, `m4/environment.py`, `m4/objects/*`, `act_integ/objects/car.py`, `act_integ/objects/house.py` and the `main.py` drivers. So are the colours (`_get_personality_color` and the vehicle colours).
- OBJ model loading (`act_integ/models/agents.py:34-40`) is a call into a foreign library.
- The graphviz diagrams of the protocols (`act_integ/models/interaction_protocols.py:41-60`, `:239-250`) are file output.
- `act_integ/models/game_analysis.py`, the Gini coefficients and the matplotlib plots are floating-point statistics and I/O.
- The agentpy scaffolding and run scripts are glue: `m4/model.py`, `act_general/act_9/wealthModel.py`, `act_9/main.py`, `act_4/run_simulation.py`, `act_general/act_4/src/wealth_simulation.py`, `act_general/act7/model.py` and the act_6 main scripts.
- The owlready2 ontology is left out:
  - `act_6/src/ontology.py`, `act_6/src/query_ontology.py` and the explore, visualise and analyse scripts;
  - the ontology updates inside the agents' actions;
  - `act_6/src/simulation.py`, whose loop runs through the ontology.
- `act_general/act_6/src/agents/base.py` contributes only the counters, which the agents' constructors start at zero.
- `print` calls have no behaviour to state.
- Clocks are inputs:
  - `time.time()` in the city traffic light becomes the parameter `now`;
  - the `pygame.time.get_ticks()` bookkeeping of the m3 light is dropped, since no decision reads it.
- Random draws are parameters; no random generator is modelled:
  - the spawn heading, lane and interval of the city vehicles;
  - the pedestrian's spawn point, personality and impulsive-crossing draw;
  - each `random.choice` and `self.model.agents.random()`, which becomes the entry at `pick` modulo the number of candidates;
  - the initial wealth, which a constructor precondition keeps to 1..9 for `np.random.randint(1, 10)` and to 1..10 for `random.randint(1, 10)`;
  - the contract-net task amount (1..4) and its receiver.
- The square-root-normalised step toward a waypoint (`act_integ/models/pedestrian.py:243-246`, `act_integ/models/agents.py:160-163`) is float geometry. The caller supplies the step vector, and a precondition pins it down exactly: its length is the speed, and it points the same way as the waypoint. Only the arrive-or-step decision, on squared distance, is computed.
- Floating point is not modelled: coordinates, speeds, utilities and timestamps are exact reals.
- Of the vehicle profile tables (`act_integ/models/vehicles.py`, `m4/vehicles.py`), only the AUTO constants used by the city vehicles are modelled.
- `GameTheory.TrafficGame.FindNashEquilibrium`: the iteration order of Python's action sets is a parameter. Any order that lists each action exactly once is allowed, so the result is stated as a set of pairs, plus the absence of duplicates, and not as one specific list.
- `Act7Messages.DictRepr` puts every key between single quotes, unescaped. Python's `repr` escapes backslashes and unprintable characters, and it uses double quotes for a key that holds a single quote. A `Content` may also repeat a key, which a dictionary cannot. So the rendering is Python's only for distinct keys free of quotes, backslashes and unprintable characters.
- `GameOutcome.social_welfare` is the definition `u1 + u2`, used by every welfare search. It has no contract of its own.
- The pedestrian's `should_wait` (`act_integ/models/pedestrian.py:201-208`) is never called by `move`, so it is not modelled.
- `_get_other_agents_positions` (`act_6/src/agents/collaborative_agent.py:195-200`) always returns the empty set, so the avoidance filter in the collaborative agent keeps every candidate move; the model keeps every candidate move too.
- `Vehicle2Agent.Vehicle2.Update` takes the light's colour as the `green` parameter instead of calling `traffic_light.is_green()` (`m3/vehicle2.py:45`), because that light class is not part of this model.
- The environment's `get_dimensions` and `get_grid` are not modelled. They are copies of the fields, and `grid` is already a value here.
- The class-level shared state becomes explicit objects that the methods take as parameters: the message buffers (`MessageBuffer`), the m3 light registry, and the city model's lists.
- Aliasing between Python objects is ruled out by preconditions where the source relies on it implicitly:
  - `CityTraffic.TrafficModel.Step`, `CityTraffic.TrafficModel.Tick`, `CityTraffic.Survivors` and `CityTraffic.MoveAll` require lists of distinct vehicles and distinct lights.
  - `PairedLight.TrafficLight.Update` requires a partner other than itself.
  - `PairedLight.TrafficLight.SetOtherLight` and `PairedLight.TrafficLight.Update` require the partner to hold the same registry: in the source the registry is one class attribute, shared by every light.
- Preconditions stand for places where Python would raise:
  - `PairedLight.TrafficLight.Update` requires a partner in exactly the branches where the source dereferences a missing one (`None.state`).
  - `Vehicle2Agent.Vehicle2.Update` and `Vehicle2Agent.Vehicle2.RequestGreen` require the light object the source dereferences.
  - `Lists.IndexOf` and `Lists.RemoveFirst` require the element to be present (`list.index` and `list.remove` raise `ValueError` otherwise).
  - `DeductiveAgents.SavingAgent.See`, `HybridAgents.HybridAgent.See` and `PracticalAgents.PracticalAgent.Perceive` require a non-empty agent list, for which `random.choice` would raise; the agent itself is always in the list.
- The vacuum environment is modelled with `width == height` (`VacuumWorld`). The source builds `height` rows of `width` entries but indexes them `grid[x][y]`, and this is the only shape where every position it treats as valid is also in range. The drawn dirty positions must lie in the grid.
- `WealthBdiAgents.WealthBDIAgent.Step` and `PracticalAgents.PracticalAgent.Step` require an empty plan at the start of the step, which is what every step leaves behind.
- `ContractNet.WealthAgent.Award` requires a pending task, the only branch of `step` that calls it.
- The `InteractionProtocols` registration and message steps require a freshly built protocol. They are the successive steps of the three protocol constructors.
