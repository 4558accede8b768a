/**
 * The fixed three-phase light of the 3-D city (act_integ/objects/traffic_light.py):
 * RED for 10 s, then GREEN for 8 s, then YELLOW for 3 s, then RED again.  The
 * wall clock `time.time()` is a parameter `now` of the constructor and of `Update`.
 */
module CycleLight {

  datatype LightState = Red | Yellow | Green

  /** Which traffic stream a light governs. */
  datatype Axis = NS | EW

  /** `self.timings`, in seconds. */
  function Timing(s: LightState): (t: real)
    ensures t > 0.0
  {
    match s
    case Red => 10.0
    case Yellow => 3.0
    case Green => 8.0
  }

  /** `_change_state`: RED -> GREEN, GREEN -> YELLOW, anything else (YELLOW) -> RED. */
  function ChangeState(s: LightState): (r: LightState)
    ensures r != s
    ensures s == Green ==> r == Yellow
    ensures r == Green <==> s == Red
  {
    if s == Red then Green else if s == Green then Yellow else Red
  }

  /** `is_red`: vehicles must stop on RED and on YELLOW. */
  predicate StopRequired(s: LightState) {
    s == Red || s == Yellow
  }

  lemma StopRequiredExactlyWhenNotGreen(s: LightState)
    ensures StopRequired(s) <==> s != Green
    ensures !StopRequired(s) <==> s == Green
  {
  }

  /** Three changes return to the start, and GREEN reaches RED only through YELLOW. */
  lemma ChangeStateCycles(s: LightState)
    ensures ChangeState(ChangeState(ChangeState(s))) == s
    ensures ChangeState(s) != Red || s == Yellow
  {
  }

  /** The state reached from `s` after `k` changes. */
  function ChangeTimes(s: LightState, k: nat): LightState {
    if k == 0 then s else ChangeState(ChangeTimes(s, k - 1))
  }

  /** The cycle has period three. */
  lemma {:induction false} ChangeTimesPeriodic(s: LightState, k: nat)
    ensures ChangeTimes(s, k + 3) == ChangeTimes(s, k)
  {
    if k == 0 {
      assert ChangeTimes(s, 3) == ChangeState(ChangeTimes(s, 2));
      assert ChangeTimes(s, 2) == ChangeState(ChangeTimes(s, 1));
      ChangeStateCycles(s);
    } else {
      ChangeTimesPeriodic(s, k - 1);
    }
  }

  /**
   * One `update` at `now` takes the light from `before` to `after` (state, start
   * time): once the current state's timing has elapsed it changes state and
   * restarts its timer at `now`, otherwise nothing changes.
   */
  predicate UpdatedAt(before: (LightState, real), after: (LightState, real), now: real) {
    var expired := now - before.1 >= Timing(before.0);
    && (expired ==> after == (ChangeState(before.0), now))
    && (!expired ==> after == before)
  }

  /** The state after a run of `update` calls at the given clock readings, with the start time. */
  function Run(s: LightState, start: real, clock: seq<real>): (r: (LightState, real, nat))
    ensures r.2 <= |clock|
    ensures r.0 == ChangeTimes(s, r.2)
    decreases |clock|
  {
    if clock == [] then (s, start, 0)
    else
      var now := clock[0];
      var (s', start') := if now - start >= Timing(s) then (ChangeState(s), now) else (s, start);
      var rest := Run(s', start', clock[1..]);
      ChangeTimesShift(s, rest.2, now - start >= Timing(s));
      (rest.0, rest.1, rest.2 + (if now - start >= Timing(s) then 1 else 0))
  }

  /**
   * `Run` is what successive `update` calls do: a light taken through states
   * `trace`, one `UpdatedAt` step per clock reading, ends where `Run` says.
   */
  lemma {:induction false} RunFollowsUpdates(clock: seq<real>, trace: seq<(LightState, real)>)
    requires |trace| == |clock| + 1
    requires forall i :: 0 <= i < |clock| ==> UpdatedAt(trace[i], trace[i + 1], clock[i])
    ensures var r := Run(trace[0].0, trace[0].1, clock); (r.0, r.1) == trace[|clock|]
    decreases |clock|
  {
    if clock != [] {
      assert UpdatedAt(trace[0], trace[1], clock[0]);
      RunFollowsUpdates(clock[1..], trace[1..]);
    }
  }

  lemma {:induction false} ChangeTimesShift(s: LightState, k: nat, changed: bool)
    ensures ChangeTimes(if changed then ChangeState(s) else s, k) == ChangeTimes(s, k + if changed then 1 else 0)
  {
    if changed && k > 0 {
      ChangeTimesShift(s, k - 1, changed);
    }
  }

  class TrafficLight {
    var x: real
    var z: real
    var currentState: LightState
    var stateStartTime: real
    var controlsDirection: Axis

    /** A new light stands at the origin, is RED since `now` and controls the north-south stream. */
    constructor (now: real)
      ensures x == 0.0 && z == 0.0
      ensures currentState == Red && stateStartTime == now && controlsDirection == NS
    {
      x, z := 0.0, 0.0;
      currentState := Red;
      stateStartTime := now;
      controlsDirection := NS;
    }

    /**
     * `update`: when the time spent in the current state has reached its timing,
     * change state once and restart the timer at `now`; otherwise nothing changes.
     */
    method Update(now: real)
      modifies this`currentState, this`stateStartTime
      ensures UpdatedAt((old(currentState), old(stateStartTime)), (currentState, stateStartTime), now)
    {
      var elapsed := now - stateStartTime;
      if elapsed >= Timing(currentState) {
        ChangeStateNow();
        stateStartTime := now;
      }
    }

    /** `_change_state`, applied to the field. */
    method ChangeStateNow()
      modifies this`currentState
      ensures currentState == ChangeState(old(currentState))
    {
      if currentState == Red {
        currentState := Green;
      } else if currentState == Green {
        currentState := Yellow;
      } else {
        currentState := Red;
      }
    }

    /** `is_red`. */
    predicate IsRed() reads this {
      StopRequired(currentState)
    }
  }
}
