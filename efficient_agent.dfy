/**
 * The dirt-seeking vacuum agent (act_6/src/agents/efficient_agent.py): it
 * remembers the neighbours it has seen dirty and heads diagonally for the
 * nearest of them; without such a target it explores the first unvisited
 * neighbour, and else takes a picked in-grid neighbour (`random.choice`, the
 * entry at `pick` modulo the number of candidates).
 */
module EfficientVacuum {
  import opened Wrappers
  import opened VacuumWorld
  import opened VacuumMoves

  /** One step of each coordinate toward `t`. */
  function SignStep(p: Cell, t: Cell): Cell {
    (p.0 + Sign(t.0 - p.0), p.1 + Sign(t.1 - p.1))
  }

  /** A sign step between two in-grid cells stays in the grid, and gets closer unless already there. */
  lemma SignStepStaysInGrid(width: int, height: int, p: Cell, t: Cell)
    requires InBounds(width, height, p) && InBounds(width, height, t)
    ensures InBounds(width, height, SignStep(p, t))
    ensures p != t ==> Manhattan(SignStep(p, t), t) < Manhattan(p, t)
  {
  }

  /** The neighbours the four readings report dirty. */
  function ReportedDirty(p: Cell, readings: seq<int>): set<Cell>
    requires |readings| >= 4
  {
    set k | 0 <= k < 4 && readings[k] == 1 :: Shift(p, ORTHOGONAL[k])
  }

  /** Exploring: the first unvisited in-grid neighbour; else the picked in-grid neighbour; else staying. */
  function Explore(width: int, height: int, p: Cell, visited: set<Cell>, pick: nat): Cell {
    match FirstUnvisited(width, height, p, ORTHOGONAL, visited)
    case Some(c) => c
    case None =>
      var moves := InGridShifts(width, height, p, ORTHOGONAL);
      if moves == [] then p else moves[pick % |moves|]
  }

  /**
   * `target` is a result `_efficient_move` may give from `p`: with known dirt,
   * the sign step toward some nearest dirty cell when it stays in the grid;
   * otherwise, and without known dirt, the exploring move.
   */
  predicate IsEfficientMove(width: int, height: int, p: Cell, dirty: set<Cell>, visited: set<Cell>, pick: nat, target: Cell) {
    var fallback := Explore(width, height, p, visited, pick);
    if dirty == {} then target == fallback
    else exists t :: t in dirty && IsNearest(t, dirty, p) && target == (if InBounds(width, height, SignStep(p, t)) then SignStep(p, t) else fallback)
  }

  /** The agent always ends in the grid or where it stood. */
  lemma EfficientMoveStaysInGrid(width: int, height: int, p: Cell, dirty: set<Cell>, visited: set<Cell>, pick: nat, target: Cell)
    requires IsEfficientMove(width, height, p, dirty, visited, pick, target)
    ensures target == p || InBounds(width, height, target)
  {
    FirstUnvisitedFinds(width, height, p, ORTHOGONAL, visited);
  }

  /**
   * When the agent stands in the grid and knows only in-grid dirt, the sign
   * step never fails: it always heads for a nearest dirty cell.
   */
  lemma EfficientMoveHeadsForNearestDirt(width: int, height: int, p: Cell, dirty: set<Cell>, visited: set<Cell>, pick: nat, target: Cell)
    requires IsEfficientMove(width, height, p, dirty, visited, pick, target)
    requires InBounds(width, height, p) && dirty != {}
    requires forall c :: c in dirty ==> InBounds(width, height, c)
    ensures exists t :: IsNearest(t, dirty, p) && target == SignStep(p, t)
  {
    var fallback := Explore(width, height, p, visited, pick);
    var t :| t in dirty && IsNearest(t, dirty, p) && target == (if InBounds(width, height, SignStep(p, t)) then SignStep(p, t) else fallback);
    SignStepStaysInGrid(width, height, p, t);
    assert target == SignStep(p, t);
  }

  /** Readings taken from the grid report only in-grid cells dirty, so the remembered dirt stays in the grid. */
  lemma ReportedDirtIsInGrid(env: Environment, p: Cell, readings: seq<int>)
    requires env.Valid() && |readings| == 4
    requires forall k :: 0 <= k < 4 ==> readings[k] == env.GetCellState(Shift(p, ORTHOGONAL[k]))
    ensures forall c :: c in ReportedDirty(p, readings) ==> InBounds(env.width, env.height, c) && c in env.dirtyCells
  {
  }

  class EfficientAgent {
    var position: Cell
    var movesCount: int
    var cellsCleaned: int
    var visitedCells: set<Cell>
    /** The dirty cells the agent knows of. */
    var dirtyCells: set<Cell>

    constructor (position: Cell)
      ensures this.position == position && movesCount == 0 && cellsCleaned == 0
      ensures visitedCells == {position} && dirtyCells == {}
    {
      this.position := position;
      movesCount := 0;
      cellsCleaned := 0;
      visitedCells := {position};
      dirtyCells := {};
    }

    /** `see`: the own reading and the four neighbour readings. */
    method See(env: Environment) returns (perception: Perception)
      requires env.Valid()
      ensures perception.current == env.GetCellState(position)
      ensures |perception.surroundings| == 4 && perception.otherAgents == {}
      ensures forall k :: 0 <= k < 4 ==> perception.surroundings[k] == env.GetCellState(Shift(position, ORTHOGONAL[k]))
    {
      var surroundings := GetSurroundings(env, position, ORTHOGONAL);
      perception := Perception(env.GetCellState(position), surroundings, {});
    }

    /**
     * `next`: CLEAN on a dirty reading, leaving the memory alone; else MOVE,
     * after remembering every neighbour that reads dirty (none is forgotten).
     */
    method Next(perception: Perception) returns (a: ActionType)
      requires |perception.surroundings| >= 4
      modifies this`dirtyCells
      ensures a == NextAction(perception.current)
      ensures a == Clean ==> dirtyCells == old(dirtyCells)
      ensures a == Move ==> dirtyCells == old(dirtyCells) + ReportedDirty(position, perception.surroundings)
    {
      if perception.current == 1 {
        return Clean;
      }
      var i := 0;
      while i < 4
        invariant 0 <= i <= 4
        invariant dirtyCells == old(dirtyCells) + set k | 0 <= k < i && perception.surroundings[k] == 1 :: Shift(position, ORTHOGONAL[k])
      {
        ghost var before := set k | 0 <= k < i && perception.surroundings[k] == 1 :: Shift(position, ORTHOGONAL[k]);
        var c := (position.0 + ORTHOGONAL[i].0, position.1 + ORTHOGONAL[i].1);
        if perception.surroundings[i] == 1 {
          dirtyCells := dirtyCells + {c};
        }
        assert (set k | 0 <= k < i + 1 && perception.surroundings[k] == 1 :: Shift(position, ORTHOGONAL[k]))
            == before + (if perception.surroundings[i] == 1 then {c} else {});
        i := i + 1;
      }
      return Move;
    }

    /** The direction loop of `_efficient_move`: the first in-grid unvisited neighbour, if any. */
    method ScanUnvisited(env: Environment) returns (r: Option<Cell>)
      ensures r == FirstUnvisited(env.width, env.height, position, ORTHOGONAL, visitedCells)
    {
      var i := 0;
      while i < 4
        invariant 0 <= i <= 4
        invariant FirstUnvisited(env.width, env.height, position, ORTHOGONAL, visitedCells)
               == FirstUnvisited(env.width, env.height, position, ORTHOGONAL[i..], visitedCells)
      {
        var c := (position.0 + ORTHOGONAL[i].0, position.1 + ORTHOGONAL[i].1);
        assert ORTHOGONAL[i..][0] == ORTHOGONAL[i] && ORTHOGONAL[i..][1..] == ORTHOGONAL[i + 1..];
        if env.IsValidPosition(c) && c !in visitedCells {
          return Some(c);
        }
        i := i + 1;
      }
      assert ORTHOGONAL[4..] == [];
      return None;
    }

    /** The exploring part of `_efficient_move`. */
    method ExploreMove(env: Environment, pick: nat) returns (target: Cell)
      ensures target == Explore(env.width, env.height, position, visitedCells, pick)
    {
      var first := ScanUnvisited(env);
      if first.Some? {
        return first.value;
      }
      var validMoves := GetValidMoves(env, position, ORTHOGONAL);
      if |validMoves| > 0 {
        target := validMoves[pick % |validMoves|];
      } else {
        target := position;
      }
    }

    /** `_efficient_move`. */
    method EfficientMove(env: Environment, pick: nat) returns (target: Cell)
      ensures IsEfficientMove(env.width, env.height, position, dirtyCells, visitedCells, pick, target)
    {
      var stepped := false;
      ghost var nearest := position;
      if dirtyCells != {} {
        var t := NearestInSet(dirtyCells, position);
        nearest := t;
        var dx := t.0 - position.0;
        var dy := t.1 - position.1;
        var next := (position.0 + (if dx > 0 then 1 else if dx < 0 then -1 else 0),
                     position.1 + (if dy > 0 then 1 else if dy < 0 then -1 else 0));
        assert next == SignStep(position, t);
        if env.IsValidPosition(next) {
          target := next;
          stepped := true;
        }
      }
      if !stepped {
        target := ExploreMove(env, pick);
      }
      assert dirtyCells != {} ==> IsNearest(nearest, dirtyCells, position);
    }

    /**
     * `action`.  CLEAN cleans the agent's cell, counts it and forgets it as
     * dirt; MOVE always moves to the efficient-move target, counts the move
     * and records the target as visited.
     */
    method Action(actionType: ActionType, env: Environment, pick: nat)
      requires env.Valid()
      modifies this`position, this`movesCount, this`cellsCleaned, this`visitedCells, this`dirtyCells
      modifies env`grid, env`dirtyCells
      ensures env.Valid()
      ensures actionType == Clean ==>
                && env.grid == Cleaned(env.width, old(env.grid), old(position))
                && env.dirtyCells == old(env.dirtyCells) - {old(position)}
                && cellsCleaned == old(cellsCleaned) + 1
                && dirtyCells == old(dirtyCells) - {old(position)}
                && position == old(position) && movesCount == old(movesCount) && visitedCells == old(visitedCells)
      ensures actionType == Move ==>
                && env.grid == old(env.grid) && env.dirtyCells == old(env.dirtyCells)
                && cellsCleaned == old(cellsCleaned) && dirtyCells == old(dirtyCells)
                && movesCount == old(movesCount) + 1
                && visitedCells == old(visitedCells) + {position}
                && IsEfficientMove(env.width, env.height, old(position), dirtyCells, old(visitedCells), pick, position)
    {
      if actionType == Clean {
        env.CleanCell(position);
        cellsCleaned := cellsCleaned + 1;
        dirtyCells := dirtyCells - {position};
      } else {
        var newPosition := EfficientMove(env, pick);
        position := newPosition;
        movesCount := movesCount + 1;
        visitedCells := visitedCells + {newPosition};
      }
    }
  }
}
