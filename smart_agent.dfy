/**
 * The direction-keeping vacuum agent (act_6/src/agents/smart_agent.py): it
 * cleans a dirty cell and otherwise moves on in its current direction,
 * turning clockwise through the four directions once when that move would
 * leave the grid.
 */
module SmartVacuum {
  import opened VacuumWorld
  import opened VacuumMoves

  class SmartAgent {
    var position: Cell
    var movesCount: int
    var cellsCleaned: int
    /** An index into `ORTHOGONAL`. */
    var currentDirection: int
    var visitedCells: set<Cell>

    constructor (position: Cell)
      ensures this.position == position && movesCount == 0 && cellsCleaned == 0
      ensures currentDirection == 0 && visitedCells == {position}
    {
      this.position := position;
      movesCount := 0;
      cellsCleaned := 0;
      currentDirection := 0;
      visitedCells := {position};
    }

    /** `see`: the own reading and the four neighbour readings. */
    method See(env: Environment) returns (perception: Perception)
      requires env.Valid()
      ensures perception.current == env.GetCellState(position)
      ensures |perception.surroundings| == 4 && perception.otherAgents == {}
      ensures forall k :: 0 <= k < 4 ==> perception.surroundings[k] == env.GetCellState(Shift(position, ORTHOGONAL[k]))
    {
      var surroundings := GetSurroundings(env, position, ORTHOGONAL);
      perception := Perception(env.GetCellState(position), surroundings, {});
    }

    /**
     * `_smart_move`: the step in the current direction when it stays in the
     * grid; otherwise a single clockwise turn, and the step in the new
     * direction if that one stays in the grid, else no move.
     */
    method SmartMove(env: Environment) returns (target: Cell)
      requires 0 <= currentDirection < 4
      modifies this`currentDirection
      ensures 0 <= currentDirection < 4
      ensures var ahead := Shift(position, ORTHOGONAL[old(currentDirection)]);
              if InBounds(env.width, env.height, ahead) then
                currentDirection == old(currentDirection) && target == ahead
              else
                var turned := Shift(position, ORTHOGONAL[currentDirection]);
                && currentDirection == (old(currentDirection) + 1) % 4
                && target == (if InBounds(env.width, env.height, turned) then turned else position)
      ensures target == position || (InBounds(env.width, env.height, target) && Manhattan(position, target) == 1)
    {
      var d := ORTHOGONAL[currentDirection];
      var next := (position.0 + d.0, position.1 + d.1);
      if !env.IsValidPosition(next) {
        currentDirection := (currentDirection + 1) % |ORTHOGONAL|;
        d := ORTHOGONAL[currentDirection];
        next := (position.0 + d.0, position.1 + d.1);
      }
      if env.IsValidPosition(next) {
        target := next;
      } else {
        target := position;
      }
    }

    /**
     * `action`.  CLEAN cleans the agent's cell and counts it; MOVE always
     * moves to the smart-move target (a position tuple is never falsy),
     * counts the move and records the target as visited.
     */
    method Action(actionType: ActionType, env: Environment)
      requires env.Valid() && 0 <= currentDirection < 4
      modifies this`position, this`movesCount, this`cellsCleaned, this`currentDirection, this`visitedCells
      modifies env`grid, env`dirtyCells
      ensures env.Valid() && 0 <= currentDirection < 4
      ensures actionType == Clean ==>
                && env.grid == Cleaned(env.width, old(env.grid), old(position))
                && env.dirtyCells == old(env.dirtyCells) - {old(position)}
                && cellsCleaned == old(cellsCleaned) + 1
                && position == old(position) && movesCount == old(movesCount)
                && currentDirection == old(currentDirection) && visitedCells == old(visitedCells)
      ensures actionType == Move ==>
                && env.grid == old(env.grid) && env.dirtyCells == old(env.dirtyCells)
                && cellsCleaned == old(cellsCleaned)
                && movesCount == old(movesCount) + 1
                && visitedCells == old(visitedCells) + {position}
                && (position == old(position) || (InBounds(env.width, env.height, position) && Manhattan(old(position), position) == 1))
                && var ahead := Shift(old(position), ORTHOGONAL[old(currentDirection)]);
                   if InBounds(env.width, env.height, ahead) then
                     currentDirection == old(currentDirection) && position == ahead
                   else
                     var turned := Shift(old(position), ORTHOGONAL[currentDirection]);
                     && currentDirection == (old(currentDirection) + 1) % 4
                     && position == (if InBounds(env.width, env.height, turned) then turned else old(position))
    {
      if actionType == Clean {
        env.CleanCell(position);
        cellsCleaned := cellsCleaned + 1;
      } else {
        var newPosition := SmartMove(env);
        position := newPosition;
        movesCount := movesCount + 1;
        visitedCells := visitedCells + {newPosition};
      }
    }
  }

  /**
   * On a grid with at least two cells a side, a smart move from an in-grid
   * cell stalls only when both the current and the turned direction leave
   * the grid (at a corner), and then the following direction leads back in:
   * the agent never stalls on two calls in a row.
   */
  lemma SmartMoveStallsAtMostOnce(width: int, height: int, p: Cell, dir: int)
    requires width >= 2 && height >= 2 && InBounds(width, height, p) && 0 <= dir < 4
    requires !InBounds(width, height, Shift(p, ORTHOGONAL[dir]))
    requires !InBounds(width, height, Shift(p, ORTHOGONAL[(dir + 1) % 4]))
    ensures InBounds(width, height, Shift(p, ORTHOGONAL[(dir + 2) % 4]))
  {
    if dir == 0 {
      assert ORTHOGONAL[(dir + 2) % 4] == (0, -1);
    } else if dir == 1 {
      assert ORTHOGONAL[(dir + 2) % 4] == (-1, 0);
    } else if dir == 2 {
      assert ORTHOGONAL[(dir + 2) % 4] == (0, 1);
    } else {
      assert ORTHOGONAL[(dir + 2) % 4] == (1, 0);
    }
  }
}
