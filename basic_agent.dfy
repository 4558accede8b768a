/**
 * The random-walk vacuum agent (act_6/src/agents/basic_agent.py): it cleans
 * a dirty cell and otherwise steps to one of its in-grid neighbours among
 * the eight around it.  The neighbour `random.choice` picks is the entry at
 * `pick` modulo the number of candidates.
 */
module BasicVacuum {
  import opened VacuumWorld
  import opened VacuumMoves

  class BasicAgent {
    var position: Cell
    var movesCount: int
    var cellsCleaned: int

    constructor (position: Cell)
      ensures this.position == position && movesCount == 0 && cellsCleaned == 0
    {
      this.position := position;
      movesCount := 0;
      cellsCleaned := 0;
    }

    /** `see`: only the reading of the agent's own cell. */
    method See(env: Environment) returns (perception: Perception)
      requires env.Valid()
      ensures perception.current == env.GetCellState(position)
      ensures perception.surroundings == [] && perception.otherAgents == {}
    {
      perception := Perception(env.GetCellState(position), [], {});
    }

    /**
     * `action`.  CLEAN cleans the agent's cell and counts it; MOVE steps to
     * the picked in-grid neighbour and counts the move, or does nothing at
     * all when no neighbour is in the grid.
     */
    method Action(actionType: ActionType, env: Environment, pick: nat)
      requires env.Valid()
      modifies this`position, this`movesCount, this`cellsCleaned, env`grid, env`dirtyCells
      ensures env.Valid()
      ensures actionType == Clean ==>
                && env.grid == Cleaned(env.width, old(env.grid), old(position))
                && env.dirtyCells == old(env.dirtyCells) - {old(position)}
                && cellsCleaned == old(cellsCleaned) + 1
                && position == old(position) && movesCount == old(movesCount)
      ensures actionType == Move ==>
                var moves := InGridShifts(env.width, env.height, old(position), KING);
                && env.grid == old(env.grid) && env.dirtyCells == old(env.dirtyCells)
                && cellsCleaned == old(cellsCleaned)
                && (moves == [] ==> position == old(position) && movesCount == old(movesCount))
                && (moves != [] ==> position == moves[pick % |moves|] && movesCount == old(movesCount) + 1)
    {
      if actionType == Clean {
        env.CleanCell(position);
        cellsCleaned := cellsCleaned + 1;
      } else {
        var validMoves := GetValidMoves(env, position, KING);
        if |validMoves| > 0 {
          position := validMoves[pick % |validMoves|];
          movesCount := movesCount + 1;
        }
      }
    }
  }

  /** A performed move lands in the grid at Chebyshev distance 1 from where the agent stood. */
  lemma PerformedMoveIsOneStep(width: int, height: int, p: Cell, pick: nat)
    requires InGridShifts(width, height, p, KING) != []
    ensures var moves := InGridShifts(width, height, p, KING);
            InBounds(width, height, moves[pick % |moves|]) && Chebyshev(p, moves[pick % |moves|]) == 1
  {
    KingMovesAreAdjacent(width, height, p);
  }

  /** On a grid with at least two cells a side, some neighbour is always in the grid. */
  lemma SomeMoveExists(width: int, height: int, p: Cell)
    requires width >= 2 && height >= 2 && InBounds(width, height, p)
    ensures InGridShifts(width, height, p, KING) != []
  {
    var k := if p.0 == 0 then (if p.1 == 0 then 7 else 5) else (if p.1 == 0 then 2 else 0);
    assert InBounds(width, height, Shift(p, KING[k]));
    InGridShiftsMembers(width, height, p, KING);
    assert Shift(p, KING[k]) in InGridShifts(width, height, p, KING);
  }
}
