/**
 * The quadrant-sharing vacuum agent (act_6/src/agents/collaborative_agent.py).
 * On its first move it takes the quadrant of the grid it stands in; it
 * then heads for the nearest dirty cell it knows of in its quadrant, else
 * for the nearest unvisited cell there, else for the nearest dirty cell
 * anywhere, else to a picked free neighbour (`random.choice`, the entry at
 * `pick` modulo the number of candidates).  Quadrant 0 counts as no
 * quadrant at all (the source tests `not self.assigned_quadrant`), so an
 * agent of the top-left quadrant is reassigned on every move and behaves as
 * if it had none.
 */
module CollaborativeVacuum {
  import opened Wrappers
  import opened VacuumWorld
  import opened VacuumMoves

  /**
   * The half-open box `((x1, y1), (x2, y2))` of quadrant `q`:
   * 0 top-left, 1 top-right, 2 bottom-left, 3 bottom-right.
   */
  function QuadrantBounds(width: nat, height: nat, q: int): (b: (Cell, Cell))
    requires 0 <= q < 4
    ensures 0 <= b.0.0 <= b.1.0 <= width && 0 <= b.0.1 <= b.1.1 <= height
  {
    [((0, 0), (width / 2, height / 2)),
     ((width / 2, 0), (width, height / 2)),
     ((0, height / 2), (width / 2, height)),
     ((width / 2, height / 2), (width, height))][q]
  }

  predicate InQuadrantBounds(width: nat, height: nat, q: int, p: Cell)
    requires 0 <= q < 4
  {
    var b := QuadrantBounds(width, height, q);
    b.0.0 <= p.0 < b.1.0 && b.0.1 <= p.1 < b.1.1
  }

  /** `_assign_quadrant`'s choice for a position: an in-grid position lies in the quadrant it gets. */
  function QuadrantOf(width: nat, height: nat, p: Cell): (q: int)
    ensures 0 <= q < 4
    ensures InBounds(width, height, p) ==> InQuadrantBounds(width, height, q, p)
  {
    if p.0 < width / 2 then (if p.1 < height / 2 then 0 else 2)
    else (if p.1 < height / 2 then 1 else 3)
  }

  /** The four quadrants split the grid: an in-grid position lies in exactly one of them. */
  lemma QuadrantsPartitionGrid(width: nat, height: nat, p: Cell, q: int)
    requires InBounds(width, height, p) && 0 <= q < 4
    ensures InQuadrantBounds(width, height, q, p) <==> q == QuadrantOf(width, height, p)
  {
  }

  /** Python truth of `assigned_quadrant`: set, and not 0. */
  predicate IsAssigned(q: Option<int>) {
    q.Some? && q.value != 0
  }

  /** The inner loop of `_get_unvisited_cells_in_quadrant`: column `x` from `y1` up to `y2`. */
  function ColumnScan(width: int, height: int, x: int, y1: int, y2: int, visited: set<Cell>): seq<Cell>
    decreases y2 - y1
  {
    if y2 <= y1 then []
    else
      var c := (x, y2 - 1);
      ColumnScan(width, height, x, y1, y2 - 1, visited) + (if c !in visited && InBounds(width, height, c) then [c] else [])
  }

  /** The whole scan of `_get_unvisited_cells_in_quadrant` over `[x1, x2) x [y1, y2)`, column by column. */
  function BoxScan(width: int, height: int, x1: int, x2: int, y1: int, y2: int, visited: set<Cell>): seq<Cell>
    decreases x2 - x1
  {
    if x2 <= x1 then []
    else BoxScan(width, height, x1, x2 - 1, y1, y2, visited) + ColumnScan(width, height, x2 - 1, y1, y2, visited)
  }

  lemma {:induction false} ColumnScanMembers(width: int, height: int, x: int, y1: int, y2: int, visited: set<Cell>)
    ensures forall c :: c in ColumnScan(width, height, x, y1, y2, visited) <==>
                        c.0 == x && y1 <= c.1 < y2 && c !in visited && InBounds(width, height, c)
    decreases y2 - y1
  {
    if y2 > y1 {
      ColumnScanMembers(width, height, x, y1, y2 - 1, visited);
    }
  }

  /** The scan lists exactly the unvisited in-grid cells of the box. */
  lemma {:induction false} BoxScanMembers(width: int, height: int, x1: int, x2: int, y1: int, y2: int, visited: set<Cell>)
    ensures forall c :: c in BoxScan(width, height, x1, x2, y1, y2, visited) <==>
                        x1 <= c.0 < x2 && y1 <= c.1 < y2 && c !in visited && InBounds(width, height, c)
    decreases x2 - x1
  {
    if x2 > x1 {
      BoxScanMembers(width, height, x1, x2 - 1, y1, y2, visited);
      ColumnScanMembers(width, height, x2 - 1, y1, y2, visited);
    }
  }

  /** `_get_unvisited_cells_in_quadrant` as a value: empty without a quadrant. */
  function UnvisitedInQuadrant(width: nat, height: nat, q: Option<int>, visited: set<Cell>): (r: seq<Cell>)
    requires q.Some? ==> 0 <= q.value < 4
    ensures !IsAssigned(q) ==> r == []
    ensures IsAssigned(q) ==> forall c :: c in r <==> InQuadrantBounds(width, height, q.value, c) && c !in visited && InBounds(width, height, c)
  {
    if !IsAssigned(q) then []
    else
      var b := QuadrantBounds(width, height, q.value);
      BoxScanMembers(width, height, b.0.0, b.1.0, b.0.1, b.1.1, visited);
      BoxScan(width, height, b.0.0, b.1.0, b.0.1, b.1.1, visited)
  }

  /**
   * `_move_towards`: one step along x toward `target` when x differs and the
   * step stays in the grid, else one step along y on the same terms, else
   * no move.  A step always brings the agent one closer to the target.
   */
  function MoveTowards(width: int, height: int, p: Cell, target: Cell): (r: Cell)
    ensures r == p || (InBounds(width, height, r) && Manhattan(p, r) == 1 && Manhattan(r, target) + 1 == Manhattan(p, target))
    ensures target.0 != p.0 && InBounds(width, height, (p.0 + Sign(target.0 - p.0), p.1)) ==> r.1 == p.1 && r != p
    ensures r == p ==>
              && (target.0 == p.0 || !InBounds(width, height, (p.0 + Sign(target.0 - p.0), p.1)))
              && (target.1 == p.1 || !InBounds(width, height, (p.0, p.1 + Sign(target.1 - p.1))))
  {
    var xStep := (p.0 + (if target.0 - p.0 > 0 then 1 else -1), p.1);
    var yStep := (p.0, p.1 + (if target.1 - p.1 > 0 then 1 else -1));
    if target.0 - p.0 != 0 && InBounds(width, height, xStep) then xStep
    else if target.1 - p.1 != 0 && InBounds(width, height, yStep) then yStep
    else p
  }

  /** Between in-grid cells, `_move_towards` stays put only at the target itself. */
  lemma MoveTowardsProgresses(width: int, height: int, p: Cell, target: Cell)
    requires InBounds(width, height, p) && InBounds(width, height, target)
    ensures MoveTowards(width, height, p, target) == p <==> p == target
  {
  }

  /** `[move for move in moves if move not in others]`. */
  function Avoiding(moves: seq<Cell>, others: set<Cell>): (r: seq<Cell>)
    ensures forall c :: c in r <==> c in moves && c !in others
    decreases |moves|
  {
    if moves == [] then []
    else (if moves[0] in others then [] else [moves[0]]) + Avoiding(moves[1..], others)
  }

  /**
   * `target` is a result `_get_help_move` may give: toward some nearest known
   * dirty cell, else the picked in-grid neighbour not taken by another agent,
   * else staying.
   */
  predicate IsHelpMove(width: int, height: int, p: Cell, dirty: set<Cell>, others: set<Cell>, pick: nat, target: Cell) {
    if dirty != {} then exists t :: t in dirty && IsNearest(t, dirty, p) && target == MoveTowards(width, height, p, t)
    else
      var free := Avoiding(InGridShifts(width, height, p, ORTHOGONAL), others);
      target == if free == [] then p else free[pick % |free|]
  }

  /**
   * `target` is a result `_collaborative_move` may give: toward some nearest
   * known dirty cell of the quadrant, else toward the first nearest
   * unvisited cell of the quadrant, else the help move.
   */
  predicate IsCollaborativeMove(width: int, height: int, p: Cell, quadrantDirty: set<Cell>, unvisited: seq<Cell>,
                                dirty: set<Cell>, others: set<Cell>, pick: nat, target: Cell) {
    if quadrantDirty != {} then
      exists t :: t in quadrantDirty && IsNearest(t, quadrantDirty, p) && target == MoveTowards(width, height, p, t)
    else if unvisited != [] then
      exists k :: 0 <= k < |unvisited| && IsFirstNearest(k, unvisited, p) && target == MoveTowards(width, height, p, unvisited[k])
    else IsHelpMove(width, height, p, dirty, others, pick, target)
  }

  /** Whatever the priority, the agent ends in the grid or where it stood. */
  lemma CollaborativeMoveStaysInGrid(width: int, height: int, p: Cell, quadrantDirty: set<Cell>, unvisited: seq<Cell>,
                                     dirty: set<Cell>, others: set<Cell>, pick: nat, target: Cell)
    requires IsCollaborativeMove(width, height, p, quadrantDirty, unvisited, dirty, others, pick, target)
    ensures target == p || InBounds(width, height, target)
  {
    if quadrantDirty == {} && unvisited == [] && dirty == {} {
      var free := Avoiding(InGridShifts(width, height, p, ORTHOGONAL), others);
      if free != [] {
        assert free[pick % |free|] in free;
      }
    }
  }

  /** The readings of the four neighbours applied to the dirt memory, for the first `n` of them. */
  ghost predicate ObservedUpTo(before: set<Cell>, after: set<Cell>, p: Cell, readings: seq<int>, n: int)
    requires 0 <= n <= 4 && |readings| >= 4
  {
    && (forall k :: 0 <= k < n ==>
          (Shift(p, ORTHOGONAL[k]) in after <==> readings[k] == 1 || (readings[k] != 0 && Shift(p, ORTHOGONAL[k]) in before)))
    && (forall c :: c !in (set k | 0 <= k < n :: Shift(p, ORTHOGONAL[k])) ==> (c in after <==> c in before))
  }

  class CollaborativeAgent {
    var position: Cell
    var movesCount: int
    var cellsCleaned: int
    var visitedCells: set<Cell>
    /** The dirty cells the agent knows of. */
    var dirtyCells: set<Cell>
    /** `None` until the first move. */
    var assignedQuadrant: Option<int>
    var otherAgentsPositions: set<Cell>
    /** The environment `_assign_quadrant` stores for `_is_in_quadrant`. */
    var environment: Environment?

    constructor (position: Cell)
      ensures this.position == position && movesCount == 0 && cellsCleaned == 0
      ensures visitedCells == {position} && dirtyCells == {} && assignedQuadrant == None
      ensures otherAgentsPositions == {} && environment == null && Valid()
    {
      this.position := position;
      movesCount := 0;
      cellsCleaned := 0;
      visitedCells := {position};
      dirtyCells := {};
      assignedQuadrant := None;
      otherAgentsPositions := {};
      environment := null;
    }

    /** A quadrant, once set, is one of the four, and the environment it refers to is stored. */
    predicate Valid()
      reads this`assignedQuadrant, this`environment
    {
      assignedQuadrant.Some? ==> 0 <= assignedQuadrant.value < 4 && environment != null
    }

    /** `_is_in_quadrant`: never without a quadrant; else inside its box in the stored environment. */
    predicate IsInQuadrant(p: Cell)
      requires Valid()
      reads this`assignedQuadrant, this`environment
    {
      IsAssigned(assignedQuadrant) && InQuadrantBounds(environment.width, environment.height, assignedQuadrant.value, p)
    }

    /** `_get_quadrant_dirty_cells`: the known dirty cells inside the quadrant, none without one. */
    function GetQuadrantDirtyCells(): (cells: set<Cell>)
      requires Valid()
      reads this`assignedQuadrant, this`environment, this`dirtyCells
      ensures !IsAssigned(assignedQuadrant) ==> cells == {}
      ensures forall c :: c in cells <==> c in dirtyCells && IsInQuadrant(c)
      ensures cells <= dirtyCells
    {
      if !IsAssigned(assignedQuadrant) then {} else set c | c in dirtyCells && IsInQuadrant(c)
    }

    /** `_get_unvisited_cells_in_quadrant`: the nested scan over the quadrant of `env`. */
    method GetUnvisitedCellsInQuadrant(env: Environment) returns (unvisited: seq<Cell>)
      requires Valid()
      ensures unvisited == UnvisitedInQuadrant(env.width, env.height, assignedQuadrant, visitedCells)
    {
      if !IsAssigned(assignedQuadrant) {
        return [];
      }
      var b := QuadrantBounds(env.width, env.height, assignedQuadrant.value);
      var x1, y1, x2, y2 := b.0.0, b.0.1, b.1.0, b.1.1;
      unvisited := [];
      var x := x1;
      while x < x2
        invariant x1 <= x <= x2
        invariant unvisited == BoxScan(env.width, env.height, x1, x, y1, y2, visitedCells)
      {
        var column := ScanColumn(env, x, y1, y2);
        unvisited := unvisited + column;
        x := x + 1;
      }
    }

    /** The inner loop of `_get_unvisited_cells_in_quadrant`. */
    method ScanColumn(env: Environment, x: int, y1: int, y2: int) returns (column: seq<Cell>)
      requires y1 <= y2
      ensures column == ColumnScan(env.width, env.height, x, y1, y2, visitedCells)
    {
      column := [];
      var y := y1;
      while y < y2
        invariant y1 <= y <= y2
        invariant column == ColumnScan(env.width, env.height, x, y1, y, visitedCells)
      {
        if (x, y) !in visitedCells && env.IsValidPosition((x, y)) {
          column := column + [(x, y)];
        }
        y := y + 1;
      }
    }

    /** `see`: the own reading, the four neighbour readings and the other agents (none are reported). */
    method See(env: Environment) returns (perception: Perception)
      requires env.Valid()
      ensures perception.current == env.GetCellState(position)
      ensures |perception.surroundings| == 4 && perception.otherAgents == {}
      ensures forall k :: 0 <= k < 4 ==> perception.surroundings[k] == env.GetCellState(Shift(position, ORTHOGONAL[k]))
    {
      var surroundings := GetSurroundings(env, position, ORTHOGONAL);
      perception := Perception(env.GetCellState(position), surroundings, {});
    }

    /** `_update_dirty_cells`: a neighbour reading 1 is remembered, one reading 0 forgotten, one reading -1 left alone. */
    method UpdateDirtyCells(surroundings: seq<int>)
      requires |surroundings| >= 4
      modifies this`dirtyCells
      ensures ObservedUpTo(old(dirtyCells), dirtyCells, position, surroundings, 4)
    {
      var i := 0;
      while i < 4
        invariant 0 <= i <= 4
        invariant ObservedUpTo(old(dirtyCells), dirtyCells, position, surroundings, i)
      {
        var c := (position.0 + ORTHOGONAL[i].0, position.1 + ORTHOGONAL[i].1);
        assert forall k :: 0 <= k < i ==> Shift(position, ORTHOGONAL[k]) != c;
        assert (set k | 0 <= k < i + 1 :: Shift(position, ORTHOGONAL[k])) == (set k | 0 <= k < i :: Shift(position, ORTHOGONAL[k])) + {c};
        if surroundings[i] == 1 {
          dirtyCells := dirtyCells + {c};
        } else if surroundings[i] == 0 {
          dirtyCells := dirtyCells - {c};
        }
        i := i + 1;
      }
    }

    /** `next`: CLEAN on a dirty reading; else MOVE, after taking in the other agents and the neighbour readings. */
    method Next(perception: Perception) returns (a: ActionType)
      requires |perception.surroundings| >= 4
      modifies this`otherAgentsPositions, this`dirtyCells
      ensures a == NextAction(perception.current)
      ensures a == Clean ==> otherAgentsPositions == old(otherAgentsPositions) && dirtyCells == old(dirtyCells)
      ensures a == Move ==>
                && otherAgentsPositions == perception.otherAgents
                && ObservedUpTo(old(dirtyCells), dirtyCells, position, perception.surroundings, 4)
    {
      if perception.current == 1 {
        return Clean;
      }
      otherAgentsPositions := perception.otherAgents;
      UpdateDirtyCells(perception.surroundings);
      return Move;
    }

    /** `_get_help_move`. */
    method GetHelpMove(env: Environment, pick: nat) returns (target: Cell)
      ensures IsHelpMove(env.width, env.height, position, dirtyCells, otherAgentsPositions, pick, target)
    {
      if dirtyCells != {} {
        var t := NearestInSet(dirtyCells, position);
        return MoveTowards(env.width, env.height, position, t);
      }
      var validMoves := GetValidMoves(env, position, ORTHOGONAL);
      var free := Avoiding(validMoves, otherAgentsPositions);
      if |free| > 0 {
        target := free[pick % |free|];
      } else {
        target := position;
      }
    }

    /** `_collaborative_move`. */
    method CollaborativeMove(env: Environment, pick: nat) returns (target: Cell)
      requires Valid()
      ensures IsCollaborativeMove(env.width, env.height, position, GetQuadrantDirtyCells(),
                                  UnvisitedInQuadrant(env.width, env.height, assignedQuadrant, visitedCells),
                                  dirtyCells, otherAgentsPositions, pick, target)
    {
      var quadrantDirty := GetQuadrantDirtyCells();
      if quadrantDirty != {} {
        var t := NearestInSet(quadrantDirty, position);
        return MoveTowards(env.width, env.height, position, t);
      }
      var unvisited := GetUnvisitedCellsInQuadrant(env);
      if |unvisited| > 0 {
        var k := NearestInSeq(unvisited, position);
        return MoveTowards(env.width, env.height, position, unvisited[k]);
      }
      target := GetHelpMove(env, pick);
    }

    /** `_assign_quadrant`: the quadrant of the current position, remembering `env`. */
    method AssignQuadrant(env: Environment)
      modifies this`assignedQuadrant, this`environment
      ensures assignedQuadrant == Some(QuadrantOf(env.width, env.height, position)) && environment == env
      ensures Valid()
    {
      var x, y := position.0, position.1;
      if x < env.width / 2 {
        if y < env.height / 2 {
          assignedQuadrant := Some(0);
        } else {
          assignedQuadrant := Some(2);
        }
      } else {
        if y < env.height / 2 {
          assignedQuadrant := Some(1);
        } else {
          assignedQuadrant := Some(3);
        }
      }
      environment := env;
    }

    /** The MOVE branch of `action`. */
    method MoveStep(env: Environment, pick: nat)
      requires Valid()
      modifies this`position, this`movesCount, this`visitedCells, this`assignedQuadrant, this`environment
      ensures Valid()
      ensures old(IsAssigned(assignedQuadrant)) ==> assignedQuadrant == old(assignedQuadrant) && environment == old(environment)
      ensures !old(IsAssigned(assignedQuadrant)) ==>
                assignedQuadrant == Some(QuadrantOf(env.width, env.height, old(position))) && environment == env
      ensures movesCount == old(movesCount) + 1 && visitedCells == old(visitedCells) + {position}
      ensures IsCollaborativeMove(env.width, env.height, old(position), GetQuadrantDirtyCells(),
                                  UnvisitedInQuadrant(env.width, env.height, assignedQuadrant, old(visitedCells)),
                                  dirtyCells, otherAgentsPositions, pick, position)
    {
      if !IsAssigned(assignedQuadrant) {
        AssignQuadrant(env);
      }
      var newPosition := CollaborativeMove(env, pick);
      position := newPosition;
      movesCount := movesCount + 1;
      visitedCells := visitedCells + {newPosition};
    }

    /**
     * `action`.  CLEAN cleans the agent's cell, counts it and forgets it as
     * dirt; MOVE takes a quadrant when it has none, always moves to the
     * collaborative-move target, counts the move and records the target as
     * visited, even when it is the cell the agent stood on.
     */
    method Action(actionType: ActionType, env: Environment, pick: nat)
      requires env.Valid() && Valid()
      modifies this`position, this`movesCount, this`cellsCleaned, this`visitedCells, this`dirtyCells
      modifies this`assignedQuadrant, this`environment, env`grid, env`dirtyCells
      ensures env.Valid() && Valid()
      ensures actionType == Clean ==>
                && env.grid == Cleaned(env.width, old(env.grid), old(position))
                && env.dirtyCells == old(env.dirtyCells) - {old(position)}
                && cellsCleaned == old(cellsCleaned) + 1
                && dirtyCells == old(dirtyCells) - {old(position)}
                && position == old(position) && movesCount == old(movesCount) && visitedCells == old(visitedCells)
                && assignedQuadrant == old(assignedQuadrant) && environment == old(environment)
      ensures actionType == Move ==>
                && env.grid == old(env.grid) && env.dirtyCells == old(env.dirtyCells)
                && cellsCleaned == old(cellsCleaned) && dirtyCells == old(dirtyCells)
                && movesCount == old(movesCount) + 1
                && visitedCells == old(visitedCells) + {position}
                && (old(IsAssigned(assignedQuadrant)) ==> assignedQuadrant == old(assignedQuadrant) && environment == old(environment))
                && (!old(IsAssigned(assignedQuadrant)) ==>
                      assignedQuadrant == Some(QuadrantOf(env.width, env.height, old(position))) && environment == env)
                && IsCollaborativeMove(env.width, env.height, old(position), GetQuadrantDirtyCells(),
                                       UnvisitedInQuadrant(env.width, env.height, assignedQuadrant, old(visitedCells)),
                                       dirtyCells, otherAgentsPositions, pick, position)
    {
      if actionType == Clean {
        env.CleanCell(position);
        cellsCleaned := cellsCleaned + 1;
        dirtyCells := dirtyCells - {position};
      } else {
        MoveStep(env, pick);
      }
    }
  }
}
