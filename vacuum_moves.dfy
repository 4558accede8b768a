/**
 * What the vacuum agents share (act_6/src/agents/): the direction lists, a
 * step along a direction, the scans `_get_valid_moves` and
 * `_get_surroundings` (written out identically in several agents), and the
 * Manhattan-nearest pick `min(cells, key=distance)`.
 */
module VacuumMoves {
  import opened Wrappers
  import opened VacuumWorld

  /** The `directions` of the smart, efficient and collaborative agents, in their order. */
  const ORTHOGONAL: seq<Cell> := [(0, 1), (1, 0), (0, -1), (-1, 0)]
  /** The `directions` of the basic agent, in their order. */
  const KING: seq<Cell> := [(-1, -1), (-1, 0), (-1, 1), (0, -1), (0, 1), (1, -1), (1, 0), (1, 1)]

  function Shift(p: Cell, d: Cell): Cell {
    (p.0 + d.0, p.1 + d.1)
  }

  function Abs(a: int): nat {
    if a < 0 then -a else a
  }

  /** `1 if d > 0 else -1 if d < 0 else 0`. */
  function Sign(d: int): int {
    if d > 0 then 1 else if d < 0 then -1 else 0
  }

  function Manhattan(a: Cell, b: Cell): nat {
    Abs(a.0 - b.0) + Abs(a.1 - b.1)
  }

  function Chebyshev(a: Cell, b: Cell): nat {
    if Abs(a.0 - b.0) >= Abs(a.1 - b.1) then Abs(a.0 - b.0) else Abs(a.1 - b.1)
  }

  /** The in-grid cells among `p` moved by each of `dirs`, in the order of `dirs`. */
  function InGridShifts(width: int, height: int, p: Cell, dirs: seq<Cell>): (r: seq<Cell>)
    ensures |r| <= |dirs|
    ensures forall c :: c in r ==> InBounds(width, height, c)
    decreases |dirs|
  {
    if dirs == [] then []
    else
      var c := Shift(p, dirs[|dirs| - 1]);
      InGridShifts(width, height, p, dirs[..|dirs| - 1]) + (if InBounds(width, height, c) then [c] else [])
  }

  /** A cell is a candidate exactly when it is in the grid and one of `dirs` leads to it. */
  lemma {:induction false} InGridShiftsMembers(width: int, height: int, p: Cell, dirs: seq<Cell>)
    ensures forall c :: c in InGridShifts(width, height, p, dirs) <==>
              InBounds(width, height, c) && exists k :: 0 <= k < |dirs| && c == Shift(p, dirs[k])
    decreases |dirs|
  {
    if dirs != [] {
      var init := dirs[..|dirs| - 1];
      InGridShiftsMembers(width, height, p, init);
      assert forall k :: 0 <= k < |init| ==> init[k] == dirs[k];
    }
  }

  /** An orthogonal move goes to a cell at Manhattan distance 1. */
  lemma OrthogonalMovesAreSteps(width: int, height: int, p: Cell)
    ensures forall c :: c in InGridShifts(width, height, p, ORTHOGONAL) ==> Manhattan(p, c) == 1
  {
    InGridShiftsMembers(width, height, p, ORTHOGONAL);
  }

  /** A move of the basic agent goes to a cell at Chebyshev distance 1. */
  lemma KingMovesAreAdjacent(width: int, height: int, p: Cell)
    ensures forall c :: c in InGridShifts(width, height, p, KING) ==> Chebyshev(p, c) == 1
  {
    InGridShiftsMembers(width, height, p, KING);
  }

  /** When every target is in the grid, the scan keeps them all, in order. */
  lemma {:induction false} AllShiftsInGrid(width: int, height: int, p: Cell, dirs: seq<Cell>)
    requires forall k :: 0 <= k < |dirs| ==> InBounds(width, height, Shift(p, dirs[k]))
    ensures InGridShifts(width, height, p, dirs) == seq(|dirs|, k requires 0 <= k < |dirs| => Shift(p, dirs[k]))
    decreases |dirs|
  {
    if dirs != [] {
      var init := dirs[..|dirs| - 1];
      AllShiftsInGrid(width, height, p, init);
      var all := seq(|dirs|, k requires 0 <= k < |dirs| => Shift(p, dirs[k]));
      assert all == seq(|init|, k requires 0 <= k < |init| => Shift(p, init[k])) + [Shift(p, dirs[|dirs| - 1])];
    }
  }

  /** From an interior cell every one of the eight moves is available, in the listed order. */
  lemma InteriorHasEightMoves(width: int, height: int, p: Cell)
    requires 1 <= p.0 < width - 1 && 1 <= p.1 < height - 1
    ensures InGridShifts(width, height, p, KING) == seq(8, k requires 0 <= k < 8 => Shift(p, KING[k]))
  {
    AllShiftsInGrid(width, height, p, KING);
  }

  /** `_get_valid_moves`: the scan over `dirs` that keeps the in-grid targets. */
  method GetValidMoves(env: Environment, position: Cell, dirs: seq<Cell>) returns (moves: seq<Cell>)
    ensures moves == InGridShifts(env.width, env.height, position, dirs)
  {
    moves := [];
    var i := 0;
    while i < |dirs|
      invariant 0 <= i <= |dirs|
      invariant moves == InGridShifts(env.width, env.height, position, dirs[..i])
    {
      var c := (position.0 + dirs[i].0, position.1 + dirs[i].1);
      ghost var before := InGridShifts(env.width, env.height, position, dirs[..i]);
      assert dirs[..i + 1][..i] == dirs[..i];
      assert InGridShifts(env.width, env.height, position, dirs[..i + 1])
          == before + (if InBounds(env.width, env.height, c) then [c] else []);
      if env.IsValidPosition(c) {
        moves := moves + [c];
      }
      i := i + 1;
    }
    assert dirs[..|dirs|] == dirs;
  }

  /** The reading of each neighbour in the order of `dirs`: its cell state, or -1 off the grid. */
  method GetSurroundings(env: Environment, position: Cell, dirs: seq<Cell>) returns (readings: seq<int>)
    requires env.Valid()
    ensures |readings| == |dirs|
    ensures forall k :: 0 <= k < |dirs| ==> readings[k] == env.GetCellState(Shift(position, dirs[k]))
    ensures forall k :: 0 <= k < |dirs| ==> (readings[k] == -1 <==> !env.IsValidPosition(Shift(position, dirs[k])))
  {
    readings := [];
    var i := 0;
    while i < |dirs|
      invariant 0 <= i <= |dirs|
      invariant |readings| == i
      invariant forall k :: 0 <= k < i ==> readings[k] == env.GetCellState(Shift(position, dirs[k]))
    {
      var c := (position.0 + dirs[i].0, position.1 + dirs[i].1);
      if env.IsValidPosition(c) {
        readings := readings + [env.GetCellState(c)];
      } else {
        readings := readings + [-1];
      }
      i := i + 1;
    }
  }

  /** The first in-grid neighbour, in the order of `dirs`, that is not in `visited`. */
  function FirstUnvisited(width: int, height: int, p: Cell, dirs: seq<Cell>, visited: set<Cell>): Option<Cell>
    decreases |dirs|
  {
    if dirs == [] then None
    else
      var c := Shift(p, dirs[0]);
      if InBounds(width, height, c) && c !in visited then Some(c)
      else FirstUnvisited(width, height, p, dirs[1..], visited)
  }

  /**
   * The scan finds an in-grid unvisited neighbour along one of the
   * directions, and finds none exactly when every direction leads off the
   * grid or to a visited cell.
   */
  lemma {:induction false} FirstUnvisitedFinds(width: int, height: int, p: Cell, dirs: seq<Cell>, visited: set<Cell>)
    ensures var r := FirstUnvisited(width, height, p, dirs, visited);
              r.Some? ==> InBounds(width, height, r.value) && r.value !in visited
    ensures var r := FirstUnvisited(width, height, p, dirs, visited);
              r.Some? ==> exists k :: 0 <= k < |dirs| && r.value == Shift(p, dirs[k])
    ensures FirstUnvisited(width, height, p, dirs, visited).None? <==>
              forall k :: 0 <= k < |dirs| ==> !InBounds(width, height, Shift(p, dirs[k])) || Shift(p, dirs[k]) in visited
    decreases |dirs|
  {
    if dirs != [] {
      var c := Shift(p, dirs[0]);
      if !(InBounds(width, height, c) && c !in visited) {
        FirstUnvisitedFinds(width, height, p, dirs[1..], visited);
        assert forall k :: 1 <= k < |dirs| ==> dirs[k] == dirs[1..][k - 1];
      }
    }
  }

  /** `t` is a Manhattan-nearest member of `cells` from `p`. */
  predicate IsNearest(t: Cell, cells: set<Cell>, p: Cell) {
    t in cells && forall c :: c in cells ==> Manhattan(p, t) <= Manhattan(p, c)
  }

  /** `k` is the first index of a Manhattan-nearest entry of `cells` from `p`. */
  predicate IsFirstNearest(k: int, cells: seq<Cell>, p: Cell) {
    && 0 <= k < |cells|
    && (forall j :: 0 <= j < |cells| ==> Manhattan(p, cells[k]) <= Manhattan(p, cells[j]))
    && (forall j :: 0 <= j < k ==> Manhattan(p, cells[j]) > Manhattan(p, cells[k]))
  }

  /**
   * `min(cells, key=distance)` over a set: the iteration order is not
   * specified, so any cell of least distance may come out.
   */
  method NearestInSet(cells: set<Cell>, p: Cell) returns (t: Cell)
    requires cells != {}
    ensures IsNearest(t, cells, p)
  {
    t :| t in cells;
    var rest := cells - {t};
    while rest != {}
      invariant rest <= cells && t in cells
      invariant forall c :: c in cells - rest ==> Manhattan(p, t) <= Manhattan(p, c)
      decreases |rest|
    {
      var c :| c in rest;
      if Manhattan(p, c) < Manhattan(p, t) {
        t := c;
      }
      rest := rest - {c};
    }
  }

  /** `min(cells, key=distance)` over a list: the first entry of least distance. */
  method NearestInSeq(cells: seq<Cell>, p: Cell) returns (k: nat)
    requires |cells| > 0
    ensures IsFirstNearest(k, cells, p)
  {
    k := 0;
    var i := 1;
    while i < |cells|
      invariant 1 <= i <= |cells| && k < i
      invariant forall j :: 0 <= j < i ==> Manhattan(p, cells[k]) <= Manhattan(p, cells[j])
      invariant forall j :: 0 <= j < k ==> Manhattan(p, cells[j]) > Manhattan(p, cells[k])
    {
      if Manhattan(p, cells[i]) < Manhattan(p, cells[k]) {
        k := i;
      }
      i := i + 1;
    }
  }
}
