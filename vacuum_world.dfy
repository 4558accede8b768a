/**
 * The vacuum-cleaner grid world (act_general/act_6/src/environment.py): a
 * square grid of cells that are clean (0) or dirty (1), and the set of the
 * dirty positions kept beside it.  The grid is stored as `height` rows of
 * `width` entries but indexed `grid[x][y]`, so it is only usable when the
 * two dimensions agree; the model requires that.
 */
module VacuumWorld {

  /** A grid position `(x, y)`. */
  type Cell = (int, int)

  /** The two action names `next` produces. */
  datatype ActionType = Clean | Move

  /**
   * What `see` returns: the reading of the agent's own cell, the readings
   * of its neighbours (empty for the basic agent) and the other agents'
   * positions (only the collaborative agent reports them).
   */
  datatype Perception = Perception(current: int, surroundings: seq<int>, otherAgents: set<Cell>)

  /** The `next` of the basic and smart agents, and the first test of the others'. */
  function NextAction(current: int): (a: ActionType)
    ensures a == Clean <==> current == 1
  {
    if current == 1 then Clean else Move
  }

  predicate InBounds(width: int, height: int, p: Cell) {
    0 <= p.0 < width && 0 <= p.1 < height
  }

  function AllCells(width: nat, height: nat): set<Cell> {
    set x, y | 0 <= x < width && 0 <= y < height :: (x, y)
  }

  function Column(x: int, height: nat): set<Cell> {
    set y | 0 <= y < height :: (x, y)
  }

  lemma {:induction false} ColumnCount(x: int, height: nat)
    ensures |Column(x, height)| == height
  {
    if height > 0 {
      ColumnCount(x, height - 1);
      assert Column(x, height) == Column(x, height - 1) + {(x, height - 1)};
    }
  }

  /** The grid is its first `width - 1` columns plus the last one, which shares no position with them. */
  lemma AllCellsSplit(width: nat, height: nat)
    requires width > 0
    ensures AllCells(width, height) == AllCells(width - 1, height) + Column(width - 1, height)
    ensures AllCells(width - 1, height) !! Column(width - 1, height)
  {
    var rest, last := AllCells(width - 1, height), Column(width - 1, height);
    forall p | p in AllCells(width, height)
      ensures p in rest + last
    {
      if p.0 < width - 1 {
        assert p in rest;
      } else {
        assert p in last;
      }
    }
  }

  /** The grid has `width * height` positions. */
  lemma {:induction false} AllCellsCount(width: nat, height: nat)
    ensures |AllCells(width, height)| == width * height
  {
    if width > 0 {
      AllCellsCount(width - 1, height);
      ColumnCount(width - 1, height);
      AllCellsSplit(width, height);
      var w := width - 1;
      assert w * height + height == (w + 1) * height;
    }
  }

  /** `n` lists of `n` entries, each 0 or 1. */
  predicate IsGrid(n: nat, grid: seq<seq<int>>) {
    && |grid| == n
    && (forall x :: 0 <= x < n ==> |grid[x]| == n)
    && (forall x, y :: 0 <= x < n && 0 <= y < n ==> grid[x][y] == 0 || grid[x][y] == 1)
  }

  /** The positions whose entry reads 1. */
  function DirtyOf(n: nat, grid: seq<seq<int>>): set<Cell>
    requires IsGrid(n, grid)
  {
    set x, y | 0 <= x < n && 0 <= y < n && grid[x][y] == 1 :: (x, y)
  }

  /** The positions whose entry reads 0. */
  function CleanOf(n: nat, grid: seq<seq<int>>): set<Cell>
    requires IsGrid(n, grid)
  {
    set x, y | 0 <= x < n && 0 <= y < n && grid[x][y] == 0 :: (x, y)
  }

  /** The grid with the entry at the in-grid position `p` set to `v`. */
  function Written(n: nat, grid: seq<seq<int>>, p: Cell, v: int): (g: seq<seq<int>>)
    requires IsGrid(n, grid) && InBounds(n, n, p) && (v == 0 || v == 1)
    ensures IsGrid(n, g)
    ensures g[p.0][p.1] == v
    ensures forall x, y :: 0 <= x < n && 0 <= y < n && (x, y) != p ==> g[x][y] == grid[x][y]
    ensures DirtyOf(n, g) == if v == 1 then DirtyOf(n, grid) + {p} else DirtyOf(n, grid) - {p}
  {
    var g := grid[p.0 := grid[p.0][p.1 := v]];
    assert forall x, y :: 0 <= x < n && 0 <= y < n && (x, y) != p ==> g[x][y] == grid[x][y];
    g
  }

  /**
   * The grid after `clean_cell(p)`: an in-grid dirty entry becomes 0, and
   * every other input leaves the grid as it is.
   */
  function Cleaned(n: nat, grid: seq<seq<int>>, p: Cell): (g: seq<seq<int>>)
    requires IsGrid(n, grid)
    ensures IsGrid(n, g)
    ensures InBounds(n, n, p) ==> g[p.0][p.1] == 0
    ensures forall x, y :: 0 <= x < n && 0 <= y < n && (x, y) != p ==> g[x][y] == grid[x][y]
    ensures DirtyOf(n, g) == DirtyOf(n, grid) - {p}
  {
    if InBounds(n, n, p) && grid[p.0][p.1] == 1 then Written(n, grid, p, 0) else grid
  }

  /** Cleaning a position twice is cleaning it once. */
  lemma CleanedIdempotent(n: nat, grid: seq<seq<int>>, p: Cell)
    requires IsGrid(n, grid)
    ensures Cleaned(n, Cleaned(n, grid, p), p) == Cleaned(n, grid, p)
  {
  }

  /** Every position is either clean or dirty, so the two counts add up to the grid size. */
  lemma {:induction false} CountsPartition(n: nat, grid: seq<seq<int>>)
    requires IsGrid(n, grid)
    ensures |DirtyOf(n, grid)| + |CleanOf(n, grid)| == n * n
  {
    AllCellsCount(n, n);
    assert DirtyOf(n, grid) + CleanOf(n, grid) == AllCells(n, n);
    assert DirtyOf(n, grid) !! CleanOf(n, grid);
  }

  class Environment {
    const width: nat
    const height: nat
    var grid: seq<seq<int>>
    /** `dirty_cells`. */
    var dirtyCells: set<Cell>

    /** The grid is square and well formed, and `dirty_cells` lists exactly its dirty entries. */
    predicate Valid()
      reads this`grid, this`dirtyCells
    {
      width == height && IsGrid(width, grid) && dirtyCells == DirtyOf(width, grid)
    }

    /**
     * `__init__` with the positions `random.sample` drew for the dirt
     * (`int(width * height * dirty_percentage)` of them, all in the grid).
     */
    constructor (width: nat, height: nat, dirtyPositions: seq<Cell>)
      requires width == height
      requires forall i :: 0 <= i < |dirtyPositions| ==> InBounds(width, height, dirtyPositions[i])
      ensures this.width == width && this.height == height && Valid()
      ensures dirtyCells == set i | 0 <= i < |dirtyPositions| :: dirtyPositions[i]
    {
      this.width, this.height := width, height;
      grid := seq(height, _ => seq(width, _ => 0));
      dirtyCells := {};
      new;
      assert DirtyOf(width, grid) == {};
      InitializeDirtyCells(dirtyPositions);
    }

    /** `_initialize_dirty_cells`: every drawn position reads 1 and joins `dirty_cells`. */
    method InitializeDirtyCells(dirtyPositions: seq<Cell>)
      requires Valid()
      requires forall i :: 0 <= i < |dirtyPositions| ==> InBounds(width, height, dirtyPositions[i])
      modifies this`grid, this`dirtyCells
      ensures Valid()
      ensures dirtyCells == old(dirtyCells) + set i | 0 <= i < |dirtyPositions| :: dirtyPositions[i]
    {
      var i := 0;
      while i < |dirtyPositions|
        invariant 0 <= i <= |dirtyPositions|
        invariant Valid()
        invariant dirtyCells == old(dirtyCells) + set j | 0 <= j < i :: dirtyPositions[j]
      {
        var p := dirtyPositions[i];
        grid := Written(width, grid, p, 1);
        dirtyCells := dirtyCells + {p};
        assert (set j | 0 <= j < i + 1 :: dirtyPositions[j]) == (set j | 0 <= j < i :: dirtyPositions[j]) + {p};
        i := i + 1;
      }
    }

    predicate IsValidPosition(p: Cell) {
      InBounds(width, height, p)
    }

    /** `get_cell_state`: -1 exactly off the grid, else the entry, which reads 1 exactly at a dirty position. */
    function GetCellState(p: Cell): (r: int)
      requires Valid()
      reads this`grid, this`dirtyCells
      ensures r == -1 <==> !IsValidPosition(p)
      ensures IsValidPosition(p) ==> r == grid[p.0][p.1] && (r == 1 <==> p in dirtyCells)
      ensures r == -1 || r == 0 || r == 1
    {
      if IsValidPosition(p) then grid[p.0][p.1] else -1
    }

    /** `clean_cell`: the position is no longer dirty, and nothing else changes. */
    method CleanCell(p: Cell)
      requires Valid()
      modifies this`grid, this`dirtyCells
      ensures Valid()
      ensures grid == Cleaned(width, old(grid), p)
      ensures dirtyCells == old(dirtyCells) - {p}
    {
      if IsValidPosition(p) && grid[p.0][p.1] == 1 {
        grid := Written(width, grid, p, 0);
        dirtyCells := dirtyCells - {p};
      }
    }

    /** `get_dirty_count`. */
    function GetDirtyCount(): (count: nat)
      requires Valid()
      reads this`grid, this`dirtyCells
      ensures count == |DirtyOf(width, grid)| && count <= width * height
    {
      CountsPartition(width, grid);
      |dirtyCells|
    }

    /** `get_clean_count`: the grid size minus the dirty count, which is the number of clean entries. */
    function GetCleanCount(): (count: int)
      requires Valid()
      reads this`grid, this`dirtyCells
      ensures count == |CleanOf(width, grid)|
      ensures count + GetDirtyCount() == width * height
    {
      CountsPartition(width, grid);
      width * height - |dirtyCells|
    }

    /** `get_dirty_cells`: the in-grid positions whose entry reads 1 (a set value, so never an alias). */
    function GetDirtyCells(): (cells: set<Cell>)
      requires Valid()
      reads this`grid, this`dirtyCells
      ensures forall p :: p in cells <==> IsValidPosition(p) && grid[p.0][p.1] == 1
    {
      dirtyCells
    }
  }
}
