/** Rays over the grid: what the bot sees when it looks from a cell in one of the four directions. */
module Rays {
  import opened Boards

  /** 0 up, 1 right, 2 down, 3 left: the encoding of `hunt_dir`. */
  type Dir = d: int | 0 <= d < 4

  /** The direction tried next in search mode. */
  function Clockwise(d: Dir): Dir {
    if d == 3 then 0 else d + 1
  }

  /** The direction that destroy mode turns to. */
  function Opposite(d: Dir): Dir {
    if d < 2 then d + 2 else d - 2
  }

  function Along(c: Cell, d: Dir, k: int): Cell {
    match d
    case 0 => Cell(c.col, c.row - k)
    case 1 => Cell(c.col + k, c.row)
    case 2 => Cell(c.col, c.row + k)
    case _ => Cell(c.col - k, c.row)
  }

  /** How many steps lead from `c` to the border. */
  function Room(c: Cell, d: Dir): int {
    match d
    case 0 => c.row
    case 1 => COLS - 1 - c.col
    case 2 => ROWS - 1 - c.row
    case _ => c.col
  }

  predicate IsHit(g: Grid, c: Cell) {
    c in g && g[c] == Hit
  }

  predicate IsFresh(g: Grid, c: Cell) {
    c in g && !Attacked(g[c])
  }

  /** The number of `Hit` cells in a row next to `c` in direction `d`. */
  function RunLength(g: Grid, c: Cell, d: Dir): (n: nat)
    requires forall x :: x in g ==> InGrid(x)
    ensures forall j :: 1 <= j <= n ==> IsHit(g, Along(c, d, j))
    ensures !IsHit(g, Along(c, d, n + 1))
    decreases Room(c, d) + 1
  {
    var next := Along(c, d, 1);
    if !IsHit(g, next) then 0
    else
      var n := RunLength(g, next, d);
      assert forall j :: 2 <= j <= n + 1 ==> Along(c, d, j) == Along(next, d, j - 1);
      assert Along(c, d, n + 2) == Along(next, d, n + 1);
      n + 1
  }

  /** The first cell that is not `Hit`; it may lie off the grid. */
  function EndOf(g: Grid, c: Cell, d: Dir): Cell
    requires forall x :: x in g ==> InGrid(x)
  {
    Along(c, d, RunLength(g, c, d) + 1)
  }

  /** The ray ends in a cell that can still be attacked. */
  predicate Open(g: Grid, c: Cell, d: Dir)
    requires forall x :: x in g ==> InGrid(x)
  {
    IsFresh(g, EndOf(g, c, d))
  }

  lemma RunLengthIs(g: Grid, c: Cell, d: Dir, n: nat)
    requires forall x :: x in g ==> InGrid(x)
    requires forall j :: 1 <= j <= n ==> IsHit(g, Along(c, d, j))
    requires !IsHit(g, Along(c, d, n + 1))
    ensures RunLength(g, c, d) == n
  {
    var m := RunLength(g, c, d);
    assert m < n ==> IsHit(g, Along(c, d, m + 1));
    assert n < m ==> IsHit(g, Along(c, d, n + 1));
  }

  /** Standing further out on a run of hits one sees the same end. */
  lemma SameEnd(g: Grid, c: Cell, d: Dir, k: nat)
    requires forall x :: x in g ==> InGrid(x)
    requires forall j :: 1 <= j <= k ==> IsHit(g, Along(c, d, j))
    ensures EndOf(g, Along(c, d, k), d) == EndOf(g, c, d)
    ensures Open(g, Along(c, d, k), d) <==> Open(g, c, d)
  {
    var far := Along(c, d, k);
    var n := RunLength(g, far, d);
    forall j | k < j <= k + n
      ensures IsHit(g, Along(c, d, j))
    {
      AlongFrom(c, d, k, j - k);
      assert IsHit(g, Along(far, d, j - k));
    }
    AlongFrom(c, d, k, n + 1);
    RunLengthIs(g, c, d, k + n);
  }

  lemma AlongFrom(c: Cell, d: Dir, k: int, j: int)
    ensures Along(Along(c, d, k), d, j) == Along(c, d, k + j)
  {
  }

  /** The end of a ray does not move when a fresh cell elsewhere is shot. */
  lemma RunUnmoved(g: Grid, c: Cell, d: Dir, x: Cell, v: CellState)
    requires forall y :: y in g ==> InGrid(y)
    requires IsFresh(g, x)
    requires EndOf(g, c, d) == x ==> v != Hit
    ensures RunLength(g[x := v], c, d) == RunLength(g, c, d)
  {
    var g' := g[x := v];
    var n := RunLength(g, c, d);
    assert forall j :: 1 <= j <= n ==> IsHit(g, Along(c, d, j)) && Along(c, d, j) != x;
    RunLengthIs(g', c, d, n);
  }

  /** The two directions in which a ship extends. */
  function AxisOf(p: Placement, forward: bool): Dir {
    if p.orient == Horizontal then (if forward then 1 else 3) else (if forward then 2 else 0)
  }

  lemma AlongAxis(p: Placement, c: Cell, forward: bool, k: int)
    requires Contains(p, c)
    ensures Along(c, AxisOf(p, forward), k) == Nth(p, IndexIn(p, c) + if forward then k else -k)
  {
  }

  /** On a ship that still floats every cell is either hit or fresh. */
  lemma AfloatCell(b: BoardState, i: int, e: Cell)
    requires LegalBoard(b) && 0 <= i < |b.ships| && !b.ships[i].sunk && Contains(b.ships[i].at, e)
    ensures InGrid(e)
    ensures b.grid[e] == if e in ShotsOf(b) then Hit else Ship
  {
    var f, s := FleetOf(b), ShotsOf(b);
    assert InBounds(f[i]);
    StateOfOwned(f, s, e, i);
    assert b.grid[e] == BoardOf(f, s).grid[e];
    assert b.ships[i] == RecordOf(f[i], s);
  }

  lemma HitMeansAfloat(b: BoardState, c: Cell) returns (i: int)
    requires LegalBoard(b) && IsHit(b.grid, c)
    ensures 0 <= i < |b.ships| && Contains(b.ships[i].at, c) && !b.ships[i].sunk
  {
    var f, s := FleetOf(b), ShotsOf(b);
    assert BoardOf(f, s).grid[c] == StateOf(f, s, c);
    i :| 0 <= i < |f| && Contains(f[i], c);
    assert b.ships[i] == RecordOf(f[i], s);
  }

  /** Looking along a floating ship towards one of its unhit cells, the view ends on the ship. */
  lemma OpenTowards(g: Grid, p: Placement, c: Cell, u: Cell)
    requires forall y :: y in g ==> InGrid(y)
    requires forall e: Cell :: Contains(p, e) ==> e in g && (g[e] == Hit || g[e] == Ship)
    requires Contains(p, c) && Contains(p, u) && g[c] == Hit && g[u] == Ship
    ensures Open(g, c, AxisOf(p, IndexIn(p, u) > IndexIn(p, c)))
  {
    var far := IndexIn(p, u) - IndexIn(p, c);
    var forward := far > 0;
    var d := AxisOf(p, forward);
    var reach := if forward then far else -far;
    AlongAxis(p, c, forward, reach);
    var n := RunLength(g, c, d);
    assert Along(c, d, reach) == u;
    AlongAxis(p, c, forward, n + 1);
    assert Contains(p, Along(c, d, n + 1));
  }

  /** A ship that was hit but not sunk can be found: along its own axis one of the two rays from any
      hit cell of it ends in a fresh cell. */
  lemma WoundedShipHasOpenRay(b: BoardState, c: Cell, i: int) returns (forward: bool)
    requires LegalBoard(b) && IsHit(b.grid, c)
    requires 0 <= i < |b.ships| && Contains(b.ships[i].at, c) && !b.ships[i].sunk
    ensures Open(b.grid, c, AxisOf(b.ships[i].at, forward))
  {
    var u := UnshotCell(b, i);
    forall e: Cell | Contains(b.ships[i].at, e)
      ensures e in b.grid && (b.grid[e] == Hit || b.grid[e] == Ship)
    {
      AfloatCell(b, i, e);
    }
    OpenTowards(b.grid, b.ships[i].at, c, u);
    forward := IndexIn(b.ships[i].at, u) > IndexIn(b.ships[i].at, c);
  }

  lemma UnshotCell(b: BoardState, i: int) returns (u: Cell)
    requires LegalBoard(b) && 0 <= i < |b.ships| && !b.ships[i].sunk
    ensures Contains(b.ships[i].at, u) && InGrid(u) && b.grid[u] == Ship
  {
    assert b.ships[i] == BoardOf(FleetOf(b), ShotsOf(b)).ships[i];
    u :| Contains(b.ships[i].at, u) && u !in ShotsOf(b);
    AfloatCell(b, i, u);
  }
}
