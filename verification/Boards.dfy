/** The board of one player (model/board.h, model/board.c) as a value, the operations of board.c on
    that value, and an independent description of every board the game can reach: `BoardOf(fleet, shots)`
    is computed from the fleet and the *set* of cells that were shot, with no history in it. */
module Boards {

  const COLS := 10
  const ROWS := 10
  const NUM_SHIPS := 5
  const SHIP_SIZES: seq<int> := [5, 4, 3, 3, 2]

  datatype Option<+T> = None | Some(value: T)

  datatype CellState = Empty | Ship | Hit | Miss | Sunk
  datatype Orientation = Horizontal | Vertical
  datatype Cell = Cell(col: int, row: int)

  /** Where a ship lies; these fields never change once the ship is placed. */
  datatype Placement = Placement(col: int, row: int, size: int, typeIdx: int, orient: Orientation)

  /** `ship_t`: a placement with its damage counters. */
  datatype ShipRec = ShipRec(at: Placement, hits: int, sunk: bool)

  type Grid = map<Cell, CellState>

  /** `board_t`; `ships` holds the first `ships_placed` entries of the array. */
  datatype BoardState = BoardState(grid: Grid, ships: seq<ShipRec>, shipsSunk: int)

  predicate InGrid(c: Cell) {
    0 <= c.col < COLS && 0 <= c.row < ROWS
  }

  ghost function AllCells(): (s: set<Cell>)
    ensures forall c: Cell :: c in s <==> InGrid(c)
  {
    set x, y | 0 <= x < COLS && 0 <= y < ROWS :: Cell(x, y)
  }

  ghost predicate FullGrid(g: Grid) {
    g.Keys == AllCells()
  }

  // ---------------------------------------------------------------------------------------------
  // Placements
  // ---------------------------------------------------------------------------------------------

  predicate Contains(p: Placement, c: Cell) {
    if p.orient == Horizontal
    then c.row == p.row && p.col <= c.col < p.col + p.size
    else c.col == p.col && p.row <= c.row < p.row + p.size
  }

  predicate InBounds(p: Placement) {
    && 1 <= p.size && 0 <= p.col && 0 <= p.row
    && if p.orient == Horizontal
       then p.col + p.size <= COLS && p.row < ROWS
       else p.row + p.size <= ROWS && p.col < COLS
  }

  function Nth(p: Placement, k: int): Cell {
    if p.orient == Horizontal then Cell(p.col + k, p.row) else Cell(p.col, p.row + k)
  }

  /** Position of `c` within the ship, counted from its top-left cell. */
  function IndexIn(p: Placement, c: Cell): int {
    if p.orient == Horizontal then c.col - p.col else c.row - p.row
  }

  ghost function Cells(p: Placement): (s: set<Cell>)
    ensures forall c: Cell :: c in s <==> Contains(p, c)
  {
    var s := set k | 0 <= k < p.size :: Nth(p, k);
    assert forall c: Cell :: Contains(p, c) ==> c == Nth(p, IndexIn(p, c));
    s
  }

  lemma {:induction false} CellsCount(p: Placement)
    requires 0 <= p.size
    ensures |Cells(p)| == p.size
    decreases p.size
  {
    if p.size == 0 {
      assert Cells(p) == {};
    } else {
      var q := p.(size := p.size - 1);
      CellsCount(q);
      assert Cells(p) == Cells(q) + {Nth(p, p.size - 1)};
    }
  }

  ghost predicate Disjoint(p: Placement, q: Placement) {
    forall c: Cell :: Contains(p, c) ==> !Contains(q, c)
  }

  /** Every ship on the board, no two ships on one cell. */
  ghost predicate LegalFleet(f: seq<Placement>) {
    && (forall i :: 0 <= i < |f| ==> InBounds(f[i]))
    && (forall i, j {:trigger Disjoint(f[i], f[j])} :: 0 <= i < j < |f| ==> Disjoint(f[i], f[j]))
  }

  /** The first ships of the canonical fleet, in order. */
  ghost predicate StandardFleet(f: seq<Placement>) {
    && LegalFleet(f)
    && |f| <= NUM_SHIPS
    && forall i :: 0 <= i < |f| ==> f[i].size == SHIP_SIZES[i] && f[i].typeIdx == i
  }

  ghost predicate FullFleet(f: seq<Placement>) {
    StandardFleet(f) && |f| == NUM_SHIPS
  }

  /** A ship is in bounds exactly if every one of its cells is on the grid. */
  lemma InBoundsMeans(p: Placement)
    requires 1 <= p.size
    ensures InBounds(p) <==> forall c: Cell :: Contains(p, c) ==> InGrid(c)
  {
    assert Contains(p, Nth(p, 0)) && Contains(p, Nth(p, p.size - 1));
  }

  // ---------------------------------------------------------------------------------------------
  // The board as a function of fleet and shots
  // ---------------------------------------------------------------------------------------------

  ghost predicate Occupied(f: seq<Placement>, c: Cell) {
    exists i :: 0 <= i < |f| && Contains(f[i], c)
  }

  /** Every cell of the ship was shot. */
  ghost predicate Wrecked(p: Placement, shots: set<Cell>) {
    Cells(p) <= shots
  }

  ghost function StateOf(f: seq<Placement>, shots: set<Cell>, c: Cell): CellState {
    if c !in shots then
      if Occupied(f, c) then Ship else Empty
    else if !Occupied(f, c) then Miss
    else if exists i :: 0 <= i < |f| && Contains(f[i], c) && Wrecked(f[i], shots) then Sunk
    else Hit
  }

  ghost function RecordOf(p: Placement, shots: set<Cell>): ShipRec {
    ShipRec(p, |Cells(p) * shots|, Wrecked(p, shots))
  }

  ghost function WreckedShips(f: seq<Placement>, shots: set<Cell>): set<int> {
    set i | 0 <= i < |f| && Wrecked(f[i], shots)
  }

  ghost function BoardOf(f: seq<Placement>, shots: set<Cell>): BoardState {
    BoardState(
      map c | c in AllCells() :: StateOf(f, shots, c),
      seq(|f|, i requires 0 <= i < |f| => RecordOf(f[i], shots)),
      |WreckedShips(f, shots)|)
  }

  function Attacked(s: CellState): bool {
    s == Hit || s == Miss || s == Sunk
  }

  function FleetOf(b: BoardState): seq<Placement> {
    seq(|b.ships|, i requires 0 <= i < |b.ships| => b.ships[i].at)
  }

  function ShotsOf(b: BoardState): set<Cell> {
    set c | c in b.grid && Attacked(b.grid[c])
  }

  /** A board that some fleet and some set of shots explain. */
  ghost predicate LegalBoard(b: BoardState) {
    && LegalFleet(FleetOf(b))
    && b == BoardOf(FleetOf(b), ShotsOf(b))
  }

  /** Fleet and shots can be read back from the board. */
  lemma BoardOfInverse(f: seq<Placement>, shots: set<Cell>)
    requires shots <= AllCells()
    ensures FleetOf(BoardOf(f, shots)) == f
    ensures ShotsOf(BoardOf(f, shots)) == shots
    ensures LegalFleet(f) ==> LegalBoard(BoardOf(f, shots))
  {
    var b := BoardOf(f, shots);
    assert forall c: Cell :: c in b.grid ==> (Attacked(b.grid[c]) <==> c in shots);
    assert ShotsOf(b) == shots;
  }

  // ---------------------------------------------------------------------------------------------
  // The operations of board.c on values
  // ---------------------------------------------------------------------------------------------

  /** `board_init`. */
  ghost function InitialBoard(): BoardState {
    BoardState(map c | c in AllCells() :: Empty, [], 0)
  }

  function Paint(g: Grid, p: Placement, s: CellState): Grid {
    map c | c in g :: if Contains(p, c) then s else g[c]
  }

  /** `board_can_place`. */
  ghost predicate CanPlace(b: BoardState, p: Placement)
    requires FullGrid(b.grid)
  {
    && InBounds(p)
    && forall c: Cell :: Contains(p, c) ==> b.grid[c] == Empty
  }

  /** `board_place_ship`. */
  function PlaceShip(b: BoardState, p: Placement): BoardState {
    BoardState(Paint(b.grid, p, Ship), b.ships + [ShipRec(p, 0, false)], b.shipsSunk)
  }

  /** The first ship from index `i` on that is afloat and covers `c`. */
  function FindAfloat(ships: seq<ShipRec>, c: Cell, i: nat): (r: Option<nat>)
    requires i <= |ships|
    ensures r.Some? ==> i <= r.value < |ships| && !ships[r.value].sunk && Contains(ships[r.value].at, c)
    ensures r.None? ==> forall j :: i <= j < |ships| ==> ships[j].sunk || !Contains(ships[j].at, c)
    decreases |ships| - i
  {
    if i == |ships| then None
    else if !ships[i].sunk && Contains(ships[i].at, c) then Some(i)
    else FindAfloat(ships, c, i + 1)
  }

  /** The damage a shot at `c` does to ship `i`. */
  function Damage(b: BoardState, i: nat): BoardState
    requires i < |b.ships|
  {
    var s := b.ships[i];
    if s.hits + 1 >= s.at.size
    then BoardState(Paint(b.grid, s.at, Sunk), b.ships[i := ShipRec(s.at, s.hits + 1, true)], b.shipsSunk + 1)
    else b.(ships := b.ships[i := ShipRec(s.at, s.hits + 1, false)])
  }

  /** `board_attack`, on any cell: a cell that was attacked before is overwritten with `Miss`. */
  function Attack(b: BoardState, c: Cell): (r: BoardState)
    requires c in b.grid
    ensures r.grid.Keys == b.grid.Keys
  {
    if b.grid[c] != Ship then b.(grid := b.grid[c := Miss])
    else
      var b' := b.(grid := b.grid[c := Hit]);
      match FindAfloat(b.ships, c, 0)
      case None => b'
      case Some(i) => Damage(b', i)
  }

  function AllSunk(b: BoardState): bool {
    b.shipsSunk >= NUM_SHIPS
  }

  // ---------------------------------------------------------------------------------------------
  // Laws
  // ---------------------------------------------------------------------------------------------

  lemma InitialIsBoardOf()
    ensures InitialBoard() == BoardOf([], {})
  {
    assert WreckedShips([], {}) == {};
    assert forall c: Cell :: !Occupied([], c);
  }

  lemma OwnerUnique(f: seq<Placement>, i: int, j: int, c: Cell)
    requires LegalFleet(f)
    requires 0 <= i < |f| && 0 <= j < |f| && Contains(f[i], c) && Contains(f[j], c)
    ensures i == j
  {
    assert i < j ==> Disjoint(f[i], f[j]);
    assert j < i ==> Disjoint(f[j], f[i]);
  }

  /** The state of a cell depends only on the ship that covers it. */
  lemma StateOfOwned(f: seq<Placement>, shots: set<Cell>, c: Cell, i: int)
    requires LegalFleet(f) && 0 <= i < |f| && Contains(f[i], c)
    ensures StateOf(f, shots, c) == if c !in shots then Ship else if Wrecked(f[i], shots) then Sunk else Hit
  {
    forall j | 0 <= j < |f| && Contains(f[j], c)
      ensures i == j
    {
      OwnerUnique(f, i, j, c);
    }
  }

  lemma PrefixIsLegal(f: seq<Placement>, n: nat)
    requires LegalFleet(f) && n <= |f|
    ensures LegalFleet(f[..n])
  {
    forall i, j | 0 <= i < j < n
      ensures Disjoint(f[..n][i], f[..n][j])
    {
      assert Disjoint(f[i], f[j]);
    }
  }

  lemma ExtendedFleetIsLegal(f: seq<Placement>, p: Placement)
    requires LegalFleet(f) && InBounds(p)
    requires forall c: Cell :: Contains(p, c) ==> !Occupied(f, c)
    ensures LegalFleet(f + [p])
  {
    var f' := f + [p];
    forall i, j | 0 <= i < j < |f'|
      ensures Disjoint(f'[i], f'[j])
    {
      if j < |f| {
        assert Disjoint(f[i], f[j]);
      } else {
        assert f'[i] == f[i] && f'[j] == p;
      }
    }
  }

  lemma StateAfterPlacing(f: seq<Placement>, shots: set<Cell>, p: Placement, c: Cell)
    requires LegalFleet(f) && LegalFleet(f + [p])
    requires Contains(p, c) ==> c !in shots
    ensures StateOf(f + [p], shots, c) == if Contains(p, c) then Ship else StateOf(f, shots, c)
  {
    var f' := f + [p];
    if Contains(p, c) {
      StateOfOwned(f', shots, c, |f|);
    } else if i :| 0 <= i < |f| && Contains(f[i], c) {
      StateOfOwned(f, shots, c, i);
      StateOfOwned(f', shots, c, i);
    } else {
      assert !Occupied(f', c);
    }
  }

  lemma PlacedGrid(f: seq<Placement>, shots: set<Cell>, p: Placement)
    requires LegalFleet(f) && LegalFleet(f + [p])
    requires forall c: Cell :: Contains(p, c) ==> c !in shots
    ensures BoardOf(f + [p], shots).grid == Paint(BoardOf(f, shots).grid, p, Ship)
  {
    forall c: Cell | InGrid(c)
      ensures StateOf(f + [p], shots, c) == if Contains(p, c) then Ship else StateOf(f, shots, c)
    {
      StateAfterPlacing(f, shots, p, c);
    }
  }

  lemma PlacedRecords(f: seq<Placement>, shots: set<Cell>, p: Placement)
    requires 1 <= p.size && forall c: Cell :: Contains(p, c) ==> c !in shots
    ensures BoardOf(f + [p], shots).ships == BoardOf(f, shots).ships + [ShipRec(p, 0, false)]
    ensures WreckedShips(f + [p], shots) == WreckedShips(f, shots)
  {
    assert Cells(p) * shots == {};
    assert Contains(p, Nth(p, 0));
    assert RecordOf(p, shots) == ShipRec(p, 0, false);
  }

  /** A fitting ship extends the fleet and changes nothing else, whatever was shot before. */
  lemma PlaceRefines(f: seq<Placement>, shots: set<Cell>, p: Placement)
    requires LegalFleet(f) && CanPlace(BoardOf(f, shots), p)
    ensures LegalFleet(f + [p])
    ensures PlaceShip(BoardOf(f, shots), p) == BoardOf(f + [p], shots)
  {
    forall c: Cell | Contains(p, c)
      ensures c !in shots && !Occupied(f, c)
    {
      assert InGrid(c) && BoardOf(f, shots).grid[c] == Empty;
    }
    ExtendedFleetIsLegal(f, p);
    PlacedGrid(f, shots, p);
    PlacedRecords(f, shots, p);
  }

  /** One ship's counter reaches its size exactly when its last cell is shot. */
  lemma HitCounting(p: Placement, shots: set<Cell>, c: Cell)
    requires 0 <= p.size && Contains(p, c) && c !in shots
    ensures |Cells(p) * (shots + {c})| == |Cells(p) * shots| + 1
    ensures |Cells(p) * shots| + 1 >= p.size <==> Wrecked(p, shots + {c})
  {
    var here := Cells(p) * (shots + {c});
    assert here == Cells(p) * shots + {c};
    CellsCount(p);
    assert here <= Cells(p);
    if |here| >= p.size {
      SubsetOfSameSize(here, Cells(p));
    }
    if Wrecked(p, shots + {c}) {
      assert here == Cells(p);
    }
  }

  lemma SubsetOfSameSize<T>(a: set<T>, b: set<T>)
    requires a <= b && |a| >= |b|
    ensures a == b
  {
    assert b == a + (b - a);
    assert |b| == |a| + |b - a|;
  }

  /** A shot leaves the record of every other ship as it was. */
  lemma OtherShipsUnharmed(p: Placement, shots: set<Cell>, c: Cell)
    requires !Contains(p, c)
    ensures RecordOf(p, shots + {c}) == RecordOf(p, shots)
    ensures Wrecked(p, shots + {c}) == Wrecked(p, shots)
  {
    assert Cells(p) * (shots + {c}) == Cells(p) * shots;
  }

  lemma WaterRecords(f: seq<Placement>, shots: set<Cell>, c: Cell)
    requires !Occupied(f, c)
    ensures BoardOf(f, shots + {c}).ships == BoardOf(f, shots).ships
    ensures WreckedShips(f, shots + {c}) == WreckedShips(f, shots)
  {
    forall i | 0 <= i < |f|
      ensures RecordOf(f[i], shots + {c}) == RecordOf(f[i], shots)
      ensures Wrecked(f[i], shots + {c}) == Wrecked(f[i], shots)
    {
      OtherShipsUnharmed(f[i], shots, c);
    }
  }

  lemma AttackOnWater(f: seq<Placement>, shots: set<Cell>, c: Cell)
    requires LegalFleet(f) && InGrid(c) && c !in shots && !Occupied(f, c)
    ensures Attack(BoardOf(f, shots), c) == BoardOf(f, shots + {c})
  {
    WaterRecords(f, shots, c);
    forall d: Cell | InGrid(d)
      ensures StateOf(f, shots + {c}, d) == if d == c then Miss else StateOf(f, shots, d)
    {
      if d != c { StateElsewhere(f, shots, c, d); }
    }
    assert BoardOf(f, shots + {c}).grid == BoardOf(f, shots).grid[c := Miss];
  }

  /** A shot at a fresh cell is exactly one more cell in the set of shots. */
  lemma AttackRefines(f: seq<Placement>, shots: set<Cell>, c: Cell)
    requires LegalFleet(f) && InGrid(c) && c !in shots
    ensures Attack(BoardOf(f, shots), c) == BoardOf(f, shots + {c})
  {
    if i :| 0 <= i < |f| && Contains(f[i], c) {
      AttackOnShip(f, shots, c, i);
    } else {
      AttackOnWater(f, shots, c);
    }
  }

  /** A shot at `c` shows only at `c` and on the ship that covers `c`. */
  lemma StateElsewhere(f: seq<Placement>, shots: set<Cell>, c: Cell, d: Cell)
    requires LegalFleet(f) && c != d
    requires forall i :: 0 <= i < |f| && Contains(f[i], c) ==> !Contains(f[i], d)
    ensures StateOf(f, shots + {c}, d) == StateOf(f, shots, d)
  {
    if i :| 0 <= i < |f| && Contains(f[i], d) {
      OtherShipsUnharmed(f[i], shots, c);
      StateOfOwned(f, shots, d, i);
      StateOfOwned(f, shots + {c}, d, i);
    }
  }

  lemma FindOnly(ships: seq<ShipRec>, c: Cell, i: nat)
    requires i < |ships| && !ships[i].sunk && Contains(ships[i].at, c)
    requires forall j :: 0 <= j < |ships| && j != i ==> !Contains(ships[j].at, c)
    ensures FindAfloat(ships, c, 0) == Some(i)
  {
  }

  lemma RecordsAfter(f: seq<Placement>, shots: set<Cell>, c: Cell, i: nat)
    requires LegalFleet(f) && c !in shots
    requires i < |f| && Contains(f[i], c)
    ensures BoardOf(f, shots + {c}).ships == BoardOf(f, shots).ships[i := RecordOf(f[i], shots + {c})]
    ensures FindAfloat(BoardOf(f, shots).ships, c, 0) == Some(i)
  {
    forall j | 0 <= j < |f| && j != i
      ensures !Contains(f[j], c) && RecordOf(f[j], shots + {c}) == RecordOf(f[j], shots)
    {
      if Contains(f[j], c) { OwnerUnique(f, i, j, c); }
      OtherShipsUnharmed(f[j], shots, c);
    }
    assert c in Cells(f[i]);
    FindOnly(BoardOf(f, shots).ships, c, i);
  }

  lemma GridAfter(f: seq<Placement>, shots: set<Cell>, c: Cell, i: nat)
    requires LegalFleet(f) && InGrid(c) && c !in shots
    requires i < |f| && Contains(f[i], c)
    ensures BoardOf(f, shots + {c}).grid ==
            if Wrecked(f[i], shots + {c}) then Paint(BoardOf(f, shots).grid, f[i], Sunk)
            else BoardOf(f, shots).grid[c := Hit]
  {
    forall d: Cell | InGrid(d)
      ensures StateOf(f, shots + {c}, d) ==
              if Contains(f[i], d) && Wrecked(f[i], shots + {c}) then Sunk
              else if d == c then Hit
              else StateOf(f, shots, d)
    {
      if Contains(f[i], d) {
        StateOfOwned(f, shots, d, i);
        StateOfOwned(f, shots + {c}, d, i);
      } else {
        forall j | 0 <= j < |f| && Contains(f[j], c)
          ensures j == i
        {
          OwnerUnique(f, i, j, c);
        }
        StateElsewhere(f, shots, c, d);
      }
    }
  }

  lemma WreckedAfter(f: seq<Placement>, shots: set<Cell>, c: Cell, i: nat)
    requires LegalFleet(f) && c !in shots
    requires i < |f| && Contains(f[i], c)
    ensures |WreckedShips(f, shots + {c})| ==
            |WreckedShips(f, shots)| + if Wrecked(f[i], shots + {c}) then 1 else 0
  {
    var w, w' := WreckedShips(f, shots), WreckedShips(f, shots + {c});
    forall j | 0 <= j < |f| && j != i
      ensures j in w <==> j in w'
    {
      if Contains(f[j], c) { OwnerUnique(f, i, j, c); }
      OtherShipsUnharmed(f[j], shots, c);
      assert RecordOf(f[j], shots).sunk == RecordOf(f[j], shots + {c}).sunk;
    }
    assert !Wrecked(f[i], shots);
    assert w' == if Wrecked(f[i], shots + {c}) then w + {i} else w;
  }

  /** What `Attack` computes on a cell of a floating ship, field by field. */
  lemma AttackShipCell(b: BoardState, c: Cell, i: nat, after: BoardState)
    requires c in b.grid && b.grid[c] == Ship
    requires FindAfloat(b.ships, c, 0) == Some(i)
    requires var s, sinks := b.ships[i], b.ships[i].hits + 1 >= b.ships[i].at.size;
             && after.ships == b.ships[i := ShipRec(s.at, s.hits + 1, sinks)]
             && after.grid == (if sinks then Paint(b.grid, s.at, Sunk) else b.grid[c := Hit])
             && after.shipsSunk == b.shipsSunk + if sinks then 1 else 0
    ensures Attack(b, c) == after
  {
    assert Paint(b.grid[c := Hit], b.ships[i].at, Sunk) == Paint(b.grid, b.ships[i].at, Sunk);
  }

  lemma AttackOnShip(f: seq<Placement>, shots: set<Cell>, c: Cell, i: nat)
    requires LegalFleet(f) && InGrid(c) && c !in shots
    requires i < |f| && Contains(f[i], c)
    ensures Attack(BoardOf(f, shots), c) == BoardOf(f, shots + {c})
  {
    StateOfOwned(f, shots, c, i);
    RecordsAfter(f, shots, c, i);
    GridAfter(f, shots, c, i);
    WreckedAfter(f, shots, c, i);
    HitCounting(f[i], shots, c);
    AttackShipCell(BoardOf(f, shots), c, i, BoardOf(f, shots + {c}));
  }
}
