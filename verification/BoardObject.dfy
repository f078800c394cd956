/** `board_t` as it is stored and updated in place: a 10x10 cell array, a ship table and two counters. */
module BoardObject {
  import opened Boards
  import opened BoardLaws

  class Board {
    const grid: array2<CellState>
    const ships: array<ShipRec>
    var shipsPlaced: nat
    var shipsSunk: nat

    ghost predicate Valid()
      reads this, ships
    {
      && grid.Length0 == ROWS && grid.Length1 == COLS
      && ships.Length == NUM_SHIPS
      && shipsPlaced <= NUM_SHIPS
      && forall i :: 0 <= i < shipsPlaced ==> InBounds(ships[i].at)
    }

    ghost function Cells(): Grid
      requires grid.Length0 == ROWS && grid.Length1 == COLS
      reads grid
    {
      map c | c in AllCells() :: grid[c.row, c.col]
    }

    /** The value this object stands for. */
    ghost function View(): (b: BoardState)
      requires Valid()
      reads this, grid, ships
      ensures FullGrid(b.grid)
    {
      BoardState(Cells(), ships[..shipsPlaced], shipsSunk)
    }

    constructor ()
      ensures Valid() && View() == InitialBoard()
      ensures fresh(grid) && fresh(ships)
    {
      grid := new CellState[ROWS, COLS]((i, j) => Empty);
      ships := new ShipRec[NUM_SHIPS](i => ShipRec(Placement(0, 0, 0, 0, Horizontal), 0, false));
      shipsPlaced, shipsSunk := 0, 0;
    }

    /** `board_init`. */
    method Init()
      requires Valid()
      modifies this, grid, ships
      ensures Valid() && View() == InitialBoard()
    {
      forall r, c | 0 <= r < ROWS && 0 <= c < COLS {
        grid[r, c] := Empty;
      }
      forall i | 0 <= i < NUM_SHIPS {
        ships[i] := ShipRec(Placement(0, 0, 0, 0, Horizontal), 0, false);
      }
      shipsPlaced, shipsSunk := 0, 0;
    }

    /** The ship fits here. */
    predicate Fits(p: Placement)
      requires Valid()
      reads this, grid, ships
      ensures Fits(p) <==> CanPlace(View(), p)
    {
      assert forall c: Cell :: Contains(p, c) ==> c == Nth(p, IndexIn(p, c));
      assert InBounds(p) ==> forall k :: 0 <= k < p.size ==> Contains(p, Nth(p, k)) && InGrid(Nth(p, k));
      InBounds(p) && forall k :: 0 <= k < p.size ==> grid[Nth(p, k).row, Nth(p, k).col] == Empty
    }

    /** The ship as a rectangle one cell wide: every cell of it is on the grid and empty. */
    ghost predicate Free(p: Placement)
      requires Valid()
      reads this, grid, ships
    {
      var width, height := if p.orient == Horizontal then p.size else 1, if p.orient == Horizontal then 1 else p.size;
      forall c: Cell :: p.col <= c.col < p.col + width && p.row <= c.row < p.row + height ==>
                          InGrid(c) && View().grid[c] == Empty
    }

    lemma FitsCellByCell(p: Placement)
      requires Valid() && 1 <= p.size
      ensures CanPlace(View(), p) <==> Free(p)
    {
      InBoundsMeans(p);
    }

    /** Cell number `k` of the ship is on the grid and empty. */
    ghost predicate CellFree(p: Placement, k: int)
      requires Valid()
      reads this, grid, ships
    {
      InGrid(Nth(p, k)) && grid[Nth(p, k).row, Nth(p, k).col] == Empty
    }

    lemma NotFree(p: Placement, k: nat)
      requires Valid() && k < p.size && !CellFree(p, k)
      ensures !Free(p)
    {
      assert InGrid(Nth(p, k)) ==> View().grid[Nth(p, k)] != Empty;
    }

    lemma AllFree(p: Placement)
      requires Valid() && forall k :: 0 <= k < p.size ==> CellFree(p, k)
      ensures Free(p)
    {
      forall c: Cell | Contains(p, c)
        ensures InGrid(c) && View().grid[c] == Empty
      {
        assert c == Nth(p, IndexIn(p, c)) && CellFree(p, IndexIn(p, c));
      }
    }

    /** `board_can_place`. */
    method CanPlaceAt(p: Placement) returns (ok: bool)
      requires Valid()
      requires InGrid(Cell(p.col, p.row)) && 1 <= p.size
      ensures ok <==> CanPlace(View(), p)
      ensures ok <==> Free(p)
    {
      FitsCellByCell(p);
      hide CanPlace, Free, FullGrid, View, Cells;
      if p.orient == Horizontal {
        if p.col + p.size > COLS {
          NotFree(p, p.size - 1);
          return false;
        }
        for c := p.col to p.col + p.size
          invariant forall k :: 0 <= k < c - p.col ==> CellFree(p, k)
        {
          if grid[p.row, c] != Empty {
            NotFree(p, c - p.col);
            return false;
          }
        }
      } else {
        if p.row + p.size > ROWS {
          NotFree(p, p.size - 1);
          return false;
        }
        for r := p.row to p.row + p.size
          invariant forall k :: 0 <= k < r - p.row ==> CellFree(p, k)
        {
          if grid[r, p.col] != Empty {
            NotFree(p, r - p.row);
            return false;
          }
        }
      }
      AllFree(p);
      return true;
    }

    /** The loop that writes one state into every cell of a ship. */
    method PaintShip(p: Placement, s: CellState)
      requires Valid() && InBounds(p)
      modifies grid
      ensures Cells() == Paint(old(Cells()), p, s)
    {
      if p.orient == Horizontal {
        for c := p.col to p.col + p.size
          invariant forall d: Cell :: InGrid(d) ==>
            grid[d.row, d.col] == if Contains(p, d) && d.col < c then s else old(grid[d.row, d.col])
        {
          grid[p.row, c] := s;
        }
      } else {
        for r := p.row to p.row + p.size
          invariant forall d: Cell :: InGrid(d) ==>
            grid[d.row, d.col] == if Contains(p, d) && d.row < r then s else old(grid[d.row, d.col])
        {
          grid[r, p.col] := s;
        }
      }
    }

    /** `board_place_ship`. */
    method Place(p: Placement)
      requires Valid() && InBounds(p) && shipsPlaced < NUM_SHIPS
      modifies this, grid, ships
      ensures Valid() && View() == PlaceShip(old(View()), p)
    {
      ships[shipsPlaced] := ShipRec(p, 0, false);
      PaintShip(p, Ship);
      shipsPlaced := shipsPlaced + 1;
      assert ships[..shipsPlaced] == old(ships[..shipsPlaced]) + [ShipRec(p, 0, false)];
    }

    /** `board_attack`. */
    method Shoot(c: Cell) returns (hit: bool)
      requires Valid() && InGrid(c)
      modifies this, grid, ships
      ensures Valid() && View() == Attack(old(View()), c)
      ensures hit <==> old(grid[c.row, c.col]) == Ship
    {
      ghost var before := View();
      if grid[c.row, c.col] != Ship {
        grid[c.row, c.col] := Miss;
        assert Cells() == before.grid[c := Miss];
        return false;
      }
      grid[c.row, c.col] := Hit;
      ghost var struck := before.(grid := before.grid[c := Hit]);
      assert Cells() == struck.grid;
      var i := 0;
      while i < shipsPlaced
        invariant i <= shipsPlaced
        invariant Valid() && View() == struck
        invariant FindAfloat(struck.ships, c, 0) == FindAfloat(struck.ships, c, i)
      {
        var s := ships[i];
        if !s.sunk && Contains(s.at, c) {
          DamageShip(i);
          return true;
        }
        i := i + 1;
      }
      return true;
    }

    /** The part of `board_attack` that counts the hit and sinks the ship. */
    method DamageShip(i: nat)
      requires Valid() && i < shipsPlaced
      modifies this, grid, ships
      ensures Valid() && View() == Damage(old(View()), i)
    {
      var s := ships[i];
      if s.hits + 1 >= s.at.size {
        ships[i] := ShipRec(s.at, s.hits + 1, true);
        shipsSunk := shipsSunk + 1;
        PaintShip(s.at, Sunk);
      } else {
        ships[i] := ShipRec(s.at, s.hits + 1, false);
      }
      assert ships[..shipsPlaced] == old(ships[..shipsPlaced])[i := ships[i]];
    }

    /** `board_already_attacked`. */
    method AlreadyAttacked(c: Cell) returns (r: bool)
      requires Valid() && InGrid(c)
      ensures r <==> c in ShotsOf(View())
    {
      r := grid[c.row, c.col] == Hit || grid[c.row, c.col] == Miss || grid[c.row, c.col] == Sunk;
    }

    /** `board_count_hits`; with `DamageConserved` this is the sum of the ships' hit counters. */
    method CountHits() returns (n: nat)
      requires Valid()
      ensures n == |HitCells(View())|
    {
      n := 0;
      ghost var seen: set<Cell> := {};
      for r := 0 to ROWS
        invariant n == |seen|
        invariant forall c: Cell :: c in seen <==> c in HitCells(View()) && c.row < r
      {
        for c := 0 to COLS
          invariant n == |seen|
          invariant forall d: Cell :: d in seen <==>
            d in HitCells(View()) && (d.row < r || (d.row == r && d.col < c))
        {
          if grid[r, c] == Hit || grid[r, c] == Sunk {
            assert Cell(c, r) !in seen;
            n, seen := n + 1, seen + {Cell(c, r)};
          }
        }
      }
      assert seen == HitCells(View());
    }

    /** `board_count_misses`. */
    method CountMisses() returns (n: nat)
      requires Valid()
      ensures n == |MissCells(View())|
    {
      n := 0;
      ghost var seen: set<Cell> := {};
      for r := 0 to ROWS
        invariant n == |seen|
        invariant forall c: Cell :: c in seen <==> c in MissCells(View()) && c.row < r
      {
        for c := 0 to COLS
          invariant n == |seen|
          invariant forall d: Cell :: d in seen <==>
            d in MissCells(View()) && (d.row < r || (d.row == r && d.col < c))
        {
          if grid[r, c] == Miss {
            assert Cell(c, r) !in seen;
            n, seen := n + 1, seen + {Cell(c, r)};
          }
        }
      }
      assert seen == MissCells(View());
    }
  }
}
