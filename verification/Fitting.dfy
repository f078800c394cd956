/** Why the rejection sampling of `bot_place_ships` can always succeed: the next ship of the fleet fits
    somewhere, whatever the placement of the ones before it. */
module Fitting {
  import opened Boards
  import opened BoardLaws

  /** Half a row: five cells, and twenty of them cover the grid. */
  function HalfRow(h: nat): Placement {
    Placement(5 * (h % 2), h / 2, 5, 0, Horizontal)
  }

  lemma HalfRowsApart(h: nat, k: nat, c: Cell)
    requires Contains(HalfRow(h), c) && Contains(HalfRow(k), c)
    ensures h == k
  {
  }

  /** If each of the first `n` half rows holds a marked cell, at least `n` cells are marked. */
  lemma {:induction false} Pigeonhole(n: nat, marked: set<Cell>)
    requires forall h :: 0 <= h < n ==> exists c: Cell :: Contains(HalfRow(h), c) && c in marked
    ensures |marked| >= n
  {
    if n > 0 {
      var here := set c | c in marked && Contains(HalfRow(n - 1), c);
      forall h | 0 <= h < n - 1
        ensures exists c: Cell :: Contains(HalfRow(h), c) && c in marked - here
      {
        var c: Cell :| Contains(HalfRow(h), c) && c in marked;
        if c in here { HalfRowsApart(h, n - 1, c); }
      }
      Pigeonhole(n - 1, marked - here);
      var c: Cell :| Contains(HalfRow(n - 1), c) && c in marked;
      assert c in here;
      assert |marked - here| + |here| == |marked|;
    }
  }

  ghost function Covered(f: seq<Placement>): set<Cell> {
    Struck(f, AllCells())
  }

  lemma CoveredStep(f: seq<Placement>, n: nat)
    requires LegalFleet(f) && |f| == n + 1
    ensures |Covered(f)| == |Covered(f[..n])| + f[n].size
  {
    StruckByShip(f, AllCells(), n);
    CellsCount(f[n]);
    assert Cells(f[n]) * AllCells() == Cells(f[n]);
  }

  lemma {:induction false} CoveredBound(f: seq<Placement>)
    requires StandardFleet(f)
    ensures |Covered(f)| == [0, 5, 9, 12, 15, 17][|f|]
  {
    if f == [] {
      assert Covered(f) == {};
    } else {
      var n := |f| - 1;
      PrefixIsLegal(f, n);
      CoveredBound(f[..n]);
      CoveredStep(f, n);
    }
  }

  /** The next ship of the canonical fleet fits in some empty half row. */
  lemma NextShipFits(f: seq<Placement>) returns (p: Placement)
    requires StandardFleet(f) && |f| < NUM_SHIPS
    ensures p.size == SHIP_SIZES[|f|] && p.typeIdx == |f| && InGrid(Cell(p.col, p.row))
    ensures CanPlace(BoardOf(f, {}), p)
  {
    CoveredBound(f);
    if forall h :: 0 <= h < 20 ==> exists c: Cell :: Contains(HalfRow(h), c) && c in Covered(f) {
      Pigeonhole(20, Covered(f));
      assert false;
    }
    var h :| 0 <= h < 20 && forall c: Cell :: Contains(HalfRow(h), c) ==> c !in Covered(f);
    p := HalfRow(h).(size := SHIP_SIZES[|f|], typeIdx := |f|);
    forall c: Cell | Contains(p, c)
      ensures InGrid(c) && BoardOf(f, {}).grid[c] == Empty
    {
      assert Contains(HalfRow(h), c);
    }
  }
}
