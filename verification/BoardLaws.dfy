/** What board.c promises over many shots: order does not matter, damage is conserved, and the
    exact condition under which one more shot keeps the board truthful. */
module BoardLaws {
  import opened Boards

  /** Shoot at the cells one after the other. */
  function AttackAll(b: BoardState, cs: seq<Cell>): (r: BoardState)
    requires forall c :: c in cs ==> c in b.grid
    ensures r.grid.Keys == b.grid.Keys
  {
    if cs == [] then b else Attack(AttackAll(b, cs[..|cs| - 1]), cs[|cs| - 1])
  }

  ghost predicate Distinct<T(!new)>(s: seq<T>) {
    forall i, j :: 0 <= i < j < |s| ==> s[i] != s[j]
  }

  ghost function Elements<T>(s: seq<T>): set<T> {
    set x | x in s
  }

  /** On a legal board a fresh shot keeps the fleet and adds one cell to the shots. */
  lemma FreshShot(b: BoardState, c: Cell)
    requires LegalBoard(b) && InGrid(c) && !Attacked(b.grid[c])
    ensures LegalBoard(Attack(b, c))
    ensures FleetOf(Attack(b, c)) == FleetOf(b)
    ensures ShotsOf(Attack(b, c)) == ShotsOf(b) + {c}
    ensures Attacked(Attack(b, c).grid[c])
  {
    var f, s := FleetOf(b), ShotsOf(b);
    AttackRefines(f, s, c);
    BoardOfInverse(f, s + {c});
    assert c in s + {c};
  }

  /** A shot at a cell where a ship was already hit writes `Miss` over it, and no fleet and set of
      shots explain the result; on every other cell the board stays legal. */
  lemma ShotStaysLegalExactly(b: BoardState, c: Cell)
    requires LegalBoard(b) && InGrid(c)
    ensures LegalBoard(Attack(b, c)) <==> b.grid[c] != Hit && b.grid[c] != Sunk
    ensures b.grid[c] == Miss ==> Attack(b, c) == b
  {
    var f, s := FleetOf(b), ShotsOf(b);
    var b' := Attack(b, c);
    if !Attacked(b.grid[c]) {
      FreshShot(b, c);
    } else if b.grid[c] == Miss {
      assert b'.grid == b.grid;
    } else {
      assert b.grid[c] == StateOf(f, s, c) && Occupied(f, c);
      assert b'.grid[c] == Miss && FleetOf(b') == f;
      assert BoardOf(f, ShotsOf(b')).grid[c] == StateOf(f, ShotsOf(b'), c) != Miss;
    }
  }

  lemma ElementsSplit<T>(s: seq<T>, n: nat)
    requires |s| == n + 1
    ensures Elements(s) == Elements(s[..n]) + {s[n]}
  {
    assert s == s[..n] + [s[n]];
  }

  /** After any sequence of shots at fresh cells the whole board, counters and flags included, is
      a function of the fleet and the set of cells shot. */
  lemma {:induction false} ShotsRefine(f: seq<Placement>, shots: set<Cell>, cs: seq<Cell>)
    requires LegalFleet(f) && Distinct(cs)
    requires forall c :: c in cs ==> InGrid(c) && c !in shots
    ensures AttackAll(BoardOf(f, shots), cs) == BoardOf(f, shots + Elements(cs))
  {
    if cs == [] {
      assert shots + Elements(cs) == shots;
    } else {
      var n := |cs| - 1;
      ShotsRefine(f, shots, cs[..n]);
      ElementsSplit(cs, n);
      assert cs[n] !in cs[..n];
      AttackRefines(f, shots + Elements(cs[..n]), cs[n]);
      assert shots + Elements(cs[..n]) + {cs[n]} == shots + Elements(cs);
    }
  }

  /** Permuting the shots gives the same board. */
  lemma OrderIndependent(b: BoardState, cs: seq<Cell>, ds: seq<Cell>)
    requires LegalBoard(b) && Distinct(cs) && Distinct(ds) && Elements(cs) == Elements(ds)
    requires forall c :: c in cs ==> InGrid(c) && !Attacked(b.grid[c])
    ensures forall c :: c in ds ==> c in b.grid
    ensures AttackAll(b, cs) == AttackAll(b, ds)
  {
    assert forall c :: c in ds ==> c in Elements(cs);
    ShotsRefine(FleetOf(b), ShotsOf(b), cs);
    ShotsRefine(FleetOf(b), ShotsOf(b), ds);
  }

  /** `board_all_sunk` answers the question it is named after. */
  lemma AllSunkMeansEveryCellShot(b: BoardState)
    requires LegalBoard(b) && |b.ships| == NUM_SHIPS
    ensures AllSunk(b) <==> forall c: Cell :: Occupied(FleetOf(b), c) ==> c in ShotsOf(b)
  {
    AllWrecked(FleetOf(b), ShotsOf(b));
  }

  lemma AllWrecked(f: seq<Placement>, s: set<Cell>)
    requires |f| == NUM_SHIPS
    ensures |WreckedShips(f, s)| >= NUM_SHIPS <==> forall c: Cell :: Occupied(f, c) ==> c in s
  {
    var w, all := WreckedShips(f, s), {0, 1, 2, 3, 4};
    assert w <= all && |all| == NUM_SHIPS;
    if |w| >= NUM_SHIPS {
      SubsetOfSameSize(w, all);
      forall c: Cell | Occupied(f, c)
        ensures c in s
      {
        var i :| 0 <= i < |f| && Contains(f[i], c);
        assert i in w && c in Cells(f[i]);
      }
    }
    if forall c: Cell :: Occupied(f, c) ==> c in s {
      forall i | 0 <= i < |f|
        ensures Wrecked(f[i], s)
      {
        assert forall c: Cell :: Contains(f[i], c) ==> Occupied(f, c);
      }
      assert w == all;
    }
  }

  lemma UnshotShipCell(b: BoardState, c: Cell)
    requires LegalBoard(b) && Occupied(FleetOf(b), c) && c !in ShotsOf(b)
    ensures InGrid(c) && b.grid[c] == Ship
  {
    var f := FleetOf(b);
    var i :| 0 <= i < |f| && Contains(f[i], c);
    assert InBounds(f[i]);
    assert BoardOf(f, ShotsOf(b)).grid[c] == Ship;
  }

  /** As long as a fleet is not sunk there is a cell left to shoot at. */
  lemma AfloatMeansFreshCell(b: BoardState) returns (c: Cell)
    requires LegalBoard(b) && |b.ships| == NUM_SHIPS && !AllSunk(b)
    ensures InGrid(c) && b.grid[c] == Ship
  {
    AllSunkMeansEveryCellShot(b);
    c :| Occupied(FleetOf(b), c) && c !in ShotsOf(b);
    UnshotShipCell(b, c);
  }

  // ---------------------------------------------------------------------------------------------
  // Counting
  // ---------------------------------------------------------------------------------------------

  ghost function HitCells(b: BoardState): set<Cell> {
    set c | c in b.grid && (b.grid[c] == Hit || b.grid[c] == Sunk)
  }

  ghost function MissCells(b: BoardState): set<Cell> {
    set c | c in b.grid && b.grid[c] == Miss
  }

  ghost function TotalHits(ships: seq<ShipRec>): int {
    if ships == [] then 0 else TotalHits(ships[..|ships| - 1]) + ships[|ships| - 1].hits
  }

  /** The hit counters of the ships add up to the hit cells on the grid, and hits and misses
      together are the shots: no shot is lost or counted twice. */
  lemma DamageConserved(b: BoardState)
    requires LegalBoard(b)
    ensures |HitCells(b)| == TotalHits(b.ships)
    ensures |HitCells(b)| + |MissCells(b)| == |ShotsOf(b)|
  {
    var f, s := FleetOf(b), ShotsOf(b);
    assert HitCells(b) + MissCells(b) == s;
    assert HitCells(b) !! MissCells(b);
    assert forall c: Cell :: InGrid(c) ==> b.grid[c] == StateOf(f, s, c);
    assert HitCells(b) == Struck(f, s);
    HitsAddUp(f, s);
  }

  /** The shots that landed on some ship. */
  ghost function Struck(f: seq<Placement>, s: set<Cell>): set<Cell> {
    set c | c in s && Occupied(f, c)
  }

  lemma StruckByShip(f: seq<Placement>, s: set<Cell>, n: nat)
    requires LegalFleet(f) && |f| == n + 1
    ensures Struck(f, s) == Struck(f[..n], s) + Cells(f[n]) * s
    ensures Struck(f[..n], s) !! Cells(f[n])
  {
    forall c: Cell
      ensures Occupied(f, c) <==> Occupied(f[..n], c) || Contains(f[n], c)
      ensures !(Occupied(f[..n], c) && Contains(f[n], c))
    {
      if i :| 0 <= i < n && Contains(f[..n][i], c) {
        assert Contains(f[i], c) && Disjoint(f[i], f[n]);
      }
    }
  }

  lemma StruckCount(f: seq<Placement>, s: set<Cell>, n: nat)
    requires LegalFleet(f) && |f| == n + 1
    ensures |Struck(f, s)| == |Struck(f[..n], s)| + |Cells(f[n]) * s|
  {
    StruckByShip(f, s, n);
  }

  lemma {:induction false} HitsAddUp(f: seq<Placement>, s: set<Cell>)
    requires LegalFleet(f)
    ensures |Struck(f, s)| == TotalHits(BoardOf(f, s).ships)
  {
    if f == [] {
      assert Struck(f, s) == {};
    } else {
      var n := |f| - 1;
      PrefixIsLegal(f, n);
      HitsAddUp(f[..n], s);
      StruckCount(f, s, n);
      assert BoardOf(f, s).ships[..n] == BoardOf(f[..n], s).ships;
    }
  }
}
