/** The client's copy of a board: it is never attacked, only told results (controller/game.c, the
    client's side of `MSG_ATTACK`). What it shows, when every report arrives and when some are lost. */
module Replica {
  import opened Boards
  import opened BoardLaws
  import opened Protocol
  import opened Host

  /** What a report does to the copy. */
  function Reported(r: BoardState, c: Cell, result: byte): (r': BoardState)
    requires c in r.grid
    ensures r'.grid.Keys == r.grid.Keys
  {
    if result == ATTACK_MISS then r.(grid := r.grid[c := Miss])
    else if result == ATTACK_HIT then r.(grid := r.grid[c := Hit])
    else if result == ATTACK_SUNK then
      var r' := r.(grid := r.grid[c := Sunk], shipsSunk := r.shipsSunk + 1);
      match FindAfloat(r.ships, c, 0)
      case None => r'
      case Some(i) => SinkShip(r', i)
    else r
  }

  /** Marks a whole ship. */
  function SinkShip(r: BoardState, i: nat): BoardState
    requires i < |r.ships|
  {
    var s := r.ships[i];
    r.(grid := Paint(r.grid, s.at, Sunk), ships := r.ships[i := ShipRec(s.at, s.at.size, true)])
  }

  /** Board and copy show the same: grid, ships, which of them are sunk, and how many. The hit counters
      of floating ships may differ: nobody reads them on the client. */
  ghost predicate Agree(b: BoardState, r: BoardState) {
    && r.grid == b.grid && r.shipsSunk == b.shipsSunk && |r.ships| == |b.ships|
    && forall i :: 0 <= i < |b.ships| ==> SameShip(b.ships[i], r.ships[i])
  }

  predicate SameShip(s: ShipRec, t: ShipRec) {
    t.at == s.at && t.sunk == s.sunk && (s.sunk ==> t.hits == s.hits)
  }

  // ---------------------------------------------------------------------------------------------
  // What the client knows
  // ---------------------------------------------------------------------------------------------

  /** The copy after the shots `cs` in this order, when the result of shot `k` arrived iff `told[k]`. A
      result is read off the host's board before the next shot at it. */
  ghost function ReplicaOf(f: seq<Placement>, cs: seq<Cell>, told: seq<bool>): (r: BoardState)
    requires |told| == |cs| && forall c :: c in cs ==> InGrid(c)
    ensures FullGrid(r.grid)
    decreases cs
  {
    if cs == [] then BoardOf(f, {})
    else
      var n := |cs| - 1;
      var r := ReplicaOf(f, cs[..n], told[..n]);
      if told[n] then Reported(r, cs[n], ResultOf(BoardOf(f, Elements(cs)), cs[n])) else r
  }

  /** The shot was reported. */
  predicate ShotTold(cs: seq<Cell>, told: seq<bool>, c: Cell)
    requires |told| == |cs|
  {
    exists k :: 0 <= k < |cs| && told[k] && cs[k] == c
  }

  /** The shot that sank ship `i` was reported. */
  ghost predicate SinkingTold(f: seq<Placement>, cs: seq<Cell>, told: seq<bool>, i: int)
    requires |told| == |cs| && 0 <= i < |f|
  {
    exists k {:trigger told[k]} :: 0 <= k < |cs| && told[k] && Contains(f[i], cs[k]) && Wrecked(f[i], Elements(cs[..k + 1]))
  }

  /** The shots the client knows of: those it was told, and every cell of a ship it was told sank. */
  ghost function Known(f: seq<Placement>, cs: seq<Cell>, told: seq<bool>): (s: set<Cell>)
    requires |told| == |cs|
  {
    set c | c in Elements(cs) &&
            (ShotTold(cs, told, c) || exists i :: 0 <= i < |f| && Contains(f[i], c) && SinkingTold(f, cs, told, i))
  }

  // ---------------------------------------------------------------------------------------------
  // One report
  // ---------------------------------------------------------------------------------------------

  lemma MissReport(f: seq<Placement>, s: set<Cell>, r: BoardState, c: Cell)
    requires LegalFleet(f) && InGrid(c) && c !in s && !Occupied(f, c)
    requires Agree(BoardOf(f, s), r)
    ensures Agree(BoardOf(f, s + {c}), Reported(r, c, ATTACK_MISS))
  {
    AttackOnWater(f, s, c);
  }

  lemma HitReport(f: seq<Placement>, s: set<Cell>, r: BoardState, c: Cell, i: nat)
    requires LegalFleet(f) && InGrid(c) && c !in s
    requires i < |f| && Contains(f[i], c) && !Wrecked(f[i], s + {c})
    requires Agree(BoardOf(f, s), r)
    ensures Agree(BoardOf(f, s + {c}), Reported(r, c, ATTACK_HIT))
  {
    GridAfter(f, s, c, i);
    RecordsAfter(f, s, c, i);
    WreckedAfter(f, s, c, i);
    hide StateOf;
  }

  /** Shots at one ship show only on that ship. */
  lemma ShipShots(f: seq<Placement>, s: set<Cell>, i: nat, j: nat)
    requires LegalFleet(f) && i < |f| && j < |f| && i != j
    ensures RecordOf(f[j], s + Cells(f[i])) == RecordOf(f[j], s)
    ensures Wrecked(f[j], s + Cells(f[i])) == Wrecked(f[j], s)
  {
    forall c: Cell | Contains(f[j], c)
      ensures !Contains(f[i], c)
    {
      if Contains(f[i], c) { OwnerUnique(f, i, j, c); }
    }
    assert Cells(f[j]) * (s + Cells(f[i])) == Cells(f[j]) * s;
  }

  lemma SunkGrid(f: seq<Placement>, s: set<Cell>, i: nat)
    requires LegalFleet(f) && i < |f|
    ensures BoardOf(f, s + Cells(f[i])).grid == Paint(BoardOf(f, s).grid, f[i], Sunk)
  {
    var s' := s + Cells(f[i]);
    forall d: Cell | InGrid(d)
      ensures StateOf(f, s', d) == if Contains(f[i], d) then Sunk else StateOf(f, s, d)
    {
      if Contains(f[i], d) {
        StateOfOwned(f, s', d, i);
      } else if j :| 0 <= j < |f| && Contains(f[j], d) {
        ShipShots(f, s, i, j);
        StateOfOwned(f, s, d, j);
        StateOfOwned(f, s', d, j);
      }
    }
  }

  lemma SunkRecords(f: seq<Placement>, s: set<Cell>, i: nat)
    requires LegalFleet(f) && i < |f| && !Wrecked(f[i], s)
    ensures var b, b' := BoardOf(f, s), BoardOf(f, s + Cells(f[i]));
            b'.ships == b.ships[i := ShipRec(f[i], f[i].size, true)] && b'.shipsSunk == b.shipsSunk + 1
  {
    var s' := s + Cells(f[i]);
    forall j | 0 <= j < |f| && j != i
      ensures RecordOf(f[j], s') == RecordOf(f[j], s) && Wrecked(f[j], s') == Wrecked(f[j], s)
    {
      ShipShots(f, s, i, j);
    }
    assert Cells(f[i]) * s' == Cells(f[i]);
    CellsCount(f[i]);
    assert WreckedShips(f, s') == WreckedShips(f, s) + {i};
  }

  /** What the report does to a copy that agrees, field by field. */
  lemma SunkOnCopy(b: BoardState, r: BoardState, c: Cell, i: nat)
    requires Agree(b, r) && c in r.grid && i < |b.ships| && FindAfloat(b.ships, c, 0) == Some(i) && Contains(b.ships[i].at, c)
    ensures var r', s := Reported(r, c, ATTACK_SUNK), b.ships[i].at;
            && r'.grid == Paint(b.grid, s, Sunk) && r'.shipsSunk == b.shipsSunk + 1
            && r'.ships == r.ships[i := ShipRec(s, s.size, true)]
  {
    CopyFinds(b.ships, r.ships, c, 0);
    assert SameShip(b.ships[i], r.ships[i]);
    assert Paint(r.grid[c := Sunk], b.ships[i].at, Sunk) == Paint(r.grid, b.ships[i].at, Sunk);
  }

  /** The report of a sinking shot tells the client about all cells of the ship. */
  lemma SunkReport(f: seq<Placement>, s: set<Cell>, r: BoardState, c: Cell, i: nat)
    requires LegalFleet(f) && InGrid(c) && c !in s && i < |f| && Contains(f[i], c)
    requires Agree(BoardOf(f, s), r)
    ensures Agree(BoardOf(f, s + Cells(f[i])), Reported(r, c, ATTACK_SUNK))
  {
    assert c in Cells(f[i]);
    var b, b' := BoardOf(f, s), BoardOf(f, s + Cells(f[i]));
    SunkGrid(f, s, i);
    SunkRecords(f, s, i);
    RecordsAfter(f, s, c, i);
    assert c in b.grid && b.ships[i].at == f[i] && |b.ships| == |f|;
    hide StateOf, BoardOf, Reported, LegalFleet, Wrecked, RecordOf;
    SunkOnCopy(b, r, c, i);
  }

  /** Board and copy search the same ships. */
  lemma {:induction false} CopyFinds(ships: seq<ShipRec>, copy: seq<ShipRec>, c: Cell, i: nat)
    requires i <= |ships| == |copy| && forall j :: 0 <= j < |ships| ==> SameShip(ships[j], copy[j])
    ensures FindAfloat(copy, c, i) == FindAfloat(ships, c, i)
    decreases |ships| - i
  {
    if i < |ships| {
      assert SameShip(ships[i], copy[i]);
      CopyFinds(ships, copy, c, i + 1);
    }
  }

  // ---------------------------------------------------------------------------------------------
  // All reports
  // ---------------------------------------------------------------------------------------------

  /** Distinct cells of the grid, in the order in which they were shot; `n` is the last. */
  ghost predicate ShotList(cs: seq<Cell>, told: seq<bool>, n: nat) {
    && |cs| == |told| == n + 1 && Distinct(cs)
    && forall c :: c in cs ==> InGrid(c)
  }

  lemma ShorterList(cs: seq<Cell>, told: seq<bool>, n: nat)
    requires ShotList(cs, told, n)
    ensures Distinct(cs[..n]) && Elements(cs) == Elements(cs[..n]) + {cs[n]} && cs[n] !in Elements(cs[..n])
    ensures forall c :: c in cs[..n] ==> InGrid(c)
  {
    ElementsSplit(cs, n);
  }

  lemma SinkingStep(f: seq<Placement>, cs: seq<Cell>, told: seq<bool>, n: nat, i: nat)
    requires ShotList(cs, told, n) && i < |f|
    ensures SinkingTold(f, cs, told, i) <==>
            SinkingTold(f, cs[..n], told[..n], i) || (told[n] && Contains(f[i], cs[n]) && Wrecked(f[i], Elements(cs)))
  {
    assert cs[..n + 1] == cs;
    forall k | 0 <= k < n
      ensures cs[..n][..k + 1] == cs[..k + 1] && told[..n][k] == told[k]
    {
    }
  }

  /** A ship whose sinking was reported earlier has no cell left to shoot. */
  lemma SunkBefore(f: seq<Placement>, cs: seq<Cell>, told: seq<bool>, n: nat, i: nat)
    requires ShotList(cs, told, n) && i < |f| && SinkingTold(f, cs[..n], told[..n], i)
    ensures !Contains(f[i], cs[n])
  {
    var k :| 0 <= k < n && told[..n][k] && Contains(f[i], cs[k]) && Wrecked(f[i], Elements(cs[..n][..k + 1]));
    assert cs[n] !in Elements(cs[..n][..k + 1]);
    assert cs[n] in Cells(f[i]) <==> Contains(f[i], cs[n]);
  }

  /** What one more shot adds to the client's knowledge. */
  lemma KnownStep(f: seq<Placement>, cs: seq<Cell>, told: seq<bool>, n: nat, c: Cell)
    requires ShotList(cs, told, n)
    ensures c in Known(f, cs, told) <==>
            || c in Known(f, cs[..n], told[..n])
            || (told[n] && c == cs[n])
            || (told[n] && c in Elements(cs)
                && exists i :: 0 <= i < |f| && Contains(f[i], c) && Contains(f[i], cs[n]) && Wrecked(f[i], Elements(cs)))
  {
    ShorterList(cs, told, n);
    forall i: nat | i < |f|
      ensures SinkingTold(f, cs, told, i) <==>
              SinkingTold(f, cs[..n], told[..n], i) || (told[n] && Contains(f[i], cs[n]) && Wrecked(f[i], Elements(cs)))
      ensures SinkingTold(f, cs[..n], told[..n], i) ==> !Contains(f[i], cs[n])
    {
      SinkingStep(f, cs, told, n, i);
      if SinkingTold(f, cs[..n], told[..n], i) { SunkBefore(f, cs, told, n, i); }
    }
    TellStep(cs, told, n, c);
  }

  lemma TellStep(cs: seq<Cell>, told: seq<bool>, n: nat, c: Cell)
    requires ShotList(cs, told, n)
    ensures ShotTold(cs, told, c) <==> ShotTold(cs[..n], told[..n], c) || (told[n] && c == cs[n])
  {
    forall k | 0 <= k < n
      ensures cs[..n][k] == cs[k] && told[..n][k] == told[k]
    {
    }
  }

  /** What a report about the shot at `c` adds, when the host's board has taken `shots`. */
  ghost function Lesson(f: seq<Placement>, shots: set<Cell>, c: Cell): set<Cell> {
    {c} + set d | d in shots && exists i :: 0 <= i < |f| && Contains(f[i], d) && Contains(f[i], c) && Wrecked(f[i], shots)
  }

  lemma KnownAfter(f: seq<Placement>, cs: seq<Cell>, told: seq<bool>, n: nat)
    requires ShotList(cs, told, n)
    ensures Known(f, cs, told) ==
            Known(f, cs[..n], told[..n]) + if told[n] then Lesson(f, Elements(cs), cs[n]) else {}
  {
    forall c: Cell
      ensures c in Known(f, cs, told) <==>
              c in Known(f, cs[..n], told[..n]) || (told[n] && c in Lesson(f, Elements(cs), cs[n]))
    {
      KnownStep(f, cs, told, n, c);
    }
  }

  lemma LessonOfSinking(f: seq<Placement>, shots: set<Cell>, c: Cell, i: nat)
    requires LegalFleet(f) && i < |f| && Contains(f[i], c)
    ensures Lesson(f, shots, c) == if Wrecked(f[i], shots) then Cells(f[i]) else {c}
  {
    OnlyOwner(f, c, i);
    forall d: Cell
      ensures d in Lesson(f, shots, c) <==> d == c || (Wrecked(f[i], shots) && Contains(f[i], d))
    {
      assert Contains(f[i], d) <==> d in Cells(f[i]);
    }
  }

  /** One report, read off the host's board after `shots`, on a copy that shows `s` of them. */
  lemma OneReport(f: seq<Placement>, s: set<Cell>, shots: set<Cell>, r: BoardState, c: Cell)
    requires LegalFleet(f) && InGrid(c) && c in shots && c !in s && s <= shots
    requires Agree(BoardOf(f, s), r)
    ensures Agree(BoardOf(f, s + Lesson(f, shots, c)), Reported(r, c, ResultOf(BoardOf(f, shots), c)))
  {
    if i :| 0 <= i < |f| && Contains(f[i], c) {
      StateOfOwned(f, shots, c, i);
      LessonOfSinking(f, shots, c, i);
      hide Reported, Agree, StateOf, Lesson;
      if Wrecked(f[i], shots) {
        SunkReport(f, s, r, c, i);
      } else {
        HitReport(f, s, r, c, i);
      }
    } else {
      assert !Occupied(f, c) && Lesson(f, shots, c) == {c};
      hide Reported, Agree, Lesson;
      MissReport(f, s, r, c);
    }
  }

  lemma NotKnownYet(f: seq<Placement>, cs: seq<Cell>, told: seq<bool>, n: nat)
    requires ShotList(cs, told, n)
    ensures cs[n] !in Known(f, cs[..n], told[..n]) && Known(f, cs[..n], told[..n]) + {cs[n]} <= Elements(cs)
  {
    ShorterList(cs, told, n);
  }

  /** One more shot, reported or not. */
  lemma ReplicaStep(f: seq<Placement>, cs: seq<Cell>, told: seq<bool>, n: nat)
    requires LegalFleet(f) && ShotList(cs, told, n)
    requires forall c :: c in cs[..n] ==> InGrid(c)
    requires Agree(BoardOf(f, Known(f, cs[..n], told[..n])), ReplicaOf(f, cs[..n], told[..n]))
    ensures Agree(BoardOf(f, Known(f, cs, told)), ReplicaOf(f, cs, told))
  {
    hide Agree, Known, Reported, ResultOf, BoardOf, Lesson, LegalFleet;
    var c, shots := cs[n], Elements(cs);
    var s, r := Known(f, cs[..n], told[..n]), ReplicaOf(f, cs[..n], told[..n]);
    KnownAfter(f, cs, told, n);
    NotKnownYet(f, cs, told, n);
    ReplicaLast(f, cs, told, n);
    hide ReplicaOf;
    if told[n] { OneReport(f, s, shots, r, c); } else { assert s + {} == s; }
  }

  lemma ReplicaLast(f: seq<Placement>, cs: seq<Cell>, told: seq<bool>, n: nat)
    requires ShotList(cs, told, n) && forall c :: c in cs[..n] ==> InGrid(c)
    ensures InGrid(cs[n]) && cs[n] in Elements(cs) && FullGrid(ReplicaOf(f, cs[..n], told[..n]).grid)
    ensures var r := ReplicaOf(f, cs[..n], told[..n]);
            ReplicaOf(f, cs, told) == if told[n] then Reported(r, cs[n], ResultOf(BoardOf(f, Elements(cs)), cs[n])) else r
  {
    hide Reported, ResultOf;
  }

  lemma OnlyOwner(f: seq<Placement>, c: Cell, i: nat)
    requires LegalFleet(f) && i < |f| && Contains(f[i], c)
    ensures forall j :: 0 <= j < |f| && Contains(f[j], c) ==> j == i
  {
    forall j | 0 <= j < |f| && Contains(f[j], c)
      ensures j == i
    {
      OwnerUnique(f, i, j, c);
    }
  }

  /** Whatever is lost, the copy never shows anything false: it is the board of the same fleet after the
      shots that the client knows of. */
  lemma {:induction false} ReplicaIsTruthful(f: seq<Placement>, cs: seq<Cell>, told: seq<bool>)
    requires LegalFleet(f) && |told| == |cs| && Distinct(cs) && forall c :: c in cs ==> InGrid(c)
    ensures Agree(BoardOf(f, Known(f, cs, told)), ReplicaOf(f, cs, told))
    ensures Known(f, cs, told) <= Elements(cs)
    decreases cs
  {
    if cs == [] {
      assert Known(f, cs, told) == {};
    } else {
      var n := |cs| - 1;
      ShorterList(cs, told, n);
      ReplicaIsTruthful(f, cs[..n], told[..n]);
      ReplicaStep(f, cs, told, n);
    }
  }

  /** Every shot whose report was lost lies on a ship whose sinking was reported. */
  ghost predicate LossesCovered(f: seq<Placement>, cs: seq<Cell>, told: seq<bool>)
    requires |told| == |cs|
  {
    forall k :: 0 <= k < |cs| && !told[k] ==>
      exists i :: 0 <= i < |f| && Contains(f[i], cs[k]) && SinkingTold(f, cs, told, i)
  }

  lemma KnownIfCovered(f: seq<Placement>, cs: seq<Cell>, told: seq<bool>, k: nat)
    requires |told| == |cs| && k < |cs| && LossesCovered(f, cs, told)
    ensures cs[k] in Known(f, cs, told)
  {
    hide SinkingTold;
    assert cs[k] in Elements(cs);
    if told[k] { assert ShotTold(cs, told, cs[k]); }
  }

  lemma AllKnown(f: seq<Placement>, cs: seq<Cell>, told: seq<bool>)
    requires |told| == |cs| && LossesCovered(f, cs, told) && Known(f, cs, told) <= Elements(cs)
    ensures Known(f, cs, told) == Elements(cs)
  {
    forall c | c in Elements(cs)
      ensures c in Known(f, cs, told)
    {
      var k :| 0 <= k < |cs| && cs[k] == c;
      KnownIfCovered(f, cs, told, k);
    }
    hide Known, LossesCovered;
  }

  lemma CoveredIfKnown(f: seq<Placement>, cs: seq<Cell>, told: seq<bool>)
    requires |told| == |cs| && Distinct(cs) && Known(f, cs, told) == Elements(cs)
    ensures LossesCovered(f, cs, told)
  {
    forall k | 0 <= k < |cs| && !told[k]
      ensures exists i :: 0 <= i < |f| && Contains(f[i], cs[k]) && SinkingTold(f, cs, told, i)
    {
      assert cs[k] in Elements(cs);
      assert cs[k] in Known(f, cs, told);
      assert !ShotTold(cs, told, cs[k]);
    }
    hide SinkingTold;
  }

  /** The copy equals the host's board exactly when every shot whose report was lost lies on a ship whose
      sinking was reported. */
  lemma ReplicaAgreesExactly(f: seq<Placement>, cs: seq<Cell>, told: seq<bool>)
    requires LegalFleet(f) && |told| == |cs| && Distinct(cs) && forall c :: c in cs ==> InGrid(c)
    ensures Agree(BoardOf(f, Elements(cs)), ReplicaOf(f, cs, told)) <==>
            forall k :: 0 <= k < |cs| && !told[k] ==>
              exists i :: 0 <= i < |f| && Contains(f[i], cs[k]) && SinkingTold(f, cs, told, i)
  {
    CoveredExactly(f, cs, told);
    hide Agree, BoardOf, ReplicaOf, Distinct, LegalFleet, SinkingTold;
  }

  lemma CoveredExactly(f: seq<Placement>, cs: seq<Cell>, told: seq<bool>)
    requires LegalFleet(f) && |told| == |cs| && Distinct(cs) && forall c :: c in cs ==> InGrid(c)
    ensures Agree(BoardOf(f, Elements(cs)), ReplicaOf(f, cs, told)) <==> LossesCovered(f, cs, told)
  {
    hide BoardOf, ReplicaOf, LossesCovered, Known, LegalFleet;
    ReplicaIsTruthful(f, cs, told);
    var known, all := Known(f, cs, told), Elements(cs);
    if Agree(BoardOf(f, all), ReplicaOf(f, cs, told)) {
      assert BoardOf(f, known).grid == BoardOf(f, all).grid;
      OnTheGrid(cs);
      SameGridSameShots(f, known, all);
      CoveredIfKnown(f, cs, told);
    }
    if LossesCovered(f, cs, told) { AllKnown(f, cs, told); }
  }

  lemma OnTheGrid(cs: seq<Cell>)
    requires forall c :: c in cs ==> InGrid(c)
    ensures Elements(cs) <= AllCells()
  {
  }

  lemma SameGridSameShots(f: seq<Placement>, s: set<Cell>, t: set<Cell>)
    requires BoardOf(f, s).grid == BoardOf(f, t).grid && s <= AllCells() && t <= AllCells()
    ensures s == t
  {
    BoardOfInverse(f, s);
    BoardOfInverse(f, t);
  }
}
