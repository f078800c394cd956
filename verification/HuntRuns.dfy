/** Whole battles of the bot against a fleet: what holds after every round of every run. */
module HuntRuns {
  import opened Boards
  import opened BoardLaws
  import opened Rays
  import opened Hunt

  /** `run[k + 1]` follows `run[k]` when the random draw of round `k` would end with `picks[k]`. Nothing
      is said about a round whose chosen cell is off the grid: that this never happens is a theorem. */
  ghost predicate IsHunt(f: seq<Placement>, run: seq<Hunter>, picks: seq<Cell>) {
    && |run| == |picks| + 1
    && run[0] == Hunter(ResetBot(), BoardOf(f, {}), 0)
    && forall k {:trigger picks[k]} :: 0 <= k < |picks| ==> Follows(run[k], picks[k], run[k + 1])
  }

  ghost predicate Follows(h: Hunter, pick: Cell, h': Hunter) {
    && FullGrid(h.board.grid)
    && IsFresh(h.board.grid, pick)
    && (InGrid(Choose(h.bot, h.board.grid, pick).curr) ==> h' == Round(h, pick))
  }

  lemma OneMoreRound(h: Hunter, pick: Cell, h': Hunter)
    requires Tracking(h) && Follows(h, pick, h')
    ensures Tracking(h') && FleetOf(h'.board) == FleetOf(h.board)
    ensures |ShotsOf(h'.board)| == |ShotsOf(h.board)| + 1
  {
    RoundKeepsTracking(h, pick);
    var c := Choose(h.bot, h.board.grid, pick).curr;
    assert LegalBoard(h.board) && h' == Round(h, pick);
    hide Tracking, Choose, Register, Attack, LegalBoard, Follows;
    FreshShot(h.board, c);
    assert c !in ShotsOf(h.board);
    hide ShotsOf, FleetOf;
  }

  /** After any number of rounds the bot's memory agrees with the board, the board is that of the
      fleet, and every round so far hit a new cell. */
  lemma {:induction false} EveryHuntTracks(f: seq<Placement>, run: seq<Hunter>, picks: seq<Cell>, k: nat)
    requires LegalFleet(f) && IsHunt(f, run, picks) && k <= |picks|
    ensures Tracking(run[k]) && FleetOf(run[k].board) == f
    ensures |ShotsOf(run[k].board)| == k
  {
    hide Tracking, Follows, FleetOf, ShotsOf, BoardOf, LegalFleet;
    if k == 0 {
      HuntStarts(f);
    } else {
      var j := k - 1;
      EveryHuntTracks(f, run, picks, j);
      assert Follows(run[j], picks[j], run[j + 1]);
      OneMoreRound(run[j], picks[j], run[j + 1]);
    }
  }

  lemma HuntStarts(f: seq<Placement>)
    requires LegalFleet(f)
    ensures var h := Hunter(ResetBot(), BoardOf(f, {}), 0);
            Tracking(h) && FleetOf(h.board) == f && |ShotsOf(h.board)| == 0
  {
    BoardOfInverse(f, {});
    hide LegalFleet;
  }

  /** Every shot of every run goes to a cell of the grid that was not shot before. Search mode never
      gives up: not while choosing, and not on a miss either, so the fall-back to random mode after
      four directions is never taken. Destroy mode gives up exactly when the run of hits through the
      first hit is closed at both ends. */
  lemma HuntTheorem(f: seq<Placement>, run: seq<Hunter>, picks: seq<Cell>, k: nat)
    requires LegalFleet(f) && IsHunt(f, run, picks) && k < |picks|
    ensures FullGrid(run[k].board.grid)
    ensures var h, h' := run[k], run[k + 1];
            var g := h.board.grid;
            var fired := Choose(h.bot, g, picks[k]);
            && IsFresh(g, fired.curr)
            && (h.bot.mode == SearchDir ==>
                  && fired.mode == SearchDir
                  && h'.bot.mode == (if ReadsSunk(h'.board, fired.curr) then Random
                                     else if ReadsHit(h'.board, fired.curr) then Destroy else SearchDir))
            && (h.bot.mode == Destroy ==>
                  (fired.mode == Random <==>
                     !Open(g, h.bot.first, h.bot.dir) && !Open(g, h.bot.first, Opposite(h.bot.dir))))
  {
    EveryHuntTracks(f, run, picks, k);
    assert Follows(run[k], picks[k], run[k + 1]);
    ChooseIsSound(run[k], picks[k]);
    if run[k].bot.mode == SearchDir { RoundInSearch(run[k], picks[k]); }
  }

  /** At most three misses in one search, at most two in one pursuit, and at most one when the pursuit
      follows the axis of the ship that was hit first. */
  lemma FewMisses(f: seq<Placement>, run: seq<Hunter>, picks: seq<Cell>, k: nat, i: int)
    requires LegalFleet(f) && IsHunt(f, run, picks) && k <= |picks|
    ensures run[k].bot.mode == SearchDir ==> run[k].misses <= 3
    ensures run[k].bot.mode == Destroy ==> run[k].misses <= 2
    ensures run[k].bot.mode == Destroy && Target(run[k], i) && AlongShip(run[k].board.ships[i].at, run[k].bot.dir)
      ==> run[k].misses <= 1
  {
    EveryHuntTracks(f, run, picks, k);
    var h := run[k];
    if h.bot.mode == Destroy && Target(h, i) && AlongShip(h.board.ships[i].at, h.bot.dir) {
      assert Along(h.bot.first, h.bot.dir, 0) == h.bot.first;
      AxisIsOpen(h.board, h.bot.first, i, h.bot.dir);
    }
  }

  lemma MissCounted(f: seq<Placement>, run: seq<Hunter>, picks: seq<Cell>, k: nat)
    requires LegalFleet(f) && IsHunt(f, run, picks) && k < |picks|
    requires run[k].bot.mode == SearchDir && run[k + 1].bot.mode == SearchDir
    ensures run[k + 1].misses == run[k].misses + 1
  {
    EveryHuntTracks(f, run, picks, k);
    assert Follows(run[k], picks[k], run[k + 1]);
    ChooseIsSound(run[k], picks[k]);
    RoundInSearch(run[k], picks[k]);
  }

  /** The second hit, or a sinking, comes after at most three misses: no search lasts longer than
      four shots. */
  lemma {:induction false} SearchIsShort(f: seq<Placement>, run: seq<Hunter>, picks: seq<Cell>, k: nat, m: nat)
    requires LegalFleet(f) && IsHunt(f, run, picks) && k + m <= |picks|
    requires forall j :: k <= j <= k + m ==> run[j].bot.mode == SearchDir
    ensures run[k + m].misses == run[k].misses + m
    ensures m <= 3
  {
    FewMisses(f, run, picks, k + m, 0);
    if m > 0 {
      SearchIsShort(f, run, picks, k, m - 1);
      MissCounted(f, run, picks, k + m - 1);
    }
  }

  lemma GridSize()
    ensures |AllCells()| == COLS * ROWS
  {
    RowsSize(ROWS);
    assert AllCells() == set c | c in AllCells() && c.row < ROWS;
  }

  lemma {:induction false} RowsSize(n: nat)
    requires n <= ROWS
    ensures |set c | c in AllCells() && c.row < n| == COLS * n
  {
    var rows := set c | c in AllCells() && c.row < n;
    if n == 0 {
      assert rows == {};
    } else {
      RowsSize(n - 1);
      var row := Placement(0, n - 1, COLS, 0, Horizontal);
      CellsCount(row);
      assert rows == (set c | c in AllCells() && c.row < n - 1) + Cells(row);
    }
  }

  /** No battle is longer than the grid has cells. */
  lemma HuntIsFinite(f: seq<Placement>, run: seq<Hunter>, picks: seq<Cell>)
    requires LegalFleet(f) && IsHunt(f, run, picks)
    ensures |picks| <= COLS * ROWS
  {
    EveryHuntTracks(f, run, picks, |picks|);
    assert ShotsOf(run[|picks|].board) <= AllCells() by {
      assert run[|picks|].board.grid.Keys == AllCells();
    }
    GridSize();
    SubsetNotLarger(ShotsOf(run[|picks|].board), AllCells());
  }

  lemma SubsetNotLarger<T>(a: set<T>, b: set<T>)
    requires a <= b
    ensures |a| <= |b|
  {
    assert b == a + (b - a);
  }

  // ---------------------------------------------------------------------------------------------
  // Destroy mode can lose a ship
  // ---------------------------------------------------------------------------------------------

  /** Two ships side by side; the bot takes two hits on different ships for one axis. */
  const TWINS: seq<Placement> := [
    Placement(0, 1, 5, 0, Horizontal), Placement(0, 0, 4, 1, Horizontal),
    Placement(0, 5, 3, 2, Horizontal), Placement(0, 7, 3, 3, Horizontal), Placement(0, 9, 2, 4, Horizontal)]

  lemma TwinsAreAFullFleet()
    ensures FullFleet(TWINS)
  {
    assert forall i, j :: 0 <= i < j < |TWINS| ==> TWINS[i].row != TWINS[j].row;
    forall i, j | 0 <= i < j < |TWINS|
      ensures Disjoint(TWINS[i], TWINS[j])
    {
    }
  }

  lemma TwinCells(shots: set<Cell>)
    requires shots <= {Cell(0, 1), Cell(0, 0), Cell(0, 2)}
    ensures StateOf(TWINS, shots, Cell(0, 1)) == if Cell(0, 1) in shots then Hit else Ship
    ensures StateOf(TWINS, shots, Cell(0, 0)) == if Cell(0, 0) in shots then Hit else Ship
    ensures StateOf(TWINS, shots, Cell(0, 2)) == if Cell(0, 2) in shots then Miss else Empty
  {
    TwinsAreAFullFleet();
    assert Contains(TWINS[0], Cell(4, 1)) && Contains(TWINS[1], Cell(3, 0));
    StateOfOwned(TWINS, shots, Cell(0, 1), 0);
    StateOfOwned(TWINS, shots, Cell(0, 0), 1);
    assert !Occupied(TWINS, Cell(0, 2));
  }

  const ON_CARRIER := Cell(0, 1)
  const ABOVE := Cell(0, 0)
  const BELOW := Cell(0, 2)

  ghost function TwinShots(n: nat): set<Cell> {
    if n == 0 then {} else if n == 1 then {ON_CARRIER} else if n == 2 then {ON_CARRIER, ABOVE}
    else {ON_CARRIER, ABOVE, BELOW}
  }

  ghost function TwinBoard(n: nat): BoardState {
    BoardOf(TWINS, TwinShots(n))
  }

  /** The bot after `n` rounds. */
  function TwinBot(n: nat): BotState {
    if n == 0 then ResetBot()
    else BotState(if n == 1 then SearchDir else Destroy, ON_CARRIER, if n == 2 then ABOVE else ON_CARRIER, 0, 0)
  }

  /** The three cells that matter, after `n` rounds. */
  ghost predicate TwinGrid(g: Grid, n: nat) {
    && FullGrid(g)
    && g[ON_CARRIER] == (if n >= 1 then Hit else Ship)
    && g[ABOVE] == (if n >= 2 then Hit else Ship)
    && g[BELOW] == if n >= 3 then Miss else Empty
  }

  lemma TwinBoards(n: nat)
    requires n <= 3
    ensures TwinGrid(TwinBoard(n).grid, n)
  {
    TwinCells(TwinShots(n));
  }

  lemma TwinShot(n: nat, x: Cell)
    requires n < 3
    requires x == if n == 0 then ON_CARRIER else if n == 1 then ABOVE else BELOW
    ensures FullGrid(TwinBoard(n).grid) && Attack(TwinBoard(n), x) == TwinBoard(n + 1)
  {
    TwinsAreAFullFleet();
    AttackRefines(TWINS, TwinShots(n), x);
    assert TwinShots(n) + {x} == TwinShots(n + 1);
  }

  /** What the bot sees from its first hit, upwards and downwards. */
  lemma ViewFromCarrier(g: Grid)
    requires g.Keys == AllCells()
    requires g[ON_CARRIER] == Hit && g[BELOW] != Hit
    ensures EndOf(g, ON_CARRIER, 0) == if g[ABOVE] == Hit then Cell(0, -1) else ABOVE
    ensures EndOf(g, ON_CARRIER, 2) == BELOW
  {
    assert Along(ON_CARRIER, 0, 1) == ABOVE && Along(ON_CARRIER, 0, 2) == Cell(0, -1);
    RunLengthIs(g, ON_CARRIER, 0, if g[ABOVE] == Hit then 1 else 0);
    RunLengthIs(g, ON_CARRIER, 2, 0);
  }

  lemma FirstTwinRound(b: BoardState, b': BoardState)
    requires TwinGrid(b.grid, 0) && TwinGrid(b'.grid, 1) && Attack(b, ON_CARRIER) == b'
    ensures Follows(Hunter(TwinBot(0), b, 0), ON_CARRIER, Hunter(TwinBot(1), b', 0))
  {
  }

  lemma SecondTwinRound(b: BoardState, b': BoardState)
    requires TwinGrid(b.grid, 1) && TwinGrid(b'.grid, 2) && Attack(b, ABOVE) == b'
    ensures Follows(Hunter(TwinBot(1), b, 0), BELOW, Hunter(TwinBot(2), b', 0))
  {
    ViewFromCarrier(b.grid);
  }

  lemma TwinOnRun(g: Grid, n: nat)
    requires TwinGrid(g, n) && 2 <= n <= 3
    ensures OnRun(TwinBot(n), g)
  {
    assert Along(ON_CARRIER, 0, 0) == ON_CARRIER && Along(ON_CARRIER, 0, 1) == ABOVE;
  }

  lemma ThirdTwinRound(b: BoardState, b': BoardState)
    requires TwinGrid(b.grid, 2) && TwinGrid(b'.grid, 3) && Attack(b, BELOW) == b'
    ensures Follows(Hunter(TwinBot(2), b, 0), BELOW, Hunter(TwinBot(3), b', 1))
  {
    ViewFromCarrier(b.grid);
    TwinOnRun(b.grid, 2);
    PursueIs(TwinBot(2), b.grid);
  }

  lemma LostInFourthRound(g: Grid)
    requires TwinGrid(g, 3)
    ensures forall pick :: Choose(TwinBot(3), g, pick).mode == Random
  {
    ViewFromCarrier(g);
    TwinOnRun(g, 3);
    PursueIs(TwinBot(3), g);
  }

  lemma CarrierAfloat()
    ensures |TwinBoard(3).ships| == 5 && Contains(TwinBoard(3).ships[0].at, ON_CARRIER)
    ensures !TwinBoard(3).ships[0].sunk
  {
    assert Contains(TWINS[0], Cell(4, 1)) && Cell(4, 1) !in TwinShots(3);
  }

  lemma ThreeRounds(f: seq<Placement>, h0: Hunter, h1: Hunter, h2: Hunter, h3: Hunter, p: Cell, q: Cell, r: Cell)
    requires h0 == Hunter(ResetBot(), BoardOf(f, {}), 0)
    requires Follows(h0, p, h1) && Follows(h1, q, h2) && Follows(h2, r, h3)
    ensures IsHunt(f, [h0, h1, h2, h3], [p, q, r])
  {
  }

  lemma TwinSequence() returns (b: seq<BoardState>)
    ensures |b| == 4 && b[0] == BoardOf(TWINS, {})
    ensures TwinGrid(b[0].grid, 0) && TwinGrid(b[1].grid, 1) && TwinGrid(b[2].grid, 2) && TwinGrid(b[3].grid, 3)
    ensures Attack(b[0], ON_CARRIER) == b[1] && Attack(b[1], ABOVE) == b[2] && Attack(b[2], BELOW) == b[3]
    ensures |b[3].ships| == 5 && Contains(b[3].ships[0].at, ON_CARRIER) && !b[3].ships[0].sunk
  {
    var b0, b1, b2, b3 := TwinBoard(0), TwinBoard(1), TwinBoard(2), TwinBoard(3);
    TwinBoards(0);
    TwinBoards(1);
    TwinBoards(2);
    TwinBoards(3);
    TwinShot(0, ON_CARRIER);
    TwinShot(1, ABOVE);
    TwinShot(2, BELOW);
    CarrierAfloat();
    b := [b0, b1, b2, b3];
  }

  /** A run: a random hit on the carrier, a hit on the ship above it, a miss below, and then the bot
      drops the pursuit although the first ship it hit is still afloat. The fall-back of destroy mode,
      unlike that of search mode, is real. */
  lemma DestroyCanLoseAShip() returns (run: seq<Hunter>, picks: seq<Cell>)
    ensures IsHunt(TWINS, run, picks)
    ensures run[|picks|].bot.mode == Destroy
    ensures FullGrid(run[|picks|].board.grid)
    ensures forall pick :: Choose(run[|picks|].bot, run[|picks|].board.grid, pick).mode == Random
    ensures Target(run[|picks|], 0) && !run[|picks|].board.ships[0].sunk
  {
    var b := TwinSequence();
    var h0, h1 := Hunter(TwinBot(0), b[0], 0), Hunter(TwinBot(1), b[1], 0);
    var h2, h3 := Hunter(TwinBot(2), b[2], 0), Hunter(TwinBot(3), b[3], 1);
    FirstTwinRound(b[0], b[1]);
    SecondTwinRound(b[1], b[2]);
    ThirdTwinRound(b[2], b[3]);
    ThreeRounds(TWINS, h0, h1, h2, h3, ON_CARRIER, BELOW, BELOW);
    run, picks := [h0, h1, h2, h3], [ON_CARRIER, BELOW, BELOW];
    LostInFourthRound(b[3].grid);
  }
}
