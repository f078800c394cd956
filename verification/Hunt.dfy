/** The hunt-and-target bot (controller/bot.c) and the round of game.c that fires one of its shots. */
module Hunt {
  import opened Boards
  import opened BoardLaws
  import opened Rays

  datatype Mode = Random | SearchDir | Destroy

  /** The file-level variables of bot.c. */
  datatype BotState = BotState(mode: Mode, first: Cell, curr: Cell, dir: Dir, tried: int)

  predicate Sane(s: BotState) {
    InGrid(s.first) && InGrid(s.curr)
  }

  /** `bot_reset`. */
  function ResetBot(): BotState {
    BotState(Random, Cell(0, 0), Cell(0, 0), 0, 0)
  }

  /** `bot_register_result`. */
  function Register(s: BotState, hit: bool, sunk: bool): BotState {
    if sunk then s.(mode := Random)
    else match s.mode
      case Random =>
        if hit then BotState(SearchDir, s.curr, s.curr, 0, 0) else s
      case SearchDir =>
        if hit then s.(mode := Destroy)
        else s.(dir := Clockwise(s.dir), tried := s.tried + 1, curr := s.first,
                mode := if s.tried + 1 >= 4 then Random else SearchDir)
      case Destroy =>
        if hit then s else s.(dir := Opposite(s.dir), curr := s.first)
  }

  /** `bot_choose_attack` in search mode: the first direction whose ray is open, or random mode. */
  function Search(s: BotState, g: Grid): BotState
    requires forall x :: x in g ==> InGrid(x)
    decreases 4 - s.tried
  {
    if Open(g, s.curr, s.dir) then s.(curr := EndOf(g, s.curr, s.dir))
    else
      var s' := s.(dir := Clockwise(s.dir), tried := s.tried + 1, curr := s.first);
      if s'.tried >= 4 then s'.(mode := Random) else Search(s', g)
  }

  /** `bot_choose_attack` in destroy mode, after `attempts` flips of direction. */
  function Pursue(s: BotState, g: Grid, attempts: nat): BotState
    requires forall x :: x in g ==> InGrid(x)
    decreases 4 - attempts
  {
    if attempts >= 4 then s.(mode := Random)
    else if Open(g, s.curr, s.dir) then s.(curr := EndOf(g, s.curr, s.dir))
    else Pursue(s.(dir := Opposite(s.dir), curr := s.first), g, attempts + 1)
  }

  /** The ray the bot looked along is closed: the next direction, from the first hit. */
  function TurnAway(s: BotState): BotState {
    if s.mode == SearchDir
    then s.(dir := Clockwise(s.dir), tried := s.tried + 1, curr := s.first,
            mode := if s.tried + 1 >= 4 then Random else SearchDir)
    else s.(dir := Opposite(s.dir), curr := s.first)
  }

  /** Where the bot aims after `attempts` flips; random mode if it has nothing to aim at. */
  function AimFrom(s: BotState, g: Grid, attempts: nat): BotState
    requires forall x :: x in g ==> InGrid(x)
  {
    match s.mode
    case Random => s
    case SearchDir => Search(s, g)
    case Destroy => Pursue(s, g, attempts)
  }

  function Aim(s: BotState, g: Grid): BotState
    requires forall x :: x in g ==> InGrid(x)
  {
    AimFrom(s, g, 0)
  }

  /** `bot_choose_attack`: the chosen cell is `curr` of the result; `pick` is the cell that the random
      draw ends with, if it comes to that. */
  function Choose(s: BotState, g: Grid, pick: Cell): BotState
    requires forall x :: x in g ==> InGrid(x)
  {
    var aim := Aim(s, g);
    if aim.mode == Random then aim.(curr := pick) else aim
  }

  /** The bot, the board it attacks, and the misses since it entered its current mode. */
  datatype Hunter = Hunter(bot: BotState, board: BoardState, misses: nat)

  predicate ReadsHit(b: BoardState, c: Cell) {
    c in b.grid && (b.grid[c] == Hit || b.grid[c] == Sunk)
  }

  predicate ReadsSunk(b: BoardState, c: Cell) {
    c in b.grid && b.grid[c] == Sunk
  }

  /** Choose, attack, register: lines 211-217 of controller/game.c. */
  function Round(h: Hunter, pick: Cell): Hunter
    requires forall x :: x in h.board.grid <==> InGrid(x)
    requires InGrid(Choose(h.bot, h.board.grid, pick).curr)
  {
    var fired := Choose(h.bot, h.board.grid, pick);
    var board := Attack(h.board, fired.curr);
    var hit, sunk := ReadsHit(board, fired.curr), ReadsSunk(board, fired.curr);
    var bot := Register(fired, hit, sunk);
    Hunter(bot, board, if bot.mode != h.bot.mode || bot.mode == Random then 0
                       else if hit then h.misses else h.misses + 1)
  }

  // ---------------------------------------------------------------------------------------------
  // The invariant
  // ---------------------------------------------------------------------------------------------

  /** How far `curr` lies from `first` along `dir`. */
  function Reached(s: BotState): int {
    match s.dir
    case 0 => s.first.row - s.curr.row
    case 1 => s.curr.col - s.first.col
    case 2 => s.curr.row - s.first.row
    case _ => s.first.col - s.curr.col
  }

  /** From `first` to `curr` every cell is `Hit`. */
  predicate OnRun(s: BotState, g: Grid) {
    && 0 <= Reached(s) && s.curr == Along(s.first, s.dir, Reached(s))
    && forall j :: 0 <= j <= Reached(s) ==> IsHit(g, Along(s.first, s.dir, j))
  }

  predicate MissAtEnd(g: Grid, c: Cell, d: Dir)
    requires forall x :: x in g ==> InGrid(x)
  {
    var e := EndOf(g, c, d);
    e in g && g[e] == Miss
  }

  function MissEnds(g: Grid, c: Cell, d: Dir): nat
    requires forall x :: x in g ==> InGrid(x)
  {
    (if MissAtEnd(g, c, d) then 1 else 0) + if MissAtEnd(g, c, Opposite(d)) then 1 else 0
  }

  /** The bot's memory agrees with the grid; `misses` counts those since the mode was entered. */
  predicate Stalking(s: BotState, g: Grid, misses: nat)
    requires forall x :: x in g ==> InGrid(x)
  {
    && Sane(s)
    && (s.mode == SearchDir ==>
          && s.curr == s.first && IsHit(g, s.first)
          && 0 <= s.tried < 4 && s.dir == s.tried
          && (forall d: Dir :: d < s.tried ==> !Open(g, s.first, d))
          && misses <= s.tried)
    && (s.mode == Destroy ==>
          && OnRun(s, g)
          && misses <= MissEnds(g, s.first, s.dir))
  }

  ghost predicate Tracking(h: Hunter) {
    LegalBoard(h.board) && Stalking(h.bot, h.board.grid, h.misses)
  }

  /** The ship that the bot is after: the one that covers `first`. */
  ghost predicate Target(h: Hunter, i: int) {
    0 <= i < |h.board.ships| && Contains(h.board.ships[i].at, h.bot.first)
  }

  ghost predicate AlongShip(p: Placement, d: Dir) {
    d % 2 == if p.orient == Horizontal then 1 else 0
  }

  // ---------------------------------------------------------------------------------------------
  // Choosing
  // ---------------------------------------------------------------------------------------------

  /** If some direction not yet tried is open, search mode fires in the first such direction. */
  lemma {:induction false} SearchFinds(s: BotState, g: Grid, open: Dir)
    requires forall x :: x in g ==> InGrid(x)
    requires s.curr == s.first && s.dir == s.tried && s.tried <= open && Open(g, s.first, open)
    requires forall d: Dir :: d < s.tried ==> !Open(g, s.first, d)
    ensures var r := Search(s, g);
            && s.tried <= r.tried <= open && r.dir == r.tried && r.mode == s.mode && r.first == s.first
            && Open(g, s.first, r.dir) && r.curr == EndOf(g, s.first, r.dir)
            && forall d: Dir :: d < r.tried ==> !Open(g, s.first, d)
    decreases 4 - s.tried
  {
    if !Open(g, s.curr, s.dir) {
      SearchFinds(s.(dir := Clockwise(s.dir), tried := s.tried + 1), g, open);
    }
  }

  /** Destroy mode fires at an open end of the run through `first`, the current one before the
      opposite one, and gives up exactly when both are closed. */
  lemma PursueIs(s: BotState, g: Grid)
    requires forall x :: x in g ==> InGrid(x)
    requires OnRun(s, g)
    ensures var back := Opposite(s.dir);
            Pursue(s, g, 0) ==
            if Open(g, s.first, s.dir) then s.(curr := EndOf(g, s.first, s.dir))
            else if Open(g, s.first, back) then s.(dir := back, curr := EndOf(g, s.first, back))
            else s.(mode := Random, curr := s.first)
  {
    SameEnd(g, s.first, s.dir, Reached(s));
    if !Open(g, s.first, s.dir) {
      var s1 := s.(dir := Opposite(s.dir), curr := s.first);
      var s2 := s.(curr := s.first);
      assert Pursue(s, g, 0) == Pursue(s1, g, 1);
      if !Open(g, s.first, s1.dir) {
        assert Pursue(s1, g, 1) == Pursue(s2, g, 2);
        assert Pursue(s2, g, 2) == Pursue(s1, g, 3);
        assert Pursue(s1, g, 3) == Pursue(s2, g, 4);
      }
    }
  }

  /** The bot always fires at a fresh cell of the grid. Search mode never gives up; destroy mode
      gives up exactly when both ends of the run of hits through `first` are closed. */
  lemma ChooseIsSound(h: Hunter, pick: Cell)
    requires Tracking(h) && IsFresh(h.board.grid, pick)
    ensures var s, g := h.bot, h.board.grid;
            var fired := Choose(s, g, pick);
            && IsFresh(g, fired.curr)
            && (s.mode == SearchDir ==> fired.mode == SearchDir)
            && (s.mode == Destroy ==>
                  (fired.mode == Random <==> !Open(g, s.first, s.dir) && !Open(g, s.first, Opposite(s.dir))))
  {
    var s, g := h.bot, h.board.grid;
    if s.mode == SearchDir {
      var open := OpenRay(h);
      SearchFinds(s, g, open);
    } else if s.mode == Destroy {
      PursueIs(s, g);
    }
  }

  /** Around a wounded ship some ray is open. */
  lemma OpenRay(h: Hunter) returns (d: Dir)
    requires LegalBoard(h.board) && IsHit(h.board.grid, h.bot.first)
    ensures Open(h.board.grid, h.bot.first, d)
  {
    var i := HitMeansAfloat(h.board, h.bot.first);
    var forward := WoundedShipHasOpenRay(h.board, h.bot.first, i);
    d := AxisOf(h.board.ships[i].at, forward);
  }

  lemma AxisIsOpen(b: BoardState, c: Cell, i: int, d: Dir)
    requires LegalBoard(b) && IsHit(b.grid, c)
    requires 0 <= i < |b.ships| && Contains(b.ships[i].at, c) && AlongShip(b.ships[i].at, d)
    ensures Open(b.grid, c, d) || Open(b.grid, c, Opposite(d))
  {
    OwnerAfloat(b, c, i);
    var forward := WoundedShipHasOpenRay(b, c, i);
    AxisChoices(b.ships[i].at, d, forward);
  }

  lemma OwnerAfloat(b: BoardState, c: Cell, i: int)
    requires LegalBoard(b) && IsHit(b.grid, c) && 0 <= i < |b.ships| && Contains(b.ships[i].at, c)
    ensures !b.ships[i].sunk
  {
    StateOfOwned(FleetOf(b), ShotsOf(b), c, i);
    assert b.grid[c] == BoardOf(FleetOf(b), ShotsOf(b)).grid[c];
  }

  lemma AxisChoices(p: Placement, d: Dir, forward: bool)
    requires AlongShip(p, d)
    ensures AxisOf(p, forward) == d || AxisOf(p, forward) == Opposite(d)
  {
  }

  /** Destroy mode never loses a ship whose own axis it follows. */
  lemma OwnAxisNeverLost(h: Hunter, pick: Cell, i: int)
    requires Tracking(h) && IsFresh(h.board.grid, pick)
    requires h.bot.mode == Destroy && Target(h, i) && AlongShip(h.board.ships[i].at, h.bot.dir)
    ensures Choose(h.bot, h.board.grid, pick).mode == Destroy
  {
    assert Along(h.bot.first, h.bot.dir, 0) == h.bot.first;
    AxisIsOpen(h.board, h.bot.first, i, h.bot.dir);
    PursueIs(h.bot, h.board.grid);
  }

  // ---------------------------------------------------------------------------------------------
  // One round
  // ---------------------------------------------------------------------------------------------

  /** A shot that sinks nothing changes one cell. */
  lemma ShotShape(b: BoardState, x: Cell)
    requires x in b.grid
    ensures var b' := Attack(b, x);
            b'.grid[x] != Sunk ==>
              (b'.grid[x] == Hit || b'.grid[x] == Miss) && b'.grid == b.grid[x := b'.grid[x]]
  {
  }

  /** Rays that ended elsewhere, or that now end in a miss, are as long as before; a closed ray
      stays closed. */
  lemma RaysAfterShot(g: Grid, c: Cell, d: Dir, x: Cell, v: CellState)
    requires forall y :: y in g ==> InGrid(y)
    requires IsFresh(g, x) && (v == Hit || v == Miss)
    ensures var g' := g[x := v];
            && (!Open(g, c, d) ==> !Open(g', c, d) && (MissAtEnd(g, c, d) ==> MissAtEnd(g', c, d)))
            && (v == Miss && EndOf(g, c, d) == x ==> MissAtEnd(g', c, d) && !Open(g', c, d))
            && (EndOf(g, c, d) != x ==> (MissAtEnd(g, c, d) ==> MissAtEnd(g', c, d)))
            && (v == Miss ==> RunLength(g', c, d) == RunLength(g, c, d))
  {
    if v == Miss || EndOf(g, c, d) != x {
      RunUnmoved(g, c, d, x, v);
    }
  }

  /** The bot aims along the first open ray from its first hit. */
  predicate AimsInSearch(fired: BotState, g: Grid)
    requires forall x :: x in g ==> InGrid(x)
  {
    && fired.mode == SearchDir && Sane(fired) && IsHit(g, fired.first)
    && 0 <= fired.tried < 4 && fired.dir == fired.tried
    && Open(g, fired.first, fired.dir) && fired.curr == EndOf(g, fired.first, fired.dir)
    && forall d: Dir :: d < fired.tried ==> !Open(g, fired.first, d)
  }

  /** Search mode after a miss: some ray is still open, so it is not over. */
  lemma MissInSearch(fired: BotState, g: Grid, misses: nat, still: Dir)
    requires forall x :: x in g ==> InGrid(x)
    requires AimsInSearch(fired, g) && misses <= fired.tried
    requires Open(g[fired.curr := Miss], fired.first, still)
    ensures var s' := Register(fired, false, false);
            s'.mode == SearchDir && Stalking(s', g[fired.curr := Miss], misses + 1)
  {
    var g' := g[fired.curr := Miss];
    forall d: Dir {:trigger Open(g', fired.first, d)} | d <= fired.tried
      ensures !Open(g', fired.first, d)
    {
      RaysAfterShot(g, fired.first, d, fired.curr, Miss);
    }
    assert fired.tried < still;
  }

  /** Search mode after a hit: the run through the first hit begins. */
  lemma HitInSearch(fired: BotState, g: Grid)
    requires forall x :: x in g ==> InGrid(x)
    requires AimsInSearch(fired, g)
    ensures Stalking(Register(fired, true, false), g[fired.curr := Hit], 0)
  {
    HitExtendsRun(fired, g);
  }

  /** Hitting the end of a run makes the run one cell longer or more. */
  lemma HitExtendsRun(fired: BotState, g: Grid)
    requires forall x :: x in g ==> InGrid(x)
    requires IsHit(g, fired.first) && IsFresh(g, fired.curr) && fired.curr == EndOf(g, fired.first, fired.dir)
    ensures OnRun(fired, g[fired.curr := Hit])
  {
    var n := RunLength(g, fired.first, fired.dir);
    assert Reached(fired) == n + 1;
    forall j | 0 <= j <= n + 1
      ensures IsHit(g[fired.curr := Hit], Along(fired.first, fired.dir, j))
    {
      assert j == 0 ==> Along(fired.first, fired.dir, j) == fired.first;
    }
  }

  /** A miss at the end of a run closes that end for good. */
  lemma MissEndsGrow(g: Grid, c: Cell, d: Dir)
    requires forall x :: x in g ==> InGrid(x)
    requires Open(g, c, d)
    ensures MissEnds(g[EndOf(g, c, d) := Miss], c, d) >= MissEnds(g, c, d) + 1
    ensures MissEnds(g[EndOf(g, c, d) := Miss], c, Opposite(d)) == MissEnds(g[EndOf(g, c, d) := Miss], c, d)
  {
    var x := EndOf(g, c, d);
    RaysAfterShot(g, c, d, x, Miss);
    RaysAfterShot(g, c, Opposite(d), x, Miss);
  }

  lemma MissTurnsRound(fired: BotState, g: Grid, misses: nat)
    requires forall x :: x in g ==> InGrid(x)
    requires fired.mode == Destroy && Sane(fired) && IsHit(g, fired.first)
    requires Open(g, fired.first, fired.dir) && fired.curr == EndOf(g, fired.first, fired.dir)
    requires misses <= MissEnds(g, fired.first, fired.dir)
    ensures Stalking(Register(fired, false, false), g[fired.curr := Miss], misses + 1)
  {
    MissEndsGrow(g, fired.first, fired.dir);
    assert Along(fired.first, Opposite(fired.dir), 0) == fired.first;
  }

  /** Destroy mode after a miss: the opposite end is next, and one more end is closed by a miss. */
  lemma MissInDestroy(s: BotState, g: Grid, misses: nat)
    requires forall x :: x in g ==> InGrid(x)
    requires s.mode == Destroy && Stalking(s, g, misses)
    requires var fired := Pursue(s, g, 0); fired.mode == Destroy && IsFresh(g, fired.curr)
    ensures Stalking(Register(Pursue(s, g, 0), false, false), g[Pursue(s, g, 0).curr := Miss], misses + 1)
  {
    PursueIs(s, g);
    assert Along(s.first, s.dir, 0) == s.first;
    MissTurnsRound(Pursue(s, g, 0), g, misses);
  }

  /** Destroy mode after a hit: the run grows. */
  lemma HitInDestroy(s: BotState, g: Grid, misses: nat)
    requires forall x :: x in g ==> InGrid(x)
    requires s.mode == Destroy && Stalking(s, g, misses)
    requires var fired := Pursue(s, g, 0); fired.mode == Destroy && IsFresh(g, fired.curr)
    ensures Stalking(Register(Pursue(s, g, 0), true, false), g[Pursue(s, g, 0).curr := Hit], misses)
  {
    PursueIs(s, g);
    var fired := Pursue(s, g, 0);
    assert Along(s.first, s.dir, 0) == s.first;
    HitExtendsRun(fired, g);
    RaysAfterShot(g, s.first, s.dir, fired.curr, Hit);
    RaysAfterShot(g, s.first, Opposite(s.dir), fired.curr, Hit);
  }

  lemma ShotOutcome(b: BoardState, x: Cell)
    requires LegalBoard(b) && IsFresh(b.grid, x)
    ensures var b' := Attack(b, x);
            && LegalBoard(b')
            && (b'.grid[x] != Sunk ==> (b'.grid[x] == Hit || b'.grid[x] == Miss) && b'.grid == b.grid[x := b'.grid[x]])
  {
    FreshShot(b, x);
    ShotShape(b, x);
  }

  lemma RoundInSearch(h: Hunter, pick: Cell)
    requires Tracking(h) && IsFresh(h.board.grid, pick) && h.bot.mode == SearchDir
    requires IsFresh(h.board.grid, Choose(h.bot, h.board.grid, pick).curr)
    ensures Tracking(Round(h, pick))
    ensures var h' := Round(h, pick);
            var c := Choose(h.bot, h.board.grid, pick).curr;
            h'.bot.mode == if ReadsSunk(h'.board, c) then Random else if ReadsHit(h'.board, c) then Destroy else SearchDir
    ensures Round(h, pick).bot.mode == SearchDir ==> Round(h, pick).misses == h.misses + 1
  {
    var x := Choose(h.bot, h.board.grid, pick).curr;
    var after := Attack(h.board, x);
    var open := OpenRay(h);
    SearchFinds(h.bot, h.board.grid, open);
    ShotOutcome(h.board, x);
    if after.grid[x] == Miss {
      var still := OpenRay(Hunter(h.bot, after, 0));
      MissInSearch(Choose(h.bot, h.board.grid, pick), h.board.grid, h.misses, still);
    } else if after.grid[x] == Hit {
      HitInSearch(Choose(h.bot, h.board.grid, pick), h.board.grid);
    }
  }

  lemma RoundInDestroy(h: Hunter, pick: Cell)
    requires Tracking(h) && IsFresh(h.board.grid, pick) && h.bot.mode == Destroy
    requires IsFresh(h.board.grid, Choose(h.bot, h.board.grid, pick).curr)
    ensures Tracking(Round(h, pick))
  {
    var fired := Choose(h.bot, h.board.grid, pick);
    var x := fired.curr;
    var after := Attack(h.board, x);
    PursueIs(h.bot, h.board.grid);
    ShotOutcome(h.board, x);
    if fired.mode == Destroy && after.grid[x] == Miss {
      MissInDestroy(h.bot, h.board.grid, h.misses);
    } else if fired.mode == Destroy && after.grid[x] == Hit {
      HitInDestroy(h.bot, h.board.grid, h.misses);
    }
  }

  lemma FlipKeepsAxis(d: Dir)
    ensures Opposite(d) % 2 == d % 2
  {
  }

  /** A pursuit flips its direction and never leaves its axis. */
  lemma AxisKept(s: BotState, g: Grid, hit: bool, sunk: bool)
    requires forall x :: x in g ==> InGrid(x)
    requires s.mode == Destroy && OnRun(s, g)
    ensures Register(Pursue(s, g, 0), hit, sunk).dir % 2 == s.dir % 2 || Register(Pursue(s, g, 0), hit, sunk).mode != Destroy
  {
    PursueIs(s, g);
    FlipKeepsAxis(s.dir);
    FlipKeepsAxis(Opposite(s.dir));
    hide Pursue, Opposite, OnRun, Open, EndOf;
  }

  lemma RoundInRandom(h: Hunter, pick: Cell)
    requires Tracking(h) && IsFresh(h.board.grid, pick) && h.bot.mode == Random
    ensures Tracking(Round(h, pick))
  {
    ShotOutcome(h.board, pick);
  }

  /** A round keeps the invariant, and a pursuit keeps its axis. */
  lemma RoundKeepsTracking(h: Hunter, pick: Cell)
    requires Tracking(h) && IsFresh(h.board.grid, pick)
    ensures IsFresh(h.board.grid, Choose(h.bot, h.board.grid, pick).curr)
    ensures Tracking(Round(h, pick))
    ensures h.bot.mode == Destroy && Round(h, pick).bot.mode == Destroy ==> Round(h, pick).bot.dir % 2 == h.bot.dir % 2
  {
    ChooseIsSound(h, pick);
    match h.bot.mode
    case Random => RoundInRandom(h, pick);
    case SearchDir => RoundInSearch(h, pick);
    case Destroy =>
      RoundInDestroy(h, pick);
      RoundKeepsAxis(h, pick);
  }

  lemma RoundKeepsAxis(h: Hunter, pick: Cell)
    requires Tracking(h) && h.bot.mode == Destroy && InGrid(Choose(h.bot, h.board.grid, pick).curr)
    ensures Round(h, pick).bot.mode == Destroy ==> Round(h, pick).bot.dir % 2 == h.bot.dir % 2
  {
    var fired := Choose(h.bot, h.board.grid, pick);
    var board := Attack(h.board, fired.curr);
    AxisKept(h.bot, h.board.grid, ReadsHit(board, fired.curr), ReadsSunk(board, fired.curr));
    hide Pursue, Attack, LegalBoard, OnRun, MissEnds;
  }
}
