/** Every event keeps the host's invariant. */
module HostSteps {
  import opened Boards
  import opened BoardLaws
  import opened Protocol
  import opened Explosion
  import opened Host
  import opened HostControl
  import H = Hunt
  import R = Rays

  // ---------------------------------------------------------------------------------------------
  // Boards in play
  // ---------------------------------------------------------------------------------------------

  /** Explained by the first ships of the canonical fleet and a set of shots. */
  ghost predicate GoodBoard(b: BoardState) {
    LegalBoard(b) && StandardFleet(FleetOf(b))
  }

  lemma FreshFleet(f: seq<Placement>)
    requires StandardFleet(f)
    ensures var b := BoardOf(f, {}); GoodBoard(b) && FleetOf(b) == f && Unshot(b) && !AllSunk(b)
  {
    BoardOfInverse(f, {});
    forall i | 0 <= i < |f|
      ensures !Wrecked(f[i], {})
    {
      assert Contains(f[i], Nth(f[i], 0));
    }
    assert WreckedShips(f, {}) == {};
  }

  lemma EmptyBoard()
    ensures var b := InitialBoard(); GoodBoard(b) && |b.ships| == 0 && Unshot(b) && !AllSunk(b)
  {
    InitialIsBoardOf();
    FreshFleet([]);
  }

  /** Before the first shot a good board is its fleet and nothing else. */
  lemma UnshotBoard(b: BoardState)
    requires GoodBoard(b) && Unshot(b)
    ensures b == BoardOf(FleetOf(b), {}) && !AllSunk(b)
  {
    FreshFleet(FleetOf(b));
  }

  lemma GoodPlace(b: BoardState, p: Placement)
    requires GoodBoard(b) && Unshot(b) && CanPlace(b, p)
    requires |b.ships| < NUM_SHIPS && p.size == SHIP_SIZES[|b.ships|] && p.typeIdx == |b.ships|
    ensures var b' := PlaceShip(b, p);
            GoodBoard(b') && |b'.ships| == |b.ships| + 1 && Unshot(b') && !AllSunk(b') && FleetOf(b') == FleetOf(b) + [p]
  {
    UnshotBoard(b);
    PlaceRefines(FleetOf(b), {}, p);
    FreshFleet(FleetOf(b) + [p]);
  }

  lemma GoodShot(b: BoardState, c: Cell)
    requires GoodBoard(b) && InGrid(c) && c in b.grid && !Attacked(b.grid[c])
    ensures var b' := Attack(b, c);
            && GoodBoard(b') && |b'.ships| == |b.ships| && FleetOf(b') == FleetOf(b)
            && c in b'.grid && Attacked(b'.grid[c]) && ShotsOf(b') == ShotsOf(b) + {c}
  {
    FreshShot(b, c);
    assert |FleetOf(b)| == |b.ships|;
  }

  // ---------------------------------------------------------------------------------------------
  // The invariant
  // ---------------------------------------------------------------------------------------------

  predicate InGame(t: Tag) {
    Peaceful(t) || Battle(t)
  }

  ghost predicate BotKnows(bot: H.BotState, b: BoardState) {
    FullGrid(b.grid) && H.Stalking(bot, b.grid, 0)
  }

  ghost predicate Inv(h: HostState) {
    && Control(h)
    && GoodBoard(h.p1) && GoodBoard(h.p2)
    && (InGame(Active(h)) ==> BotKnows(h.bot, h.p1))
  }

  /** `game_init`. */
  ghost predicate Init(h: HostState) {
    && h.tag == MainMenu && h.prev == MainMenu && !h.over && !h.connected && !h.remoteReady && !h.single
    && h.p1 == h.p2 == InitialBoard()
    && h.botTimer == 0 && h.cdTicks == 0 && h.cdSeconds == 0 && h.data == Words(0, 0, 0, 0, 0)
    && h.remote == Cell(-1, -1) && !h.postWait && h.postTicks == 0 && h.cursorTick == 0
    && h.expl == ResetExplosion() && h.bot == H.ResetBot() && h.sent == []
  }

  lemma InitInv(h: HostState)
    requires Init(h)
    ensures Inv(h)
  {
    EmptyBoard();
  }

  // ---------------------------------------------------------------------------------------------
  // A tick
  // ---------------------------------------------------------------------------------------------

  /** What the random draws of a tick would end with: a cell not yet attacked, a complete fleet. */
  ghost predicate FairDraws(h: HostState, pick: Cell, fleet: seq<Placement>) {
    && FullFleet(fleet)
    && ((exists c: Cell :: R.IsFresh(h.p1.grid, c)) ==> R.IsFresh(h.p1.grid, pick))
  }

  /** The stages of `game_handle_timer` before the bot's. */
  ghost function BeforeBot(h: HostState): HostState
    requires Control(h)
  {
    CountdownKeeps(h);
    ResolveKeeps(TickCountdown(h));
    var read := TickResolve(TickCountdown(h));
    if read.tag == GameOver && h.tag != GameOver then read
    else TickCursor(TickHandover(TickPostAttack(read)))
  }

  /** The handler returns as soon as the game is over. */
  ghost predicate EndsNow(h: HostState)
    requires Control(h)
  {
    BeforeBot(h).tag == GameOver && h.tag != GameOver
  }

  /** `game_handle_timer`. */
  ghost function GameTimer(h: HostState, pick: Cell, fleet: seq<Placement>): HostState
    requires Inv(h) && FairDraws(h, pick, fleet)
  {
    BeforeBotKeeps(h);
    BotAims(BeforeBot(h), pick, fleet);
    if EndsNow(h) then BeforeBot(h) else TickBot(BeforeBot(h), pick, fleet)
  }

  /** `handle_timer`: the game's timer, then the animation. */
  ghost function Tick(h: HostState, pick: Cell, fleet: seq<Placement>): HostState
    requires Inv(h) && FairDraws(h, pick, fleet)
  {
    var h' := GameTimer(h, pick, fleet);
    h'.(expl := Animate(h'.expl))
  }

  lemma BeforeBotKeeps(h: HostState)
    requires Inv(h)
    ensures Inv(BeforeBot(h)) && SameArena(h, BeforeBot(h)) && Settled(BeforeBot(h))
  {
    hide GoodBoard, BotKnows;
    var a := TickCountdown(h);
    CountdownKeeps(h);
    ResolveKeeps(a);
    var b := TickResolve(a);
    PostAttackKeeps(b);
    HandoverKeeps(TickPostAttack(b));
    CursorKeeps(TickHandover(TickPostAttack(b)));
    KnowledgeKept(h, BeforeBot(h));
  }

  /** The control stages only move between states in which the bot's memory is kept. */
  lemma KnowledgeKept(h: HostState, h': HostState)
    requires Inv(h) && Control(h') && SameArena(h, h') && h' == BeforeBot(h)
    ensures InGame(Active(h')) ==> InGame(Active(h))
  {
    hide GoodBoard, BotKnows;
  }

  /** When the bot is to fire there is a cell left, and it aims at one. */
  lemma BotAims(h: HostState, pick: Cell, fleet: seq<Placement>)
    requires Inv(h) && Settled(h) && FairDraws(h, pick, fleet)
    ensures BotFires(h) ==> (forall x :: x in h.p1.grid ==> InGrid(x)) && R.IsFresh(h.p1.grid, pick)
    ensures BotFires(h) ==> R.IsFresh(h.p1.grid, H.Choose(h.bot, h.p1.grid, pick).curr)
  {
    if BotFires(h) {
      var c := AfloatMeansFreshCell(h.p1);
      assert R.IsFresh(h.p1.grid, c);
      H.ChooseIsSound(H.Hunter(h.bot, h.p1, 0), pick);
    }
  }

  lemma BotLearns(bot: H.BotState, b: BoardState, pick: Cell)
    requires GoodBoard(b) && BotKnows(bot, b) && R.IsFresh(b.grid, pick)
    requires R.IsFresh(b.grid, H.Choose(bot, b.grid, pick).curr)
    ensures var r := H.Round(H.Hunter(bot, b, 0), pick); BotKnows(r.bot, r.board)
  {
    H.RoundKeepsTracking(H.Hunter(bot, b, 0), pick);
  }

  /** A bot at rest knows enough about any board. */
  lemma BotAtRest(bot: H.BotState, b: BoardState, b': BoardState)
    requires BotKnows(bot, b) && bot.mode == H.Random && FullGrid(b'.grid)
    ensures BotKnows(bot, b')
  {
  }

  lemma BotShotKeeps(h: HostState, pick: Cell)
    requires Inv(h) && Settled(h) && BotFires(h) && R.IsFresh(h.p1.grid, pick)
    requires forall x :: x in h.p1.grid ==> InGrid(x)
    requires R.IsFresh(h.p1.grid, H.Choose(h.bot, h.p1.grid, pick).curr)
    ensures Inv(BotShot(h, pick))
  {
    hide GoodBoard, H.Stalking, H.Choose, H.Register;
    var c := H.Choose(h.bot, h.p1.grid, pick).curr;
    var r := H.Round(H.Hunter(h.bot, h.p1, 0), pick);
    BotLearns(h.bot, h.p1, pick);
    GoodShot(h.p1, c);
    assert BotShot(h, pick) ==
      h.(p1 := r.board, expl := StartExplosion(h.expl, c, H.ReadsHit(r.board, c)), bot := r.bot, botTimer := 0);
    ShotAtP1(h, r.board, c, r.bot, 0);
  }

  lemma BotPlacesKeeps(h: HostState, pick: Cell, fleet: seq<Placement>)
    requires Inv(h) && BotPlaces(h) && FullFleet(fleet)
    ensures Inv(TickBot(h, pick, fleet))
  {
    hide GoodBoard, BotKnows, BoardOf;
    FreshFleet(fleet);
    CountingBegins(h, BoardOf(fleet, {}), AsByte(h.botTimer + 1), h.sent);
  }

  lemma BotWaitsKeeps(h: HostState)
    requires Inv(h) && (BotReady(h) || (h.single && h.tag == PlaceP2)) && !BotFires(h) && !BotPlaces(h)
    ensures Inv(h.(botTimer := AsByte(h.botTimer + 1)))
  {
    hide GoodBoard, BotKnows;
  }

  lemma AnimationKeepsInv(h: HostState)
    requires Inv(h)
    ensures Inv(h.(expl := Animate(h.expl)))
  {
    hide GoodBoard, BotKnows;
    AnimationKeeps(h);
  }

  lemma TickKeeps(h: HostState, pick: Cell, fleet: seq<Placement>)
    requires Inv(h) && FairDraws(h, pick, fleet)
    ensures Inv(Tick(h, pick, fleet))
  {
    hide GoodBoard, BotKnows;
    BeforeBotKeeps(h);
    var b := BeforeBot(h);
    BotAims(b, pick, fleet);
    if !EndsNow(h) {
      if BotPlaces(b) { BotPlacesKeeps(b, pick, fleet); }
      else if BotFires(b) { BotShotKeeps(b, pick); }
      else if BotReady(b) || (b.single && b.tag == PlaceP2) { BotWaitsKeeps(b); }
    }
    AnimationKeepsInv(GameTimer(h, pick, fleet));
  }

  // ---------------------------------------------------------------------------------------------
  // Keyboard and mouse
  // ---------------------------------------------------------------------------------------------

  lemma GoodGrids(h: HostState)
    requires Inv(h)
    ensures FullGrid(h.p1.grid) && FullGrid(h.p2.grid)
  {
  }

  lemma InputSafe(h: HostState)
    requires Inv(h)
    ensures CursorSafe(h)
  {
  }

  lemma CommitKeeps(h: HostState)
    requires Inv(h) && h.tag == PlaceP1
    ensures CursorSafe(h) && Inv(CommitShip(h))
  {
    hide GoodBoard, H.Stalking;
    var p := Wanted(h.data);
    if CanPlace(h.p1, p) {
      var p1 := PlaceShip(h.p1, p);
      GoodPlace(h.p1, p);
      BotAtRest(h.bot, h.p1, p1);
      var h' := CommitShip(h);
      ShipPlacedByP1(h, p1, 0, h'.sent);
      if |p1.ships| < NUM_SHIPS {
        assert h' == h.(p1 := p1, data := h.data.(w1 := h.data.w1 + 1, w3 := 0, w4 := 0));
      } else if h.single {
        assert h' == h.(p1 := p1, data := Words(h.data.w0, 0, 0, 0, 0), tag := PlaceP2, prev := h.tag, botTimer := 0, sent := h'.sent);
      } else {
        assert h' == h.(p1 := p1, data := Words(h.data.w0, 0, 0, 0, 0), tag := PlaceWaiting, prev := h.tag, sent := h'.sent);
      }
    }
  }

  lemma FireKeeps(h: HostState)
    requires Inv(h) && h.tag == TurnP1 && !InputBlocked(h)
    ensures CursorSafe(h) && Inv(FireAt(h, Cell(h.data.w1, h.data.w2)))
  {
    hide GoodBoard, BotKnows;
    var c := Cell(h.data.w1, h.data.w2);
    GoodGrids(h);
    if !Attacked(h.p2.grid[c]) {
      GoodShot(h.p2, c);
      ShotAtP2(h, Attack(h.p2, c), c);
    }
  }

  lemma WordsKeep(h: HostState, d: Words)
    requires Inv(h) && h.tag != GameOver
    requires PhaseOk(Active(h), h.single, |h.p1.ships|, |h.p2.ships|, d)
    ensures Inv(h.(data := d))
  {
    hide GoodBoard, BotKnows;
    WordsFree(h, d);
  }

  /** The first word of the union is free outside the placing index: menus and pauses may write it. */
  lemma FirstWordKeeps(h: HostState, w: int)
    requires Inv(h) && h.tag != GameOver
    ensures Inv(h.(data := h.data.(w0 := w)))
  {
    hide GoodBoard, BotKnows;
    WordsFree(h, h.data.(w0 := w));
  }

  lemma NewGameKeeps(h: HostState, single: bool)
    requires Inv(h) && h.tag == MainMenu
    ensures Inv(NewGame(h, single))
  {
    EmptyBoard();
    var h' := NewGame(h, single);
    GameStarts(h, InitialBoard(), single, h'.connected, h'.remoteReady);
  }

  lemma MenuChoiceKeeps(h: HostState, item: int)
    requires Inv(h) && h.tag == MainMenu
    ensures Inv(MenuChoice(h, item))
  {
    hide Inv, NewGame;
    if item == 0 || item == 1 { NewGameKeeps(h, item == 0); }
    else { MenuLeaves(h); }
  }

  lemma MenuLeaves(h: HostState)
    requires Inv(h) && h.tag == MainMenu
    ensures Inv(Transition(h, Instructions)) && Inv(h.(over := true))
  {
    hide GoodBoard, BotKnows;
  }

  /** The key places a ship on the bot's board. */
  ghost predicate PlacesForBot(h: HostState, code: KeyCode, make: bool) {
    && h.tag == PlaceP2 && make && code == KeyEnter
    && 0 <= h.data.w1 < NUM_SHIPS && FullGrid(h.p2.grid) && CanPlace(h.p2, Wanted(h.data))
  }

  lemma KeyInPlace(h: HostState, code: KeyCode, make: bool)
    requires Inv(h) && (h.tag == PlaceP1 || h.tag == PlaceP2) && !PlacesForBot(h, code, make)
    ensures CursorSafe(h) && Inv(HandleKey(h, code, make))
  {
    hide GoodBoard, BotKnows;
    GoodGrids(h);
    if make && code == KeyEnter && h.tag == PlaceP1 { CommitKeeps(h); }
    else if make && code == KeyEnter { hide CanPlace; }
    else if make { WordsKeep(h, MovePlaceCursor(h.data, code)); }
    else { PauseKeeps(h); }
  }

  lemma KeyPlacesForBot(h: HostState, code: KeyCode, make: bool)
    requires Inv(h) && PlacesForBot(h, code, make)
    ensures CursorSafe(h) && !Inv(HandleKey(h, code, make))
  {
    hide GoodBoard, BotKnows, CanPlace;
    GoodGrids(h);
    assert |PlaceShip(h.p2, Wanted(h.data)).ships| == 1;
  }

  lemma KeyInTurn(h: HostState, code: KeyCode, make: bool)
    requires Inv(h) && h.tag == TurnP1
    ensures CursorSafe(h) && Inv(HandleKey(h, code, make))
  {
    hide GoodBoard, BotKnows;
    GoodGrids(h);
    if !InputBlocked(h) {
      if make && (code == KeyEnter || code == KeySpace) { FireKeeps(h); }
      else if make { WordsKeep(h, MoveTurnCursor(h.data, code)); }
      else { PauseKeeps(h); }
    }
  }

  lemma KeyInMenus(h: HostState, code: KeyCode, make: bool)
    requires Inv(h) && (h.tag == MainMenu || h.tag == Instructions || h.tag == Paused)
    ensures CursorSafe(h) && Inv(HandleKey(h, code, make))
  {
    hide Inv, CursorSafe, MenuChoice, CommitShip, CommitForBot, FireAt, InitialBoard, Transition;
    InputSafe(h);
    if h.tag == MainMenu {
      if make && code == KeyEnter { MenuChoiceKeeps(h, h.data.w0); }
      FirstWordKeeps(h, (h.data.w0 + 3) % 4);
      FirstWordKeeps(h, (h.data.w0 + 1) % 4);
      MenuLeaves(h);
    } else if h.tag == Paused {
      PauseLeaves(h);
      FirstWordKeeps(h, (h.data.w0 + 1) % 2);
    } else {
      InstructionsLeft(h);
    }
  }

  lemma InstructionsLeft(h: HostState)
    requires Inv(h) && h.tag == Instructions
    ensures Inv(Transition(h, MainMenu))
  {
    hide GoodBoard, BotKnows;
  }

  lemma KeyAtEnd(h: HostState, code: KeyCode, make: bool)
    requires Inv(h) && h.tag == GameOver
    ensures CursorSafe(h) && Inv(HandleKey(h, code, make))
  {
    hide GoodBoard, BotKnows, InitialBoard;
    var h' := HandleKey(h, code, make);
    EmptyBoard();
    if make && code == KeyEnter {
      BackToMenu(h, InitialBoard(), h'.data, h'.sent);
    }
  }

  /** Every key keeps the invariant, but for the one that places a ship on the bot's board. */
  lemma KeyKeepsExactly(h: HostState, code: KeyCode, make: bool)
    requires Inv(h)
    ensures CursorSafe(h) && (Inv(HandleKey(h, code, make)) <==> !PlacesForBot(h, code, make))
  {
    if PlacesForBot(h, code, make) { KeyPlacesForBot(h, code, make); } else { KeyKeeps(h, code, make); }
    hide Inv, HandleKey, CanPlace;
  }

  lemma KeyKeeps(h: HostState, code: KeyCode, make: bool)
    requires Inv(h) && !PlacesForBot(h, code, make)
    ensures CursorSafe(h) && Inv(HandleKey(h, code, make))
  {
    InputSafe(h);
    hide Inv, PlacesForBot, HandleKey;
    if h.tag == PlaceP1 || h.tag == PlaceP2 { KeyInPlace(h, code, make); }
    else if h.tag == TurnP1 { KeyInTurn(h, code, make); }
    else if h.tag == GameOver { KeyAtEnd(h, code, make); }
    else if h.tag == MainMenu || h.tag == Instructions || h.tag == Paused { KeyInMenus(h, code, make); }
    else { KeyUnused(h, code, make); }
  }

  lemma KeyUnused(h: HostState, code: KeyCode, make: bool)
    requires CursorSafe(h) && h.tag != PlaceP1 && h.tag != PlaceP2 && h.tag != TurnP1 && h.tag != GameOver
    requires h.tag != MainMenu && h.tag != Instructions && h.tag != Paused
    ensures HandleKey(h, code, make) == h
  {
  }

  /** A packet as the hit-testing delivers it. */
  predicate MouseOk(m: MouseEvent) {
    m.over.Some? ==> InGrid(m.over.value)
  }

  lemma MouseInMenus(h: HostState, m: MouseEvent)
    requires Inv(h) && MouseOk(m) && (h.tag == MainMenu || h.tag == Paused)
    ensures CursorSafe(h) && Inv(HandleMouse(h, m))
  {
    hide Inv, CursorSafe, MenuChoice, CommitShip, FireAt, Transition;
    InputSafe(h);
    var w := if m.moved && m.item.Some? then m.item.value else h.data.w0;
    FirstWordKeeps(h, w);
    var h' := h.(data := h.data.(w0 := w));
    assert h' == if m.moved && m.item.Some? then h.(data := h.data.(w0 := m.item.value)) else h;
    if h.tag == MainMenu {
      if m.item.Some? { MenuChoiceKeeps(h', m.item.value); }
    } else {
      PauseLeaves(h');
    }
  }

  lemma PauseLeaves(h: HostState)
    requires Inv(h) && h.tag == Paused
    ensures Inv(Transition(h, h.prev)) && Inv(h.(over := true))
  {
    ResumeKeeps(h);
    hide GoodBoard, BotKnows;
  }

  lemma MouseInPlace(h: HostState, m: MouseEvent)
    requires Inv(h) && MouseOk(m) && h.tag == PlaceP1
    ensures CursorSafe(h) && Inv(HandleMouse(h, m))
  {
    hide GoodBoard, BotKnows, CommitShip;
    InputSafe(h);
    var d := if m.moved && m.over.Some? then h.data.(w3 := m.over.value.col, w4 := m.over.value.row) else h.data;
    WordsKeep(h, d);
    CommitKeeps(h.(data := d));
  }

  lemma MouseInTurn(h: HostState, m: MouseEvent)
    requires Inv(h) && MouseOk(m) && h.tag == TurnP1
    ensures CursorSafe(h) && Inv(HandleMouse(h, m))
  {
    hide GoodBoard, BotKnows, FireAt;
    InputSafe(h);
    if !InputBlocked(h) {
      var d := if m.moved && m.over.Some? then h.data.(w1 := m.over.value.col, w2 := m.over.value.row) else h.data;
      WordsKeep(h, d);
      FireKeeps(h.(data := d));
    }
  }

  lemma MouseKeeps(h: HostState, m: MouseEvent)
    requires Inv(h) && MouseOk(m)
    ensures CursorSafe(h) && Inv(HandleMouse(h, m))
  {
    hide GoodBoard, BotKnows, MenuChoice, CommitShip, FireAt;
    InputSafe(h);
    if h.tag == MainMenu || h.tag == Paused { MouseInMenus(h, m); }
    else if h.tag == PlaceP1 { MouseInPlace(h, m); }
    else if h.tag == TurnP1 { MouseInTurn(h, m); }
  }

  // ---------------------------------------------------------------------------------------------
  // Messages
  // ---------------------------------------------------------------------------------------------

  /** What a client of the same program sends: placements that fit, in fleet order, while the host waits
      for them; the end of placing after the fifth; and shots at the grid. A shot that the host accepts comes
      in a game against a client, and not while a miss of the client is waited out. */
  ghost predicate MsgOk(h: HostState, m: Msg) {
    && (m.ShipPlace? ==>
          && h.tag == PlaceWaiting && |h.p2.ships| < NUM_SHIPS && FullGrid(h.p2.grid)
          && CanPlace(h.p2, ShipOf(m)) && ShipOf(m).size == SHIP_SIZES[|h.p2.ships|] && ShipOf(m).typeIdx == |h.p2.ships|)
    && (m.DonePlacing? && h.tag == PlaceWaiting ==> |h.p2.ships| == NUM_SHIPS)
    && (m.AttackMsg? && h.tag == TurnP2 ==>
          && InGrid(Cell(m.col, m.row)) && FullGrid(h.p1.grid)
          && (Attacked(h.p1.grid[Cell(m.col, m.row)]) || (!h.single && !h.postWait)))
  }

  lemma ClientShotKeeps(h: HostState, m: Msg)
    requires Inv(h) && MsgOk(h, m) && m.AttackMsg? && h.tag == TurnP2
    ensures Inv(HandleMsg(h, m))
  {
    hide GoodBoard, H.Stalking, Attack;
    var c := Cell(m.col, m.row);
    assert c in h.p1.grid;
    if !Attacked(h.p1.grid[c]) {
      GoodShot(h.p1, c);
      BotAtRest(h.bot, h.p1, Attack(h.p1, c));
      ShotAtP1(h, Attack(h.p1, c), c, h.bot, h.botTimer);
    }
  }

  /** A shot that the host accepts from a client keeps the invariant exactly if no miss is being waited out. */
  lemma ClientShotKeepsExactly(h: HostState, m: Msg)
    requires Inv(h) && m.AttackMsg? && h.tag == TurnP2 && !h.single
    requires var c := Cell(m.col, m.row); InGrid(c) && c in h.p1.grid && !Attacked(h.p1.grid[c])
    ensures Inv(HandleMsg(h, m)) <==> !h.postWait
  {
    GoodGrids(h);
    if !h.postWait { ClientShotKeeps(h, m); }
    hide GoodBoard, BotKnows, Attack;
  }

  lemma ShipMsgKeeps(h: HostState, m: Msg)
    requires Inv(h) && MsgOk(h, m) && m.ShipPlace?
    ensures Inv(HandleMsg(h, m))
  {
    hide GoodBoard, BotKnows, PlaceShip;
    GoodPlace(h.p2, ShipOf(m));
    ShipPlacedByP2(h, PlaceShip(h.p2, ShipOf(m)));
  }

  lemma DonePlacingKeeps(h: HostState)
    requires Inv(h) && MsgOk(h, DonePlacing)
    ensures Inv(HandleMsg(h, DonePlacing))
  {
    hide GoodBoard, BotKnows;
    if h.tag == PlaceWaiting {
      var h' := HandleMsg(h, DonePlacing);
      UnshotBoard(h.p2);
      CountingBegins(h, h.p2, h.botTimer, h'.sent);
    }
  }

  lemma MsgKeeps(h: HostState, m: Msg)
    requires Inv(h) && MsgOk(h, m)
    ensures m.AttackMsg? && h.tag == TurnP2 ==> Cell(m.col, m.row) in h.p1.grid
    ensures Inv(HandleMsg(h, m))
  {
    hide GoodBoard, BotKnows;
    if m.AttackMsg? && h.tag == TurnP2 { ClientShotKeeps(h, m); }
    else if m.ShipPlace? { ShipMsgKeeps(h, m); }
    else if m.DonePlacing? { DonePlacingKeeps(h); }
  }
}
