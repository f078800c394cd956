/** What keys, mouse packets and the client's greetings mean on the host, outside the placing of ships and the shots. */
module HostInput {
  import opened Boards
  import opened Protocol
  import opened Explosion
  import opened Host
  import opened HostControl
  import opened HostSteps
  import opened HostRuns
  import opened HostPause
  import opened HostProgress
  import opened HostShots
  import opened HostMisses
  import opened HostBot
  import opened PlaceInput
  import H = Hunt

  // ---------------------------------------------------------------------------------------------
  // The cursor in player 1's turn
  // ---------------------------------------------------------------------------------------------

  /** The arrow keys move the cursor one cell and keep it on the grid; other keys leave it where it is. */
  predicate CursorSteered(d: Words, r: Words, code: KeyCode) {
    var x := CursorAfter(Cell(d.w1, d.w2), code);
    r == d.(w1 := x.col, w2 := x.row)
  }

  lemma TurnKeysSteer(d: Words, code: KeyCode)
    requires InGrid(Cell(d.w1, d.w2))
    ensures CursorSteered(d, MoveTurnCursor(d, code), code)
  {
  }

  lemma KeysSteerCursor(h: HostState, code: KeyCode)
    requires CursorSafe(h) && h.tag == TurnP1 && !InputBlocked(h) && code != KeyEnter && code != KeySpace
    ensures var r := HandleKey(h, code, true); CursorSteered(h.data, r.data, code) && r == h.(data := r.data)
  {
    TurnKeysSteer(h.data, code);
    hide FireAt, MoveTurnCursor, CursorSteered;
  }

  /** A mouse packet without a click takes the cursor to the cell under the mouse, and does nothing else. */
  lemma MouseSteersCursor(h: HostState, m: MouseEvent)
    requires CursorSafe(h) && MouseOk(m) && h.tag == TurnP1 && !InputBlocked(h) && !m.clicked
    ensures var r, x := HandleMouse(h, m), Aim(h, m); r == h.(data := h.data.(w1 := x.col, w2 := x.row))
  {
    hide FireAt;
  }

  /** The cell that an event in player 1's turn would shoot at. */
  function AimOf(h: HostState, e: Event): Cell {
    if e.MouseMove? then Aim(h, e.m) else Cell(h.data.w1, h.data.w2)
  }

  /** In its turn player 1 shoots exactly with Enter, Space or a click, with nothing shown and no pause running, at the
      cell under the cursor, if that was not shot at; nothing else changes a board. */
  lemma PlayerOneShootsExactly(h: HostState, e: Event)
    requires Inv(h) && Enabled(h, e) && h.tag == TurnP1
    ensures var r := Apply(h, e);
            && r.p1 == h.p1 && (r.p2 != h.p2 <==> Overtakes(h, e))
            && (Overtakes(h, e) ==> Accepted(h, r, AimOf(h, e)) && InGrid(AimOf(h, e)))
  {
    hide Inv, Tick, HandleKey, HandleMouse, HandleMsg, CursorSafe, FairDraws, MsgOk, PlacesForBot, Overtakes, Accepted;
    InputSafe(h);
    match e {
      case TickEvent(pick, fleet) => TickShootsNot(h, pick, fleet); NoTickOvertakes(h, e);
      case KeyEvent(code, make) => KeyInTurnOnly(h, code, make);
      case MouseMove(m) => MouseInTurnOnly(h, m);
      case Incoming(msg) => MsgKeeps(h, msg); MsgInTurnOnly(h, msg); NoTickOvertakes(h, e);
    }
    if Overtakes(h, e) { AcceptedChanges(h, Apply(h, e), AimOf(h, e)); }
  }

  lemma NoTickOvertakes(h: HostState, e: Event)
    requires e.TickEvent? || e.Incoming?
    ensures !Overtakes(h, e)
  {
  }

  lemma TickShootsNot(h: HostState, pick: Cell, fleet: seq<Placement>)
    requires Inv(h) && FairDraws(h, pick, fleet) && h.tag == TurnP1
    ensures SameBoards(h, Tick(h, pick, fleet))
  {
    BeforeBotKeeps(h);
    var b := BeforeBot(h);
    TurnTickFlows(h);
    TickWithoutBot(h, pick, fleet, b);
    hide GoodBoard, BotKnows, BeforeBot, Control, Tick, Animate;
  }

  lemma AcceptedChanges(h: HostState, r: HostState, x: Cell)
    requires Inv(h) && Accepted(h, r, x)
    ensures r.p2 != h.p2 && r.p1 == h.p1 && InGrid(x)
  {
    GoodGrids(h);
    assert InGrid(x) && GoodBoard(h.p2);
    hide Inv, Attack;
    OneShotMore(h.p2, x);
  }

  /** A turn of player 1 begins with the cursor in the corner of the grid. */
  lemma TurnBeginsAtHome(h: HostState, e: Event)
    requires Inv(h) && Enabled(h, e) && Active(h) != TurnP1 && Active(Apply(h, e)) == TurnP1
    ensures Apply(h, e).tag == TurnP1 && Apply(h, e).data.w1 == 0 && Apply(h, e).data.w2 == 0
  {
    hide Inv, Enabled, Apply, Tick, FairDraws;
    if e.TickEvent? {
      TickIs(h, e);
      TickToTurn(h, e.pick, e.fleet);
    } else if h.tag != HandoverP2 {
      InputElsewhere(h, e);
    } else {
      InputIgnored(h, e);
    }
  }

  lemma TickToTurn(h: HostState, pick: Cell, fleet: seq<Placement>)
    requires Inv(h) && FairDraws(h, pick, fleet) && Active(h) != TurnP1 && Active(Tick(h, pick, fleet)) == TurnP1
    ensures var r := Tick(h, pick, fleet); r.tag == TurnP1 && r.data.w1 == 0 && r.data.w2 == 0
  {
    hide GoodBoard, BotKnows, Tick, FairDraws, BeforeBot, Control;
    var b := BeforeBot(h);
    TagAfterBot(h, pick, fleet, b);
    if h.tag == Paused {
      TickInPause(h, pick, fleet);
    } else {
      TickNeverPauses(h, pick, fleet);
      if InTurn(h) { TurnTickFlows(h); } else { QuietTickFlows(h); CursorHome(h); }
    }
  }

  lemma CursorHome(h: HostState)
    requires Control(h) && !InTurn(h) && h.tag != Paused && BeforeBot(h).tag == TurnP1
    ensures BeforeBot(h).data.w1 == 0 && BeforeBot(h).data.w2 == 0
  {
    QuietTickFlows(h);
    assert Ending(h) && !h.postWait;
    hide Control, BeforeBot, TickCountdown, TickPostAttack, TickHandover, TickCursor, Ending;
    ClockActs(h);
    CountdownShape(h);
    HandoverHome(h);
    var a := if h.tag == Counting then TickCountdown(h) else TickHandover(h);
    CursorsShape(a);
  }

  lemma HandoverHome(h: HostState)
    requires h.tag != TurnP1
    ensures TickHandover(h).tag == TurnP1 ==> TickHandover(h).data.w1 == 0 && TickHandover(h).data.w2 == 0
  {
  }

  // ---------------------------------------------------------------------------------------------
  // Menus
  // ---------------------------------------------------------------------------------------------

  /** A new game: nothing on the boards, nothing shown, the bot at rest, the first ship horizontal with the cursor home. */
  ghost predicate FreshGame(r: HostState) {
    && r.p1 == BoardOf([], {}) && r.p2 == BoardOf([], {}) && !Unresolved(r.expl) && r.bot.mode == H.Random
    && r.data.w1 == 0 && r.data.w2 == 0 && r.data.w3 == 0 && r.data.w4 == 0
  }

  /** The items of the main menu: a game alone, a game against a client who is yet to come, the instructions, the end. */
  ghost predicate ItemChosen(h: HostState, r: HostState, item: int) {
    if item == 0 then FreshGame(r) && r.single && r.tag == PlaceP1 && r.over == h.over
    else if item == 1 then
      FreshGame(r) && !r.single && r.tag == WaitingConnect && !r.connected && !r.remoteReady && r.over == h.over
    else if item == 2 then r == h.(tag := Instructions, prev := MainMenu)
    else if item == 3 then r == h.(over := true)
    else r == h
  }

  lemma ItemsDo(h: HostState, item: int)
    requires h.tag == MainMenu
    ensures ItemChosen(h, MenuChoice(h, item), item)
  {
    InitialIsBoardOf();
    hide InitialBoard, BoardOf;
  }

  /** The main menu by keyboard: Up and Down go round the four items, Enter chooses, Escape leaves. */
  lemma MenuByKey(h: HostState, code: KeyCode, make: bool)
    requires CursorSafe(h) && h.tag == MainMenu && 0 <= h.data.w0 < 4
    ensures var r := HandleKey(h, code, make);
            && (make && code == KeyUp ==> r == h.(data := h.data.(w0 := if h.data.w0 == 0 then 3 else h.data.w0 - 1)))
            && (make && code == KeyDown ==> r == h.(data := h.data.(w0 := if h.data.w0 == 3 then 0 else h.data.w0 + 1)))
            && (make && code == KeyEnter ==> ItemChosen(h, r, h.data.w0))
            && (!make && code == KeyEsc ==> r == h.(over := true))
  {
    ItemsDo(h, h.data.w0);
    hide MenuChoice, ItemChosen;
  }

  /** And by mouse: the item under a moving mouse is selected, the one under a click chosen. */
  lemma MenuByMouse(h: HostState, m: MouseEvent)
    requires CursorSafe(h) && MouseOk(m) && h.tag == MainMenu
    ensures var r := HandleMouse(h, m);
            var h' := if m.moved && m.item.Some? then h.(data := h.data.(w0 := m.item.value)) else h;
            if m.clicked && m.item.Some? then ItemChosen(h', r, m.item.value) else r == h'
  {
    var h' := if m.moved && m.item.Some? then h.(data := h.data.(w0 := m.item.value)) else h;
    if m.item.Some? { ItemsDo(h', m.item.value); }
    hide MenuChoice, ItemChosen;
  }

  /** The instructions are left by Enter, Escape or a click. */
  lemma InstructionsAreLeft(h: HostState)
    requires CursorSafe(h) && h.tag == Instructions
    ensures HandleKey(h, KeyEnter, true).tag == HandleKey(h, KeyEsc, false).tag == MainMenu
    ensures forall m: MouseEvent :: MouseOk(m) && m.clicked ==> HandleMouse(h, m).tag == MainMenu
  {
    hide CursorSafe;
  }

  // ---------------------------------------------------------------------------------------------
  // The pause
  // ---------------------------------------------------------------------------------------------

  /** The states in which Escape pauses. */
  predicate Pausable(h: HostState) {
    h.tag == PlaceP1 || h.tag == PlaceP2 || (h.tag == TurnP1 && !InputBlocked(h))
  }

  lemma EscapePauses(h: HostState)
    requires CursorSafe(h) && Pausable(h)
    ensures HandleKey(h, KeyEsc, false) == h.(tag := Paused, prev := h.tag)
  {
    hide CommitShip, CommitForBot, FireAt;
  }

  /** Escape and Escape again, or Escape, the first item and Enter: the game is back where it was. */
  lemma PauseAndResume(h: HostState)
    requires CursorSafe(h) && Pausable(h)
    ensures var p := HandleKey(h, KeyEsc, false);
            && CursorSafe(p) && HandleKey(p, KeyEsc, false) == h.(prev := Paused)
            && (h.data.w0 == 0 ==> HandleKey(p, KeyEnter, true) == h.(prev := Paused))
            && (h.data.w0 == 1 ==> HandleKey(p, KeyEnter, true) == p.(over := true))
            && (h.data.w0 == 1 ==> var q := HandleKey(p, KeyDown, true);
                                   q.tag == Paused && CursorSafe(q) && HandleKey(q, KeyEnter, true).tag == h.tag)
  {
    EscapePauses(h);
    var p := h.(tag := Paused, prev := h.tag);
    hide HandleKey, CursorSafe;
    PauseKeyIs(p, KeyEsc, false);
    PauseKeyIs(p, KeyEnter, true);
    PauseKeyIs(p, KeyDown, true);
    PauseKeyIs(OtherItemOf(p), KeyEnter, true);
  }

  // ---------------------------------------------------------------------------------------------
  // The end
  // ---------------------------------------------------------------------------------------------

  /** After the game Enter leads to the menu with both boards empty, and the client is told. */
  lemma EnterAfterTheGame(h: HostState)
    requires CursorSafe(h) && h.tag == GameOver
    ensures var r := HandleKey(h, KeyEnter, true);
            && r.tag == MainMenu && r.data.w0 == 0 && r.p1 == BoardOf([], {}) && r.p2 == BoardOf([], {}) && !Unresolved(r.expl)
            && r.sent == h.sent + [State(TagByte(MainMenu))]
  {
    InitialIsBoardOf();
    hide InitialBoard, BoardOf, CursorSafe, TagByte;
  }

  /** The ways to leave the program: Escape in the main menu or after the game, the last item of either menu, and the
      client's word that it leaves. */
  predicate Leaves(h: HostState, e: Event) {
    match e
    case KeyEvent(code, make) =>
      || (!make && code == KeyEsc && (h.tag == MainMenu || h.tag == GameOver))
      || (make && code == KeyEnter && ((h.tag == MainMenu && h.data.w0 == 3) || (h.tag == Paused && h.data.w0 == 1)))
    case MouseMove(m) => m.clicked && ((h.tag == MainMenu && m.item == Some(3)) || (h.tag == Paused && m.item == Some(1)))
    case Incoming(msg) => msg == ClientQuit
    case _ => false
  }

  /** The exit flag is raised exactly by these. */
  lemma LeavesExactly(h: HostState, e: Event)
    requires Inv(h) && Enabled(h, e) && !h.over
    ensures Apply(h, e).over <==> Leaves(h, e)
  {
    hide Inv, Tick, HandleKey, HandleMouse, HandleMsg, CursorSafe, FairDraws, MsgOk, PlacesForBot;
    InputSafe(h);
    match e
    case TickEvent(pick, fleet) => TickNeverLeaves(h, pick, fleet);
    case KeyEvent(code, make) => KeyLeaves(h, code, make);
    case MouseMove(m) => MouseLeaves(h, m);
    case Incoming(msg) => MsgKeeps(h, msg); MsgLeaves(h, msg);
  }

  lemma BotKeepsFlagAndLog(b: HostState, pick: Cell, fleet: seq<Placement>)
    requires BotFires(b) ==> (forall x :: x in b.p1.grid ==> InGrid(x)) && H.Choose(b.bot, b.p1.grid, pick).curr in b.p1.grid
    ensures TickBot(b, pick, fleet).over == b.over && TickBot(b, pick, fleet).sent == b.sent
  {
    hide BoardOf, H.Choose, H.Register, Attack, AsByte;
  }

  lemma TickNeverLeaves(h: HostState, pick: Cell, fleet: seq<Placement>)
    requires Inv(h) && FairDraws(h, pick, fleet)
    ensures Tick(h, pick, fleet).over == h.over
  {
    BeforeBotKeeps(h);
    var b := BeforeBot(h);
    BotAims(b, pick, fleet);
    hide Inv, BeforeBot, TickBot, Animate, EndsNow;
    if !EndsNow(h) { BotKeepsFlagAndLog(b, pick, fleet); }
  }

  lemma KeyLeaves(h: HostState, code: KeyCode, make: bool)
    requires CursorSafe(h) && !h.over
    ensures HandleKey(h, code, make).over <==> Leaves(h, KeyEvent(code, make))
  {
    CommitsStay(h);
    ItemsLeave(h, h.data.w0);
    hide MovePlaceCursor, MoveTurnCursor, InputBlocked, InitialBoard, CommitShip, CommitForBot, FireAt, MenuChoice, CursorSafe;
    if h.tag == Paused { PauseKeyLeaves(h, code, make); } else { GameKeyLeaves(h, code, make); }
    hide HandleKey;
  }

  lemma PauseKeyLeaves(h: HostState, code: KeyCode, make: bool)
    requires CursorSafe(h) && h.tag == Paused && !h.over
    ensures HandleKey(h, code, make).over <==> make && code == KeyEnter && h.data.w0 == 1
  {
    PauseKeyIs(h, code, make);
    hide HandleKey, CursorSafe;
  }

  lemma GameKeyLeaves(h: HostState, code: KeyCode, make: bool)
    requires CursorSafe(h) && h.tag != Paused && !h.over
    requires h.tag == PlaceP1 ==> !CommitShip(h).over
    requires h.tag == PlaceP2 ==> !CommitForBot(h).over
    requires h.tag == TurnP1 ==> !FireAt(h, Cell(h.data.w1, h.data.w2)).over
    requires MenuChoice(h, h.data.w0).over == (h.data.w0 == 3)
    ensures HandleKey(h, code, make).over <==>
            || (!make && code == KeyEsc && (h.tag == MainMenu || h.tag == GameOver))
            || (make && code == KeyEnter && h.tag == MainMenu && h.data.w0 == 3)
  {
    hide MovePlaceCursor, MoveTurnCursor, InputBlocked, InitialBoard, CommitShip, CommitForBot, FireAt, MenuChoice;
  }

  lemma MouseLeaves(h: HostState, m: MouseEvent)
    requires CursorSafe(h) && MouseOk(m) && !h.over
    ensures HandleMouse(h, m).over <==> Leaves(h, MouseMove(m))
  {
    hide InputBlocked, CommitShip, FireAt, MenuChoice;
    if h.tag == MainMenu {
      var h' := if m.moved && m.item.Some? then h.(data := h.data.(w0 := m.item.value)) else h;
      if m.item.Some? { ItemsLeave(h', m.item.value); }
    } else if h.tag == PlaceP1 {
      CommitsStay(h.(data := Steered(h.data, m)));
    } else if h.tag == TurnP1 {
      var x := Aim(h, m);
      CommitsStay(h.(data := h.data.(w1 := x.col, w2 := x.row)));
    }
  }

  lemma ItemsLeave(h: HostState, item: int)
    ensures MenuChoice(h, item).over == (h.over || item == 3)
  {
  }

  lemma CommitsStay(h: HostState)
    requires CursorSafe(h)
    ensures h.tag == PlaceP1 ==> CommitShip(h).over == h.over
    ensures h.tag == PlaceP2 ==> CommitForBot(h).over == h.over
    ensures h.tag == TurnP1 ==> FireAt(h, Cell(h.data.w1, h.data.w2)).over == h.over
  {
    hide PlaceShip, CanPlace, Wanted, Attack, StartExplosion;
  }

  lemma MsgLeaves(h: HostState, m: Msg)
    requires MsgOk(h, m) && !h.over
    ensures m.AttackMsg? && h.tag == TurnP2 ==> Cell(m.col, m.row) in h.p1.grid
    ensures HandleMsg(h, m).over <==> m == ClientQuit
  {
    hide PlaceShip, CanPlace, Attack, StartExplosion, FleetMsgs;
  }

  // ---------------------------------------------------------------------------------------------
  // The client's greeting
  // ---------------------------------------------------------------------------------------------

  /** A greeting is answered once; a host that waits for it asks its player to place ships, and tells the client. */
  lemma GreetingIsAnswered(h: HostState)
    ensures var r := HandleMsg(h, Hello);
            if h.connected then r == h
            else if h.tag == WaitingConnect
            then r == h.(connected := true, tag := PlaceP1, prev := h.tag, sent := h.sent + [HelloAck, State(TagByte(PlaceP1))])
            else r == h.(connected := true, remoteReady := true, sent := h.sent + [HelloAck])
  {
  }

  /** When the client has placed its last ship five seconds are counted down, of thirty ticks each, and player 1's turn
      begins; the client is sent the fleet first. */
  lemma EndOfPlacingStartsCountdown(h: HostState)
    requires Inv(h) && MsgOk(h, DonePlacing) && h.tag == PlaceWaiting
    ensures var r := HandleMsg(h, DonePlacing);
            && Running(r, 150, TurnP1) && SameBoards(h, r)
            && h.sent + FleetMsgs(h.p1.ships) <= r.sent
  {
    MsgKeeps(h, DonePlacing);
    var r := HandleMsg(h, DonePlacing);
    assert Control(r);
    hide Inv, GoodBoard, BotKnows, Control, FleetMsgs;
    CountdownBegins(r);
  }

  /** A game alone is silent: nothing is sent in it, but for the answer to a greeting. */
  lemma AloneIsSilent(h: HostState, e: Event)
    requires Inv(h) && Enabled(h, e) && h.single && InGame(Active(h)) && e != Incoming(Hello) && Apply(h, e).tag != MainMenu
    ensures Apply(h, e).sent == h.sent
  {
    assert h.tag != PlaceWaiting;
    hide Inv, Tick, HandleKey, HandleMouse, HandleMsg, CursorSafe, FairDraws, MsgOk, PlacesForBot;
    InputSafe(h);
    match e
    case TickEvent(pick, fleet) => SilentTick(h, pick, fleet);
    case KeyEvent(code, make) => SilentKey(h, code, make);
    case MouseMove(m) => SilentMouse(h, m);
    case Incoming(msg) => MsgKeeps(h, msg); SilentMsg(h, msg);
  }

  lemma SilentStages(h: HostState)
    requires Control(h) && h.single
    ensures BeforeBot(h).sent == h.sent
  {
    StagesAre(h);
    SilentClocks(h);
    SilentPause(TickResolve(TickCountdown(h)));
    hide Control, TickCountdown, TickResolve, TickPostAttack, TickHandover, TickCursor, EndsNow, BeforeBot;
  }

  lemma SilentClocks(h: HostState)
    requires h.single && (CanResolve(TickCountdown(h)) ==> TickCountdown(h).expl.at in EnemyBoard(TickCountdown(h)).grid)
    ensures TickResolve(TickCountdown(h)).sent == h.sent && TickResolve(TickCountdown(h)).single
  {
    var a := TickCountdown(h);
    assert a.sent == h.sent && a.single;
    hide TickCountdown;
    SilentReading(a);
  }

  lemma SilentReading(a: HostState)
    requires a.single && (CanResolve(a) ==> a.expl.at in EnemyBoard(a).grid)
    ensures TickResolve(a).sent == a.sent
  {
    hide AllSunk, Report;
  }

  lemma SilentPause(r: HostState)
    requires r.single
    ensures TickCursor(TickHandover(TickPostAttack(r))).sent == r.sent
  {
    var p := TickPostAttack(r);
    assert p.sent == r.sent;
    var q := TickHandover(p);
    assert q.sent == p.sent && q.single by { hide TickPostAttack; }
    hide TickPostAttack, TickHandover;
  }

  lemma SilentTick(h: HostState, pick: Cell, fleet: seq<Placement>)
    requires Inv(h) && FairDraws(h, pick, fleet) && h.single
    ensures Tick(h, pick, fleet).sent == h.sent
  {
    SilentStages(h);
    BeforeBotKeeps(h);
    var b := BeforeBot(h);
    BotAims(b, pick, fleet);
    hide Inv, BeforeBot, TickBot, Animate, EndsNow;
    if !EndsNow(h) { BotKeepsFlagAndLog(b, pick, fleet); }
  }

  lemma SilentKey(h: HostState, code: KeyCode, make: bool)
    requires CursorSafe(h) && h.single && h.tag != MainMenu && !PlacesForBot(h, code, make)
    requires HandleKey(h, code, make).tag != MainMenu
    ensures HandleKey(h, code, make).sent == h.sent
  {
    CommitsSilently(h);
    hide MovePlaceCursor, MoveTurnCursor, InputBlocked, InitialBoard, CommitShip, CommitForBot, FireAt, MenuChoice, Wanted, PlaceShip, CursorSafe;
    if h.tag == Paused {
      PauseKeyIs(h, code, make);
      hide HandleKey;
    } else if h.tag == PlaceP2 {
      KeyBeforeBot(h, code, make);
      hide HandleKey;
    }
  }

  lemma KeyBeforeBot(h: HostState, code: KeyCode, make: bool)
    requires CursorSafe(h) && h.tag == PlaceP2 && !PlacesForBot(h, code, make)
    ensures HandleKey(h, code, make).sent == h.sent
  {
    hide CommitForBot, MovePlaceCursor, CanPlace;
  }

  lemma CommitsSilently(h: HostState)
    requires CursorSafe(h) && h.single
    ensures h.tag == PlaceP1 ==> CommitShip(h).sent == h.sent
    ensures h.tag == TurnP1 ==> FireAt(h, Cell(h.data.w1, h.data.w2)).sent == h.sent
  {
    hide PlaceShip, CanPlace, Wanted, Attack, StartExplosion;
  }

  lemma SilentMouse(h: HostState, m: MouseEvent)
    requires CursorSafe(h) && MouseOk(m) && h.single && h.tag != MainMenu
    ensures HandleMouse(h, m).sent == h.sent
  {
    hide InputBlocked, CommitShip, FireAt, MenuChoice;
    if h.tag == PlaceP1 {
      CommitsSilently(h.(data := Steered(h.data, m)));
    } else if h.tag == TurnP1 {
      var x := Aim(h, m);
      CommitsSilently(h.(data := h.data.(w1 := x.col, w2 := x.row)));
    }
  }

  lemma SilentMsg(h: HostState, m: Msg)
    requires MsgOk(h, m) && h.single && m != Hello && h.tag != PlaceWaiting
    ensures m.AttackMsg? && h.tag == TurnP2 ==> Cell(m.col, m.row) in h.p1.grid
    ensures HandleMsg(h, m).sent == h.sent
  {
    hide PlaceShip, CanPlace, Attack, StartExplosion, FleetMsgs;
  }
}
