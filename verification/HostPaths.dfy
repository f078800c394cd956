/** Runs of the host from `game_init` to the states in which its code does not do what its rules promise: the
    runs exist, so these states are reached. */
module HostPaths {
  import opened Boards
  import opened Protocol
  import opened Explosion
  import opened Host
  import opened HostControl
  import opened HostSteps
  import opened HostRuns
  import opened HostShots
  import opened HostProgress
  import opened HostMisses
  import HR = HuntRuns
  import H = Hunt
  import R = Rays
  import Session

  // ---------------------------------------------------------------------------------------------
  // Reachable states
  // ---------------------------------------------------------------------------------------------

  ghost predicate RunTo(run: seq<HostState>, es: seq<Event>, h: HostState) {
    IsRun(run, es) && run[|es|] == h
  }

  /** Some run ends in `h`. */
  ghost predicate Reached(h: HostState) {
    exists run, es :: RunTo(run, es, h)
  }

  lemma ReachedIsSafe(h: HostState)
    requires Reached(h)
    ensures Inv(h)
  {
    hide Inv;
    var run, es :| RunTo(run, es, h);
    EveryStateSafe(run, es, |es|);
  }

  lemma RunGrows(run: seq<HostState>, es: seq<Event>, h: HostState, e: Event, h': HostState)
    requires RunTo(run, es, h) && Steps(h, e, h')
    ensures RunTo(run + [h'], es + [e], h')
  {
    hide Steps, Init;
    var run', es' := run + [h'], es + [e];
    forall k {:trigger es'[k]} | 0 <= k < |es'|
      ensures Steps(run'[k], es'[k], run'[k + 1])
    {
      if k < |es| { assert Steps(run[k], es[k], run[k + 1]); }
    }
  }

  /** One event further. */
  lemma StepReached(h: HostState, e: Event)
    requires Reached(h) && Enabled(h, e)
    ensures Inv(h) && Reached(Apply(h, e))
  {
    hide Inv, Enabled, Apply, RunTo;
    ReachedIsSafe(h);
    var run, es :| RunTo(run, es, h);
    RunGrows(run, es, h, e, Apply(h, e));
  }

  ghost function Initial(): HostState {
    HostState(MainMenu, MainMenu, false, false, false, false, InitialBoard(), InitialBoard(), 0, 0, 0, Words(0, 0, 0, 0, 0),
              Cell(-1, -1), false, 0, 0, ResetExplosion(), H.ResetBot(), [])
  }

  lemma InitialReached()
    ensures Init(Initial()) && Reached(Initial())
  {
    var run, es: seq<Event> := [Initial()], [];
    assert RunTo(run, es, Initial());
  }

  /** Draws that a tick may end with. */
  lemma SomeDraw(h: HostState) returns (pick: Cell)
    ensures FairDraws(h, pick, HR.TWINS)
  {
    HR.TwinsAreAFullFleet();
    pick := Cell(0, 0);
    if c: Cell :| R.IsFresh(h.p1.grid, c) { pick := c; }
  }

  // ---------------------------------------------------------------------------------------------
  // Player 1 places the five ships
  // ---------------------------------------------------------------------------------------------

  /** A click with the mouse over `c`. */
  function ClickAt(c: Cell): MouseEvent {
    MouseEvent(true, true, Some(c), None)
  }

  /** Player 1 has placed the first `n` ships of the example fleet. */
  ghost predicate Placed(h: HostState, n: nat, single: bool) {
    && h.tag == PlaceP1 && h.single == single && n < NUM_SHIPS
    && h.p1 == BoardOf(HR.TWINS[..n], {}) && h.data.w1 == n && h.data.w2 == 0
  }

  function TwinAt(n: nat): Cell
    requires n < NUM_SHIPS
  {
    Cell(HR.TWINS[n].col, HR.TWINS[n].row)
  }

  lemma TwinWanted(n: nat, d: Words)
    requires n < NUM_SHIPS && d.w1 == n && d.w2 == 0 && Cell(d.w3, d.w4) == TwinAt(n)
    ensures Wanted(d) == HR.TWINS[n] && InGrid(TwinAt(n))
  {
  }

  lemma NextTwin(h: HostState, n: nat)
    requires Placed(h, n, h.single)
    ensures FullGrid(h.p1.grid) && CanPlace(h.p1, HR.TWINS[n])
    ensures PlaceShip(h.p1, HR.TWINS[n]) == BoardOf(HR.TWINS[..n + 1], {}) && |BoardOf(HR.TWINS[..n + 1], {}).ships| == n + 1
  {
    HR.TwinsAreAFullFleet();
    Session.NextShip(HR.TWINS, n);
  }

  /** One click more. */
  lemma PlaceTwin(h: HostState, n: nat)
    requires CursorSafe(h) && Placed(h, n, h.single)
    ensures MouseOk(ClickAt(TwinAt(n)))
    ensures var r := HandleMouse(h, ClickAt(TwinAt(n)));
            && r.single == h.single && r.p2 == h.p2
            && if n + 1 < NUM_SHIPS then Placed(r, n + 1, h.single) && r.sent == h.sent
               else AllPlaced(h, r)
  {
    hide BoardOf, CommitShip, MenuChoice, FireAt;
    var c := TwinAt(n);
    var d := h.data.(w3 := c.col, w4 := c.row);
    TwinWanted(n, d);
    assert Placed(h.(data := d), n, h.single);
    CommitTwin(h.(data := d), n);
  }

  lemma CommitTwin(h: HostState, n: nat)
    requires Placed(h, n, h.single) && Wanted(h.data) == HR.TWINS[n]
    ensures FullGrid(h.p1.grid)
    ensures var r := CommitShip(h);
            && r.single == h.single && r.p2 == h.p2
            && if n + 1 < NUM_SHIPS then Placed(r, n + 1, h.single) && r.sent == h.sent
               else AllPlaced(h, r)
  {
    hide BoardOf, CanPlace, PlaceShip;
    NextTwin(h, n);
    assert n + 1 == NUM_SHIPS ==> HR.TWINS[..n + 1] == HR.TWINS;
  }

  ghost predicate AllPlaced(h: HostState, r: HostState) {
    && r.p1 == BoardOf(HR.TWINS, {}) && r.data == Words(h.data.w0, 0, 0, 0, 0)
    && if h.single then r.tag == PlaceP2 && r.botTimer == 0 && r.sent == h.sent
       else r.tag == PlaceWaiting && r.sent == h.sent + [State(TagByte(PlaceP2))]
  }

  /** A single-player game up to the bot's placing. */
  lemma BotIsToPlace() returns (h: HostState)
    ensures Reached(h) && h.tag == PlaceP2 && h.single && h.botTimer == 0 && h.p1 == BoardOf(HR.TWINS, {})
    ensures exists w :: h.data == Words(w, 0, 0, 0, 0)
  {
    h := SingleGame();
    hide Reached, BoardOf, Placed;
    h := TwinsPlaced(h, 0);
  }

  lemma SingleGame() returns (h: HostState)
    ensures Reached(h) && Placed(h, 0, true)
  {
    hide Reached, BoardOf, Init, Inv, Initial, Apply, Enabled;
    InitialReached();
    var e := KeyEvent(KeyEnter, true);
    FirstKey(Initial());
    StepReached(Initial(), e);
    h := Apply(Initial(), e);
  }

  /** Enter on the first item of the menu. */
  lemma FirstKey(h: HostState)
    requires h == Initial()
    ensures Init(h) && Inv(h) && Enabled(h, KeyEvent(KeyEnter, true)) && Placed(Apply(h, KeyEvent(KeyEnter, true)), 0, true)
  {
    InitInv(h);
    hide Inv, BoardOf;
    InitialIsBoardOf();
    assert HR.TWINS[..0] == [];
    assert HandleKey(h, KeyEnter, true) == NewGame(h, true);
    hide HandleKey;
  }

  lemma TwinsPlaced(h0: HostState, n: nat) returns (h: HostState)
    requires Reached(h0) && Placed(h0, n, true)
    ensures Reached(h) && h.tag == PlaceP2 && h.single && h.botTimer == 0 && h.p1 == BoardOf(HR.TWINS, {})
    ensures exists w :: h.data == Words(w, 0, 0, 0, 0)
    decreases NUM_SHIPS - n
  {
    hide Reached, BoardOf, HandleMouse;
    var e := MouseMove(ClickAt(TwinAt(n)));
    ReachedIsSafe(h0);
    InputSafe(h0);
    PlaceTwin(h0, n);
    StepReached(h0, e);
    h := Apply(h0, e);
    if n + 1 < NUM_SHIPS { h := TwinsPlaced(h, n + 1); } else { assert h.data == Words(h0.data.w0, 0, 0, 0, 0); }
  }

  // ---------------------------------------------------------------------------------------------
  // The bot waits two seconds before it places its ships
  // ---------------------------------------------------------------------------------------------

  lemma NothingOnTheClock(h: HostState)
    requires Control(h) && h.tag == PlaceP2
    ensures BeforeBot(h) == TickCursor(h) && !EndsNow(h) && Animate(h.expl) == h.expl
  {
    CountdownKeeps(h);
    ResolveKeeps(TickCountdown(h));
    assert TickCountdown(h) == h && TickResolve(h) == h && TickPostAttack(h) == h && TickHandover(h) == h;
    hide Control, TickCountdown, TickResolve, TickPostAttack, TickHandover, TickCursor, Animate;
  }

  lemma BotWaits(h: HostState, pick: Cell)
    requires Inv(h) && FairDraws(h, pick, HR.TWINS) && h.tag == PlaceP2
    ensures h.single
    ensures var r := Tick(h, pick, HR.TWINS);
            && r.single && r.p1 == h.p1
            && if h.botTimer + 1 < 2 * TICKS_PER_SEC
               then r.tag == PlaceP2 && r.botTimer == h.botTimer + 1 && r.data == h.data
               else r.tag == Counting && r.p2 == BoardOf(HR.TWINS, {}) && r.cdSeconds == COUNTDOWN_START && r.cdTicks == 0
  {
    hide GoodBoard, BotKnows, BeforeBot, EndsNow, BoardOf, Animate, TickBot, TickCursor;
    BeforeBotKeeps(h);
    BotAims(BeforeBot(h), pick, HR.TWINS);
    NothingOnTheClock(h);
    assert h.single && h.botTimer < 2 * TICKS_PER_SEC;
    BotsPart(h, TickCursor(h), pick);
    hide Control;
  }

  lemma BotsPart(h: HostState, b: HostState, pick: Cell)
    requires h.tag == PlaceP2 && h.single && h.botTimer < 2 * TICKS_PER_SEC && b == TickCursor(h)
    ensures var r := TickBot(b, pick, HR.TWINS);
            && r.single && r.p1 == h.p1 && r.expl == h.expl
            && if h.botTimer + 1 < 2 * TICKS_PER_SEC
               then r.tag == PlaceP2 && r.botTimer == h.botTimer + 1 && r.data == h.data
               else r.tag == Counting && r.p2 == BoardOf(HR.TWINS, {}) && r.cdSeconds == COUNTDOWN_START && r.cdTicks == 0
  {
    hide BoardOf;
    assert AsByte(b.botTimer + 1) == h.botTimer + 1;
    SameForBot(h, b);
    hide TickCursor, AsByte;
  }

  lemma SameForBot(h: HostState, b: HostState)
    requires b == TickCursor(h) && h.tag != TurnP1
    ensures b.tag == h.tag && b.single == h.single && b.p1 == h.p1 && b.expl == h.expl && b.botTimer == h.botTimer && b.data == h.data
  {
  }

  /** The state after `n` of these ticks. */
  lemma BotWaitsFor(n: nat) returns (h: HostState)
    requires n < 2 * TICKS_PER_SEC
    ensures Reached(h) && h.tag == PlaceP2 && h.single && h.botTimer == n && h.p1 == BoardOf(HR.TWINS, {})
    ensures exists w :: h.data == Words(w, 0, 0, 0, 0)
  {
    hide Reached, BoardOf, Tick, FairDraws, Inv;
    if n == 0 {
      h := BotIsToPlace();
    } else {
      var h0 := BotWaitsFor(n - 1);
      var pick := SomeDraw(h0);
      ReachedIsSafe(h0);
      BotWaits(h0, pick);
      StepReached(h0, TickEvent(pick, HR.TWINS));
      h := Tick(h0, pick, HR.TWINS);
    }
  }

  lemma BotsBoardIsEmpty(h: HostState)
    requires Inv(h) && h.tag == PlaceP2
    ensures h.p2 == InitialBoard()
  {
    UnshotBoard(h.p2);
    InitialIsBoardOf();
    assert FleetOf(h.p2) == [];
  }

  /** The ships `ps` placed one after the other. */
  function PlaceAll(b: BoardState, ps: seq<Placement>): BoardState {
    if ps == [] then b else PlaceShip(PlaceAll(b, ps[..|ps| - 1]), ps[|ps| - 1])
  }

  lemma {:induction false} EveryPlacementCounts(b: BoardState, ps: seq<Placement>)
    ensures |PlaceAll(b, ps).ships| == |b.ships| + |ps|
  {
    if ps != [] { EveryPlacementCounts(b, ps[..|ps| - 1]); }
  }

  /** Enter places a ship on the bot's board in a state that is reached from `game_init`; in the very next tick
      the bot places its own five ships on the same board, and whichever the first four are, the table of ships
      is full when the fifth is written. */
  lemma KeyOverrunsTheBotsTable() returns (run: seq<HostState>, es: seq<Event>)
    ensures IsRun(run, es) && PlacesForBot(run[|es|], KeyEnter, true) && CursorSafe(run[|es|])
    ensures var r := HandleKey(run[|es|], KeyEnter, true);
            && OnlyTheBotActs(r) && BotPlaces(TickCursor(r))
            && forall ps: seq<Placement> :: |ps| == NUM_SHIPS - 1 ==> |PlaceAll(r.p2, ps).ships| == NUM_SHIPS
  {
    var h := BotWaitsFor(2 * TICKS_PER_SEC - 1);
    ReachedIsSafe(h);
    run, es :| RunTo(run, es, h);
    hide IsRun, BoardOf, PlacesForBot, Inv, HandleKey, PlaceAll, BotPlaces, TickCursor, OnlyTheBotActs;
    InputSafe(h);
    FitsTheBotsBoard(h);
    var r := HandleKey(h, KeyEnter, true);
    AfterTheKey(h);
    BotsTurnToPlace(r);
    forall ps: seq<Placement> | |ps| == NUM_SHIPS - 1
      ensures |PlaceAll(r.p2, ps).ships| == NUM_SHIPS
    {
      EveryPlacementCounts(r.p2, ps);
    }
  }

  lemma FitsTheBotsBoard(h: HostState)
    requires Inv(h) && h.tag == PlaceP2 && exists w :: h.data == Words(w, 0, 0, 0, 0)
    ensures PlacesForBot(h, KeyEnter, true)
  {
    BotsBoardIsEmpty(h);
    hide Inv;
    assert Wanted(h.data) == Placement(0, 0, 5, 0, Horizontal);
  }

  lemma AfterTheKey(h: HostState)
    requires Inv(h) && PlacesForBot(h, KeyEnter, true)
    ensures CursorSafe(h)
    ensures var r := HandleKey(h, KeyEnter, true);
            r.tag == PlaceP2 && r.single && r.botTimer == h.botTimer && !r.postWait && |r.p2.ships| == 1
  {
    InputSafe(h);
    assert h.single && !h.postWait && |h.p2.ships| == 0;
    hide Inv, CanPlace, CursorSafe, PlaceShip, HandleKey;
    OneShip(h.p2, Wanted(h.data));
    KeyForBot(h);
  }

  lemma OneShip(b: BoardState, p: Placement)
    ensures |PlaceShip(b, p).ships| == |b.ships| + 1
  {
  }

  lemma KeyForBot(h: HostState)
    requires CursorSafe(h) && h.tag == PlaceP2 && CanPlace(h.p2, Wanted(h.data)) && |PlaceShip(h.p2, Wanted(h.data)).ships| == 1
    ensures var r := HandleKey(h, KeyEnter, true);
            && r.tag == PlaceP2 && r.single == h.single && r.botTimer == h.botTimer && r.postWait == h.postWait
            && |r.p2.ships| == 1
  {
    hide CanPlace, PlaceShip, MovePlaceCursor;
  }

  /** The stages before the bot's do nothing. */
  predicate OnlyTheBotActs(r: HostState) {
    && !CanResolve(TickCountdown(r))
    && TickCountdown(r) == r && TickPostAttack(r) == r && TickHandover(r) == r
  }

  lemma BotsTurnToPlace(r: HostState)
    requires r.tag == PlaceP2 && r.single && r.botTimer == 2 * TICKS_PER_SEC - 1 && !r.postWait
    ensures OnlyTheBotActs(r) && BotPlaces(TickCursor(r))
  {
  }

  // ---------------------------------------------------------------------------------------------
  // The countdown
  // ---------------------------------------------------------------------------------------------

  lemma CountdownTick(h: HostState, pick: Cell, fleet: seq<Placement>, n: int)
    requires Inv(h) && FairDraws(h, pick, fleet) && h.tag == Counting && Running(h, n, TurnP1)
    ensures var r := Tick(h, pick, fleet);
            && SameArena(h, r) && !r.postWait && !Unresolved(r.expl)
            && if n == 1 then r.tag == TurnP1 else r.tag == Counting && Running(r, n - 1, TurnP1)
  {
    var b, r := BeforeBot(h), Tick(h, pick, fleet);
    BeforeBotKeeps(h);
    TickKeeps(h, pick, fleet);
    TickApproaches(h, pick, fleet);
    TurnBeginsQuietly(h);
    QuietTickFlows(h);
    TickWithoutBot(h, pick, fleet, b);
    AnimatePaced(b.expl);
    hide GoodBoard, BotKnows, Tick, BeforeBot, Animate, Paced, TicksLeft, EndsNow;
    assert Control(r);
    hide Control;
  }

  /** Both fleets are the example fleet, and player 1's first turn begins. */
  ghost predicate FirstTurn(h: HostState) {
    && h.tag == TurnP1 && !InputBlocked(h) && h.p1 == BoardOf(HR.TWINS, {}) && h.p2 == BoardOf(HR.TWINS, {})
  }

  ghost predicate CountsDown(h: HostState, n: int) {
    && h.tag == Counting && Running(h, n, TurnP1) && n >= 1
    && h.p1 == BoardOf(HR.TWINS, {}) && h.p2 == BoardOf(HR.TWINS, {})
  }

  lemma CountdownStarts() returns (h: HostState)
    ensures Reached(h) && h.single && CountsDown(h, 150)
  {
    hide Reached, Tick, BoardOf, FairDraws, Inv, Running;
    var h0 := BotWaitsFor(2 * TICKS_PER_SEC - 1);
    var pick := SomeDraw(h0);
    ReachedIsSafe(h0);
    BotWaits(h0, pick);
    StepReached(h0, TickEvent(pick, HR.TWINS));
    h := Tick(h0, pick, HR.TWINS);
    ReachedIsSafe(h);
    CountsFrom(h);
  }

  lemma CountsFrom(h: HostState)
    requires Inv(h) && h.tag == Counting && h.cdSeconds == COUNTDOWN_START && h.cdTicks == 0
    ensures Running(h, 150, TurnP1)
  {
    hide GoodBoard, BotKnows;
  }

  lemma CountedDown(h0: HostState, n: int) returns (h: HostState)
    requires Reached(h0) && h0.single && CountsDown(h0, n)
    ensures Reached(h) && h.single && FirstTurn(h)
    decreases n
  {
    hide Reached, BoardOf, Tick, FairDraws, Inv, Running;
    var pick := SomeDraw(h0);
    ReachedIsSafe(h0);
    CountdownTick(h0, pick, HR.TWINS, n);
    StepReached(h0, TickEvent(pick, HR.TWINS));
    h := Tick(h0, pick, HR.TWINS);
    if n > 1 { h := CountedDown(h, n - 1); }
  }

  // ---------------------------------------------------------------------------------------------
  // A miss is overtaken
  // ---------------------------------------------------------------------------------------------

  const WATER := Cell(9, 9)
  const WATER_TOO := Cell(9, 8)

  /** The example fleet leaves the last column free. */
  lemma WaterIsFree()
    ensures !Occupied(HR.TWINS, WATER) && !Occupied(HR.TWINS, WATER_TOO)
  {
  }

  lemma FreshBoard()
    ensures var b := BoardOf(HR.TWINS, {});
            GoodBoard(b) && !AllSunk(b) && ShotsOf(b) == {} && InGrid(WATER) && WATER in b.grid && b.grid[WATER] == Empty
  {
    HR.TwinsAreAFullFleet();
    FreshFleet(HR.TWINS);
    WaterIsFree();
  }

  /** After a shot at one cell of the last column the other is fresh. */
  lemma OtherWater(b: BoardState)
    requires GoodBoard(b) && ShotsOf(b) == {WATER}
    ensures R.IsFresh(b.grid, WATER_TOO)
  {
    assert InGrid(WATER_TOO) && WATER_TOO !in ShotsOf(b);
  }

  lemma FirstShot(h: HostState)
    requires Inv(h) && FirstTurn(h)
    ensures MouseOk(ClickAt(WATER))
    ensures var r := Apply(h, MouseMove(ClickAt(WATER)));
            && OnItsWay(r, 145, WATER) && r.tag == TurnP1 && !r.postWait && r.single == h.single
            && r.p2 == Attack(h.p2, WATER) && ShotsOf(r.p2) == {WATER} && r.p1 == h.p1
  {
    var e := MouseMove(ClickAt(WATER));
    InputSafe(h);
    FreshBoard();
    hide Inv, HandleMouse, BoardOf, Accepted, GoodBoard, Attack;
    assert Aim(h, ClickAt(WATER)) == WATER && Overtakes(h, e);
    MouseInTurnOnly(h, ClickAt(WATER));
    WaterShotOnItsWay(h, HandleMouse(h, ClickAt(WATER)), WATER);
    GoodShot(h.p2, WATER);
    AcceptedShot(h, HandleMouse(h, ClickAt(WATER)), WATER);
    SameMode(h, ClickAt(WATER));
  }

  lemma AcceptedShot(h: HostState, r: HostState, x: Cell)
    requires Accepted(h, r, x)
    ensures r.tag == TurnP1 && !r.postWait && r.p2 == Attack(h.p2, x) && r.p1 == h.p1
  {
    hide Attack;
  }

  lemma SameMode(h: HostState, m: MouseEvent)
    requires CursorSafe(h) && MouseOk(m) && h.tag == TurnP1
    ensures HandleMouse(h, m).single == h.single && HandleMouse(h, m).sent == h.sent
  {
    hide Attack;
  }

  /** A tick while the miss is shown. */
  lemma ShownOn(h: HostState, pick: Cell, n: int)
    requires Inv(h) && FairDraws(h, pick, HR.TWINS) && h.tag == TurnP1 && OnItsWay(h, n, WATER) && n > POST_ATTACK_WAIT_TICKS
    ensures var r := Tick(h, pick, HR.TWINS);
            OnItsWay(r, n - 1, WATER) && r.tag == TurnP1 && !r.postWait && SameBoards(h, r)
  {
    hide Inv, FairDraws, Tick, OnItsWay;
    MissTick(h, pick, HR.TWINS, n, WATER);
  }

  lemma MissShownUntil(h0: HostState, n: int) returns (h: HostState)
    requires Reached(h0) && h0.tag == TurnP1 && OnItsWay(h0, n, WATER) && !h0.postWait && n >= POST_ATTACK_WAIT_TICKS
    requires ShotsOf(h0.p2) == {WATER}
    ensures Reached(h) && h.tag == TurnP1 && OnItsWay(h, POST_ATTACK_WAIT_TICKS, WATER) && !h.postWait
    ensures ShotsOf(h.p2) == {WATER}
    decreases n
  {
    hide Reached, Tick, FairDraws, Inv, OnItsWay, ShotsOf;
    h := h0;
    if n > POST_ATTACK_WAIT_TICKS {
      var pick := SomeDraw(h0);
      ReachedIsSafe(h0);
      ShownOn(h0, pick, n);
      StepReached(h0, TickEvent(pick, HR.TWINS));
      h := MissShownUntil(Tick(h0, pick, HR.TWINS), n - 1);
    }
  }

  /** The result of a miss is to be read in the next tick, and another cell is fresh. */
  lemma ReadyToOvertake() returns (h: HostState)
    ensures Reached(h) && OnItsWay(h, POST_ATTACK_WAIT_TICKS, WATER) && Overtakes(h, MouseMove(ClickAt(WATER_TOO)))
  {
    hide Reached, Tick, FairDraws, Apply, CountsDown, FirstTurn;
    h := CountdownStarts();
    h := CountedDown(h, 150);
    ReachedIsSafe(h);
    FirstShot(h);
    StepReached(h, MouseMove(ClickAt(WATER)));
    h := MissShownUntil(Apply(h, MouseMove(ClickAt(WATER))), 145);
    ReachedIsSafe(h);
    ReadNext(h);
  }

  lemma ReadNext(h: HostState)
    requires Inv(h) && h.tag == TurnP1 && OnItsWay(h, POST_ATTACK_WAIT_TICKS, WATER) && !h.postWait && ShotsOf(h.p2) == {WATER}
    ensures Overtakes(h, MouseMove(ClickAt(WATER_TOO)))
  {
    OtherWater(h.p2);
    hide Inv, ShotsOf;
  }

  /** A run from `game_init` in which a miss of player 1 is overtaken: the shot at the water is never read, and
      in 100 ticks at the least the turn is not handed over. */
  lemma AMissIsOvertaken() returns (run: seq<HostState>, es: seq<Event>, k: nat)
    ensures IsRun(run, es) && k + 1 == |es|
    ensures MissStands(run[k], WATER) && Overtakes(run[k], es[k])
    ensures run[k + 1].tag == TurnP1 && !MissStands(run[k + 1], WATER) && NotSoon(run[k + 1], SHORTEST)
  {
    var h := ReadyToOvertake();
    var e := MouseMove(ClickAt(WATER_TOO));
    ReachedIsSafe(h);
    hide Inv, Apply, Accepted, Overtakes, NotSoon;
    var x := OvertakingStep(h, e, POST_ATTACK_WAIT_TICKS, WATER);
    var r := Apply(h, e);
    NewShotNotSoon(h, r, x);
    TakesItsPlace(h, r, x);
    run, es :| RunTo(run, es, h);
    k := |es|;
    RunGrows(run, es, h, e, r);
    run, es := run + [r], es + [e];
    hide IsRun;
  }
}
