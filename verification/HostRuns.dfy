/** Whole runs of the host: any sequence of ticks, keys, mouse packets and messages. */
module HostRuns {
  import opened Boards
  import opened BoardLaws
  import opened Protocol
  import opened Explosion
  import opened Host
  import opened HostControl
  import opened HostSteps
  import H = Hunt

  datatype Event =
    | TickEvent(pick: Cell, fleet: seq<Placement>)
    | KeyEvent(code: KeyCode, make: bool)
    | MouseMove(m: MouseEvent)
    | Incoming(msg: Msg)

  /** The events the model admits in a state. */
  ghost predicate Enabled(h: HostState, e: Event) {
    match e
    case TickEvent(pick, fleet) => FairDraws(h, pick, fleet)
    case KeyEvent(code, make) => !PlacesForBot(h, code, make)
    case MouseMove(m) => MouseOk(m)
    case Incoming(msg) => MsgOk(h, msg)
  }

  ghost function Apply(h: HostState, e: Event): HostState
    requires Inv(h) && Enabled(h, e)
  {
    InputSafe(h);
    match e
    case TickEvent(pick, fleet) => Tick(h, pick, fleet)
    case KeyEvent(code, make) => HandleKey(h, code, make)
    case MouseMove(m) => HandleMouse(h, m)
    case Incoming(msg) => MsgKeeps(h, msg); HandleMsg(h, msg)
  }

  lemma ApplyKeeps(h: HostState, e: Event)
    requires Inv(h) && Enabled(h, e)
    ensures Inv(Apply(h, e))
  {
    hide Inv, Tick, HandleKey, HandleMouse, HandleMsg;
    match e
    case TickEvent(pick, fleet) => TickKeeps(h, pick, fleet);
    case KeyEvent(code, make) => KeyKeeps(h, code, make);
    case MouseMove(m) => MouseKeeps(h, m);
    case Incoming(msg) => MsgKeeps(h, msg);
  }

  /** From `game_init` on, each state follows from the one before by an admitted event. Nothing is said
      about what follows a state outside the invariant: that there is none is a theorem. */
  ghost predicate IsRun(run: seq<HostState>, es: seq<Event>) {
    && |run| == |es| + 1
    && Init(run[0])
    && forall k {:trigger es[k]} :: 0 <= k < |es| ==> Steps(run[k], es[k], run[k + 1])
  }

  ghost predicate Steps(h: HostState, e: Event, h': HostState) {
    Inv(h) ==> Enabled(h, e) && h' == Apply(h, e)
  }

  lemma {:induction false} EveryStateSafe(run: seq<HostState>, es: seq<Event>, k: nat)
    requires IsRun(run, es) && k <= |es|
    ensures Inv(run[k])
  {
    hide Inv, Init, Enabled, Apply;
    if k == 0 {
      InitInv(run[0]);
    } else {
      var j := k - 1;
      EveryStateSafe(run, es, j);
      assert Steps(run[j], es[j], run[j + 1]);
      ApplyKeeps(run[j], es[j]);
    }
  }

  lemma StepInRun(run: seq<HostState>, es: seq<Event>, k: nat)
    requires IsRun(run, es) && k < |es|
    ensures Inv(run[k]) && Enabled(run[k], es[k]) && run[k + 1] == Apply(run[k], es[k])
  {
    hide Inv, Init, Enabled, Apply;
    EveryStateSafe(run, es, k);
    assert Steps(run[k], es[k], run[k + 1]);
  }

  /** Whenever the game is over the announced winner has sunk every ship of the opponent and has a ship
      of its own afloat; and a fleet that is sunk while the game goes on was sunk in the running turn,
      by a shot whose explosion is still to be read. */
  lemma WinnerIsRight(run: seq<HostState>, es: seq<Event>, k: nat)
    requires IsRun(run, es) && k <= |es|
    ensures var h := run[k];
            var lost1 := forall c: Cell :: Occupied(FleetOf(h.p1), c) ==> c in ShotsOf(h.p1);
            var lost2 := forall c: Cell :: Occupied(FleetOf(h.p2), c) ==> c in ShotsOf(h.p2);
            && (h.tag == GameOver && h.data.w0 == 1 ==> lost2 && !lost1)
            && (h.tag == GameOver && h.data.w0 == 2 ==> lost1 && !lost2)
            && (h.tag == GameOver ==> h.data.w0 == 1 || h.data.w0 == 2)
            && (Battle(Active(h)) && h.tag != GameOver && lost1 ==> h.tag == TurnP2 && Unresolved(h.expl))
            && (Battle(Active(h)) && h.tag != GameOver && lost2 ==> Active(h) == TurnP1 && Unresolved(h.expl))
  {
    EveryStateSafe(run, es, k);
    var h := run[k];
    if Battle(Active(h)) {
      hide GoodBoard, BotKnows;
      LossIsVisible(h.p1);
      LossIsVisible(h.p2);
    }
  }

  lemma LossIsVisible(b: BoardState)
    requires GoodBoard(b) && |b.ships| == NUM_SHIPS
    ensures AllSunk(b) <==> forall c: Cell :: Occupied(FleetOf(b), c) ==> c in ShotsOf(b)
  {
    AllSunkMeansEveryCellShot(b);
  }

  /** In every reachable state the shot that is shown, waits to be read, or was a miss and is being waited
      out, is a shot in a turn at a cell of the opponent's board that was attacked, and it is shown as the
      hit or miss that the board has recorded. */
  lemma PendingShotIsReal(run: seq<HostState>, es: seq<Event>, k: nat)
    requires IsRun(run, es) && k <= |es|
    ensures var h := run[k];
            Unresolved(h.expl) || h.postWait ==>
              && (Active(h) == TurnP1 || Active(h) == TurnP2)
              && InGrid(h.expl.at) && h.expl.at in ShotsOf(ActiveEnemy(h))
              && (h.expl.isHit <==> Occupied(FleetOf(ActiveEnemy(h)), h.expl.at))
              && !(Unresolved(h.expl) && h.postWait)
  {
    EveryStateSafe(run, es, k);
    var h := run[k];
    if Unresolved(h.expl) || h.postWait {
      hide BotKnows;
      HitMeansOccupied(ActiveEnemy(h), h.expl.at);
    }
  }

  lemma HitMeansOccupied(b: BoardState, c: Cell)
    requires GoodBoard(b) && InGrid(c) && c in b.grid && Attacked(b.grid[c])
    ensures H.ReadsHit(b, c) <==> Occupied(FleetOf(b), c)
  {
    assert b.grid[c] == StateOf(FleetOf(b), ShotsOf(b), c);
  }

  // ---------------------------------------------------------------------------------------------
  // The flow of the game
  // ---------------------------------------------------------------------------------------------

  /** The edges of the game's flow, with what must have happened for the battle's edges. */
  predicate Flow(h: HostState, h': HostState) {
    match h.tag
    case MainMenu => (h'.tag == PlaceP1 && h'.single) || (h'.tag == WaitingConnect && !h'.single) || h'.tag == Instructions
    case Instructions => h'.tag == MainMenu
    case WaitingConnect => h'.tag == PlaceP1
    case PlaceP1 => (h'.tag == PlaceP2 && h.single) || (h'.tag == PlaceWaiting && !h.single) || h'.tag == Paused
    case PlaceP2 => (h'.tag == Counting && h.single) || h'.tag == Paused
    case PlaceWaiting => h'.tag == Counting && !h.single
    case Counting => h'.tag == TurnP1
    case TurnP1 =>
      || (h'.tag == HandoverP2 && LastShotMissed(h))
      || (h'.tag == GameOver && h'.data.w0 == 1 && AllSunk(h.p2))
      || h'.tag == Paused
    case TurnP2 =>
      || (h'.tag == HandoverP1 && LastShotMissed(h))
      || (h'.tag == GameOver && h'.data.w0 == 2 && AllSunk(h.p1))
    case HandoverP1 => h'.tag == TurnP1
    case HandoverP2 => h'.tag == TurnP2
    case GameOver => h'.tag == MainMenu
    case Paused => h'.tag == h.prev
    case Exit => false
  }

  /** The shot that was resolved hit water on the opponent's board. */
  predicate LastShotMissed(h: HostState) {
    h.expl.at in EnemyBoard(h).grid && EnemyBoard(h).grid[h.expl.at] == Miss
  }

  lemma PauseOnlyInTurn(h: HostState)
    requires Control(h)
    ensures h.postWait ==> InTurn(h) && !h.expl.finished && LastShotMissed(h)
  {
  }

  predicate TurnIsOver(h: HostState) {
    h.postWait && AsByte(h.postTicks + 1) >= POST_ATTACK_WAIT_TICKS
  }

  /** The stages behind the reading of a result. */
  lemma LaterStages(h: HostState)
    ensures var r := TickCursor(TickHandover(TickPostAttack(h)));
            && (InTurn(h) ==> r.tag == if !TurnIsOver(h) then h.tag else if h.tag == TurnP1 then HandoverP2 else HandoverP1)
            && (!InTurn(h) && !h.postWait ==> r.tag == h.tag || (h.tag == HandoverP1 && r.tag == TurnP1)
                                              || (h.tag == HandoverP2 && r.tag == TurnP2))
  {
    var p := TickPostAttack(h);
    PauseStage(h);
    hide TickPostAttack, AsByte, IfMulti;
    HandoverStage(p);
  }

  lemma PauseStage(h: HostState)
    ensures var p := TickPostAttack(h);
            && (h.postWait && TurnIsOver(h) ==> p.cdTicks == 0 && p.tag == if h.tag == TurnP1 then HandoverP2 else HandoverP1)
            && (!(h.postWait && TurnIsOver(h)) ==> p.tag == h.tag && p.cdTicks == h.cdTicks)
  {
    hide IfMulti;
  }

  lemma HandoverStage(p: HostState)
    ensures var r := TickCursor(TickHandover(p));
            && (p.tag != HandoverP1 && p.tag != HandoverP2 ==> r.tag == p.tag)
            && (p.cdTicks == 0 ==> r.tag == p.tag)
            && (r.tag == p.tag || (p.tag == HandoverP1 && r.tag == TurnP1) || (p.tag == HandoverP2 && r.tag == TurnP2))
  {
    CursorTag(TickHandover(p));
    hide IfMulti, TickCursor;
  }

  lemma CursorTag(h: HostState)
    ensures TickCursor(h).tag == h.tag
  {
  }

  /** No shot is pending outside the turns, except through a pause. */
  lemma NothingPending(h: HostState)
    requires Control(h) && !InTurn(h)
    ensures var a := TickCountdown(h);
            !CanResolve(a) && !a.postWait && (a.tag == h.tag || (h.tag == Counting && a.tag == TurnP1))
  {
  }

  /** Outside the turns at most one stage of the tick does anything but count. */
  lemma QuietTickFlows(h: HostState)
    requires Control(h) && !InTurn(h)
    ensures var b := BeforeBot(h);
            b.tag == h.tag || (h.tag == Counting && b.tag == TurnP1)
            || (h.tag == HandoverP1 && b.tag == TurnP1) || (h.tag == HandoverP2 && b.tag == TurnP2)
  {
    CountdownKeeps(h);
    ResolveKeeps(TickCountdown(h));
    NothingPending(h);
    LaterStages(TickCountdown(h));
    hide Control, TickCountdown, TickPostAttack, TickHandover, TickCursor;
  }

  /** In a turn, the result is read, or the pause after a miss runs out. */
  lemma TurnTickFlows(h: HostState)
    requires Control(h) && InTurn(h)
    ensures var b := BeforeBot(h);
            || b.tag == h.tag
            || (b.tag == GameOver && AllSunk(EnemyBoard(h)) && b.data.w0 == if h.tag == TurnP1 then 1 else 2)
            || (b.tag == (if h.tag == TurnP1 then HandoverP2 else HandoverP1) && h.postWait)
  {
    CountdownKeeps(h);
    ResolveKeeps(h);
    assert TickCountdown(h) == h;
    hide Control, TickCountdown, TickResolve, TickPostAttack, TickHandover, TickCursor, TurnIsOver;
    var r := TickResolve(h);
    ReadingFlows(h, r);
    LaterStages(r);
  }

  /** What the reading of a result does to the state of the game. */
  lemma ReadingFlows(h: HostState, r: HostState)
    requires InTurn(h) && (CanResolve(h) ==> h.expl.at in EnemyBoard(h).grid) && r == TickResolve(h)
    ensures r.tag == h.tag || (r.tag == GameOver && AllSunk(EnemyBoard(h)) && r.data.w0 == if h.tag == TurnP1 then 1 else 2)
    ensures r.tag == GameOver && h.tag != GameOver ==> !r.postWait
    ensures r.tag == h.tag && TurnIsOver(r) ==> h.postWait
  {
    hide AllSunk, Report;
  }

  lemma BeforeBotFlows(h: HostState)
    requires Control(h)
    ensures BeforeBot(h).tag == h.tag || Flow(h, BeforeBot(h))
    ensures BeforeBot(h).tag == PlaceP2 ==> h.tag == PlaceP2
  {
    hide BeforeBot;
    PauseOnlyInTurn(h);
    if InTurn(h) { TurnTickFlows(h); } else { QuietTickFlows(h); }
  }

  /** The early return of the timer. */
  lemma StagesAre(h: HostState)
    requires Control(h)
    ensures CanResolve(TickCountdown(h)) ==> TickCountdown(h).expl.at in EnemyBoard(TickCountdown(h)).grid
    ensures var r := TickResolve(TickCountdown(h));
            && (EndsNow(h) <==> r.tag == GameOver && TickCountdown(h).tag != GameOver)
            && BeforeBot(h) == if EndsNow(h) then r else TickCursor(TickHandover(TickPostAttack(r)))
  {
    CountdownKeeps(h);
    ResolveKeeps(TickCountdown(h));
    assert TickCountdown(h).tag == GameOver <==> h.tag == GameOver;
    if TickResolve(TickCountdown(h)).tag != GameOver { NotOverLater(TickResolve(TickCountdown(h))); }
    hide Control, TickCountdown, TickResolve, TickPostAttack, TickHandover, TickCursor;
  }

  lemma NotOverLater(h: HostState)
    requires h.tag != GameOver
    ensures TickCursor(TickHandover(TickPostAttack(h))).tag != GameOver
  {
    var p := TickPostAttack(h);
    PauseStage(h);
    hide TickPostAttack, TickHandover, TickCursor;
    HandoverStage(p);
  }

  /** A tick in which the bot has nothing to do. */
  lemma TickWithoutBot(h: HostState, pick: Cell, fleet: seq<Placement>, b: HostState)
    requires Inv(h) && FairDraws(h, pick, fleet) && b == BeforeBot(h)
    requires EndsNow(h) || (!BotReady(b) && b.tag != PlaceP2)
    ensures Tick(h, pick, fleet) == b.(expl := Animate(b.expl))
  {
    BeforeBotKeeps(h);
    BotAims(b, pick, fleet);
    hide GoodBoard, BotKnows, BeforeBot, Control, Animate;
  }

  /** A tick in which the bot fires. */
  lemma FiringTick(h: HostState, pick: Cell, fleet: seq<Placement>)
    requires Inv(h) && FairDraws(h, pick, fleet) && BotFires(BeforeBot(h)) && !EndsNow(h)
    ensures var b := BeforeBot(h);
            && (forall x :: x in b.p1.grid ==> InGrid(x)) && H.Choose(b.bot, b.p1.grid, pick).curr in b.p1.grid
            && Tick(h, pick, fleet) == BotShot(b, pick).(expl := Animate(BotShot(b, pick).expl))
  {
    BeforeBotKeeps(h);
    BotAims(BeforeBot(h), pick, fleet);
    hide Control, GoodBoard, BotKnows, BeforeBot, BotShot, Animate, H.Choose;
  }

  /** The bot's part of a tick ends its placing, and no other state. */
  lemma TagAfterBot(h: HostState, pick: Cell, fleet: seq<Placement>, b: HostState)
    requires Inv(h) && FairDraws(h, pick, fleet) && b == BeforeBot(h)
    ensures var t := Tick(h, pick, fleet);
            t.tag == (if BotPlaces(b) then Counting else b.tag) && t.data == b.data && t.single == b.single
  {
    BeforeBotKeeps(h);
    BotAims(b, pick, fleet);
    hide GoodBoard, BotKnows, BoardOf, BeforeBot, Control;
  }

  lemma TickFlows(h: HostState, pick: Cell, fleet: seq<Placement>)
    requires Inv(h) && FairDraws(h, pick, fleet)
    ensures Tick(h, pick, fleet).tag == h.tag || Flow(h, Tick(h, pick, fleet))
  {
    assert Control(h);
    hide Inv, Tick, BeforeBot, Flow, FairDraws, Control;
    BeforeBotFlows(h);
    TagAfterBot(h, pick, fleet, BeforeBot(h));
    SameArenaBefore(h);
    FlowAfterBot(h, BeforeBot(h), Tick(h, pick, fleet));
  }

  lemma SameArenaBefore(h: HostState)
    requires Inv(h)
    ensures BeforeBot(h).single == h.single
  {
    BeforeBotKeeps(h);
    hide BeforeBot, GoodBoard, BotKnows, Control;
  }

  lemma FlowAfterBot(h: HostState, b: HostState, t: HostState)
    requires b.tag == h.tag || Flow(h, b)
    requires b.tag == PlaceP2 ==> h.tag == PlaceP2
    requires b.single == h.single
    requires t.tag == (if BotPlaces(b) then Counting else b.tag) && t.data == b.data && t.single == b.single
    ensures t.tag == h.tag || Flow(h, t)
  {
    hide AllSunk, LastShotMissed, AsByte;
  }

  /** A turn is handed over only after a shot that hit water on the opponent's board, the game ends
      only when the opponent's fleet is sunk, and no state is entered but along the game's flow. */
  lemma FlowDiscipline(run: seq<HostState>, es: seq<Event>, k: nat)
    requires IsRun(run, es) && k < |es|
    ensures run[k + 1].tag == run[k].tag || Flow(run[k], run[k + 1])
  {
    StepInRun(run, es, k);
    hide IsRun, Inv, Enabled, Apply, Flow;
    EventFlows(run[k], es[k]);
  }

  lemma EventFlows(h: HostState, e: Event)
    requires Inv(h) && Enabled(h, e)
    ensures Apply(h, e).tag == h.tag || Flow(h, Apply(h, e))
  {
    hide GoodBoard, BotKnows, Control, Tick, HandleKey, HandleMouse, HandleMsg, CursorSafe, Flow, PlacesForBot, FairDraws;
    InputSafe(h);
    match e
    case TickEvent(pick, fleet) => TickFlows(h, pick, fleet);
    case KeyEvent(code, make) => KeyFlows(h, code, make);
    case MouseMove(m) => MouseFlows(h, m);
    case Incoming(msg) => MsgKeeps(h, msg); MsgFlows(h, msg);
  }

  lemma KeyFlows(h: HostState, code: KeyCode, make: bool)
    requires CursorSafe(h) && Control(h) && !PlacesForBot(h, code, make)
    ensures HandleKey(h, code, make).tag == h.tag || Flow(h, HandleKey(h, code, make))
  {
    hide Control, MenuChoice, CommitShip, FireAt;
  }

  lemma MouseFlows(h: HostState, m: MouseEvent)
    requires CursorSafe(h) && Control(h) && MouseOk(m)
    ensures HandleMouse(h, m).tag == h.tag || Flow(h, HandleMouse(h, m))
  {
    hide Control, CursorSafe, MenuChoice, CommitShip, FireAt, InputBlocked, AllSunk, LastShotMissed;
    if h.tag == MainMenu { MenuMouseFlows(h, m); }
  }

  lemma MenuMouseFlows(h: HostState, m: MouseEvent)
    requires CursorSafe(h) && MouseOk(m) && h.tag == MainMenu
    ensures HandleMouse(h, m).tag == h.tag || Flow(h, HandleMouse(h, m))
  {
    hide CursorSafe, MenuChoice;
  }

  lemma MsgFlows(h: HostState, m: Msg)
    requires Control(h) && (m.AttackMsg? && h.tag == TurnP2 ==> Cell(m.col, m.row) in h.p1.grid)
    ensures HandleMsg(h, m).tag == h.tag || Flow(h, HandleMsg(h, m))
  {
  }
}
