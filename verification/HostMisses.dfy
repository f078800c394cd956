/** When a miss of player 1 ends the turn: after an exact number of ticks, unless a further shot is accepted
    before its result is read. */
module HostMisses {
  import opened Boards
  import opened Protocol
  import opened Explosion
  import opened Host
  import opened HostControl
  import opened HostSteps
  import opened HostRuns
  import opened HostPause
  import opened HostShots
  import opened HostProgress
  import H = Hunt
  import R = Rays

  /** Player 1's shot at `c` hit water, and the turn has not ended yet because of it. */
  predicate MissStands(h: HostState, c: Cell) {
    && Active(h) == TurnP1 && h.expl.at == c && !h.expl.isHit && !AllSunk(h.p2)
    && (Unresolved(h.expl) || h.postWait)
  }

  /** The cell under the cursor, after it has followed the mouse. */
  function Aim(h: HostState, m: MouseEvent): Cell {
    if m.moved && m.over.Some? then m.over.value else Cell(h.data.w1, h.data.w2)
  }

  /** In player 1's turn, with nothing shown and no pause running: Enter or Space with the cursor at a cell that
      was not attacked, or a click at one. */
  predicate Overtakes(h: HostState, e: Event) {
    && h.tag == TurnP1 && !InputBlocked(h)
    && match e
       case KeyEvent(code, make) =>
         make && (code == KeyEnter || code == KeySpace) && R.IsFresh(h.p2.grid, Cell(h.data.w1, h.data.w2))
       case MouseMove(m) => m.clicked && R.IsFresh(h.p2.grid, Aim(h, m))
       case _ => false
  }

  // ---------------------------------------------------------------------------------------------
  // One event
  // ---------------------------------------------------------------------------------------------

  /** The turn and what is shown in it are as before. */
  predicate TurnUntouched(h: HostState, r: HostState) {
    Active(r) == Active(h) && SameBoards(h, r) && r.expl == h.expl && r.postWait == h.postWait && r.postTicks == h.postTicks
  }

  /** A shot of player 1 at the fresh cell `x` is accepted. */
  predicate Accepted(h: HostState, r: HostState, x: Cell) {
    && h.tag == TurnP1 && !InputBlocked(h) && R.IsFresh(h.p2.grid, x)
    && r.tag == TurnP1 && r.p1 == h.p1 && r.p2 == Attack(h.p2, x) && !r.postWait
    && r.expl == StartExplosion(h.expl, x, H.ReadsHit(r.p2, x))
  }

  lemma KeyInTurnOnly(h: HostState, code: KeyCode, make: bool)
    requires CursorSafe(h) && h.tag == TurnP1
    ensures var r := HandleKey(h, code, make);
            if Overtakes(h, KeyEvent(code, make)) then Accepted(h, r, Cell(h.data.w1, h.data.w2)) else TurnUntouched(h, r)
  {
    hide Attack, StartExplosion, MoveTurnCursor;
  }

  lemma ClickInTurn(h: HostState, x: Cell)
    requires h.tag == TurnP1 && !InputBlocked(h) && x in h.p2.grid
    ensures if R.IsFresh(h.p2.grid, x) then Accepted(h, FireAt(h, x), x) else FireAt(h, x) == h
  {
    hide Attack, StartExplosion;
  }

  lemma CursorDoesNotMatter(h: HostState, d: Words, r: HostState, x: Cell)
    ensures Accepted(h.(data := d), r, x) ==> Accepted(h, r, x)
  {
    hide Attack, StartExplosion;
  }

  lemma MouseInTurnOnly(h: HostState, m: MouseEvent)
    requires CursorSafe(h) && MouseOk(m) && h.tag == TurnP1
    ensures var r := HandleMouse(h, m);
            if Overtakes(h, MouseMove(m)) then Accepted(h, r, Aim(h, m)) else TurnUntouched(h, r)
  {
    hide FireAt, Accepted;
    if !InputBlocked(h) {
      var x := Aim(h, m);
      var d := if m.moved && m.over.Some? then h.data.(w1 := x.col, w2 := x.row) else h.data;
      assert x == Cell(d.w1, d.w2);
      ClickInTurn(h.(data := d), x);
      CursorDoesNotMatter(h, d, FireAt(h.(data := d), x), x);
    }
  }

  lemma EventInPause(h: HostState, r: HostState)
    requires h.tag == Paused && h.prev != Paused && SameGame(h, r)
    requires (r.tag == Paused && r.prev == h.prev) || (r.tag == h.prev && r.prev == Paused)
    ensures TurnUntouched(h, r)
  {
  }

  lemma MsgInTurnOnly(h: HostState, m: Msg)
    requires MsgOk(h, m) && h.tag == TurnP1
    ensures TurnUntouched(h, HandleMsg(h, m))
  {
  }

  /** Input and messages in player 1's turn, or in a pause of it. */
  lemma InputInTurn(h: HostState, e: Event) returns (x: Cell)
    requires Inv(h) && Enabled(h, e) && !e.TickEvent? && Active(h) == TurnP1
    ensures var r := Apply(h, e); if Overtakes(h, e) then Accepted(h, r, x) else TurnUntouched(h, r)
  {
    hide Inv, Tick, HandleKey, HandleMouse, HandleMsg, CursorSafe, TurnUntouched, Accepted, SameGame;
    InputSafe(h);
    x := Cell(h.data.w1, h.data.w2);
    if h.tag == Paused {
      StepInPause(h, e);
      PausedOnce(h);
      EventInPause(h, Apply(h, e));
    } else {
      match e
      case KeyEvent(code, make) => KeyInTurnOnly(h, code, make);
      case MouseMove(m) => x := Aim(h, m); MouseInTurnOnly(h, m);
      case Incoming(msg) => MsgKeeps(h, msg); MsgInTurnOnly(h, msg);
    }
  }

  // ---------------------------------------------------------------------------------------------
  // A tick
  // ---------------------------------------------------------------------------------------------

  /** The ticks until the turn is handed over, those in a pause not counted. */
  function MissLeft(h: HostState): int
    requires Paced(h.expl)
  {
    if h.postWait then POST_ATTACK_WAIT_TICKS - h.postTicks else TicksLeft(h.expl) + POST_ATTACK_WAIT_TICKS
  }

  /** The miss at `c` stands, with `n` ticks to go. */
  predicate OnItsWay(h: HostState, n: int, c: Cell) {
    Paced(h.expl) && MissStands(h, c) && MissLeft(h) == n
  }

  /** A tick that is not in a pause. */
  predicate Live(h: HostState, e: Event) {
    e.TickEvent? && h.tag != Paused
  }

  function LiveCount(h: HostState, e: Event): nat {
    if Live(h, e) then 1 else 0
  }

  /** One tick nearer to the handover, or there. */
  predicate MissNearer(h: HostState, t: HostState, n: int, c: Cell) {
    if n == 1 then t.tag == HandoverP2
    else OnItsWay(t, n - 1, c) && t.tag == TurnP1 && (n > POST_ATTACK_WAIT_TICKS ==> !t.postWait)
  }

  lemma WaitedOut(h: HostState, c: Cell)
    requires h.tag == TurnP1 && h.postWait && h.postTicks < POST_ATTACK_WAIT_TICKS
    ensures var b := TickCursor(TickHandover(TickPostAttack(h)));
            && b.expl == h.expl && b.p2 == h.p2
            && if h.postTicks + 1 == POST_ATTACK_WAIT_TICKS then b.tag == HandoverP2 && !b.postWait
               else b.tag == TurnP1 && b.postWait && b.postTicks == h.postTicks + 1
  {
    var p := TickPostAttack(h);
    if h.postTicks + 1 == POST_ATTACK_WAIT_TICKS {
      assert p.cdTicks == 0 && p.tag == HandoverP2;
    }
  }

  lemma WaitingTick(h: HostState, n: int, c: Cell)
    requires Control(h) && h.tag == TurnP1 && h.postWait && OnItsWay(h, n, c)
    ensures var b := BeforeBot(h); MissNearer(h, b.(expl := Animate(b.expl)), n, c) && !EndsNow(h)
  {
    assert Ending(h) && !Unresolved(h.expl) && h.postTicks < POST_ATTACK_WAIT_TICKS;
    ClockActs(h);
    WaitedOut(h, c);
    hide Control, BeforeBot, EndsNow, TickPostAttack, TickHandover, TickCursor, TicksLeft, AllSunk;
  }

  lemma ShownTick(h: HostState, n: int, c: Cell)
    requires Control(h) && h.tag == TurnP1 && !h.postWait && !h.expl.finished && OnItsWay(h, n, c)
    ensures var b := BeforeBot(h); MissNearer(h, b.(expl := Animate(b.expl)), n, c) && !EndsNow(h)
  {
    ShowingTick(h);
    AnimatePaced(h.expl);
    hide Control, BeforeBot, EndsNow, Animate, TicksLeft, AllSunk;
  }

  lemma ReadTick(h: HostState, n: int, c: Cell)
    requires Control(h) && h.tag == TurnP1 && !h.postWait && h.expl.finished && OnItsWay(h, n, c)
    ensures var b := BeforeBot(h); MissNearer(h, b.(expl := Animate(b.expl)), n, c) && !EndsNow(h)
    ensures n == POST_ATTACK_WAIT_TICKS
  {
    ReadingTick(h);
    assert SameArena(h, BeforeBot(h)) by { StagesAre(h); hide Control, EndsNow, TickPostAttack, TickHandover, TickCursor; }
    assert TicksLeft(h.expl) == 0 && Animate(h.expl.(finished := false)) == h.expl.(finished := false);
    hide Control, BeforeBot, EndsNow, Animate, TicksLeft, AllSunk;
  }

  /** A tick takes a standing miss on its way: it is shown, read, waited out, and the turn is over. */
  lemma MissTick(h: HostState, pick: Cell, fleet: seq<Placement>, n: int, c: Cell)
    requires Inv(h) && FairDraws(h, pick, fleet) && h.tag == TurnP1 && OnItsWay(h, n, c)
    ensures MissNearer(h, Tick(h, pick, fleet), n, c) && SameBoards(h, Tick(h, pick, fleet))
  {
    BeforeBotKeeps(h);
    var b := BeforeBot(h);
    hide GoodBoard, BotKnows, Tick, Animate, BeforeBot, EndsNow, OnItsWay, MissNearer, Control, FairDraws;
    if h.postWait { WaitingTick(h, n, c); } else if h.expl.finished { ReadTick(h, n, c); } else { ShownTick(h, n, c); }
    StaysInTurn(h, n, c, b);
    TickWithoutBot(h, pick, fleet, b);
  }

  lemma StaysInTurn(h: HostState, n: int, c: Cell, b: HostState)
    requires MissNearer(h, b.(expl := Animate(b.expl)), n, c)
    ensures b.tag == TurnP1 || b.tag == HandoverP2
  {
    hide OnItsWay, Animate;
  }

  lemma PausedTick(h: HostState, pick: Cell, fleet: seq<Placement>)
    requires Inv(h) && FairDraws(h, pick, fleet) && h.tag == Paused
    ensures TurnUntouched(h, Tick(h, pick, fleet))
  {
    TickInPause(h, pick, fleet);
    hide Inv, Tick;
  }

  // ---------------------------------------------------------------------------------------------
  // One event, exactly
  // ---------------------------------------------------------------------------------------------

  lemma UntouchedMiss(h: HostState, r: HostState, n: int, c: Cell)
    requires TurnUntouched(h, r) && OnItsWay(h, n, c)
    ensures OnItsWay(r, n, c) && SameBoards(h, r)
  {
    hide AllSunk, Paced, TicksLeft;
  }

  /** An event that does not overtake the miss leaves the boards alone and takes the miss at most one tick on
      its way. */
  lemma MissStep(h: HostState, e: Event, n: int, c: Cell)
    requires Inv(h) && Enabled(h, e) && OnItsWay(h, n, c) && !Overtakes(h, e)
    ensures var r := Apply(h, e);
            && SameBoards(h, r)
            && if Live(h, e) then MissNearer(h, r, n, c) else OnItsWay(r, n, c)
  {
    hide Inv, Enabled, Apply, Tick, OnItsWay, MissNearer, Overtakes, TurnUntouched;
    WhereMissStands(h, n, c);
    if Live(h, e) {
      TickIs(h, e);
      MissTick(h, e.pick, e.fleet, n, c);
    } else if e.TickEvent? {
      TickIs(h, e);
      PausedTick(h, e.pick, e.fleet);
      UntouchedMiss(h, Apply(h, e), n, c);
    } else {
      var x := InputInTurn(h, e);
      UntouchedMiss(h, Apply(h, e), n, c);
    }
  }

  lemma WhereMissStands(h: HostState, n: int, c: Cell)
    requires OnItsWay(h, n, c)
    ensures Active(h) == TurnP1 && (h.tag == TurnP1 || h.tag == Paused)
  {
  }

  lemma TickIs(h: HostState, e: Event)
    requires Inv(h) && Enabled(h, e) && e.TickEvent?
    ensures FairDraws(h, e.pick, e.fleet) && Apply(h, e) == Tick(h, e.pick, e.fleet)
  {
  }

  /** The shot that overtakes a miss is accepted when the miss is to be read; it is a shot at another cell. */
  lemma OvertakingStep(h: HostState, e: Event, n: int, c: Cell) returns (x: Cell)
    requires Inv(h) && Enabled(h, e) && OnItsWay(h, n, c) && Overtakes(h, e)
    ensures Accepted(h, Apply(h, e), x) && Apply(h, e).p2 != h.p2 && x != c
    ensures n == POST_ATTACK_WAIT_TICKS && h.expl.finished
  {
    x := InputInTurn(h, e);
    GoodGrids(h);
    hide Enabled, Apply, FairDraws;
    OneShotMore(h.p2, x);
    hide GoodBoard, BotKnows, Attack;
  }

  /** A miss of player 1 goes on to the handover exactly if no further shot overtakes it: whatever else happens,
      it is shown, read and waited out, and no board changes; but a shot that is accepted between the end of the
      animation and the next tick takes its place, and its result is never read. */
  lemma MissStandsExactly(h: HostState, e: Event, c: Cell)
    requires Inv(h) && Enabled(h, e) && MissStands(h, c)
    ensures var r := Apply(h, e);
            && (MissStands(r, c) || r.tag == HandoverP2 <==> !Overtakes(h, e))
            && (SameBoards(h, r) <==> !Overtakes(h, e))
  {
    assert Paced(h.expl);
    var r, n := Apply(h, e), MissLeft(h);
    hide Inv, Enabled, Apply, Overtakes, Accepted, Paced, TicksLeft;
    if Overtakes(h, e) {
      var x := OvertakingStep(h, e, n, c);
      TakesItsPlace(h, r, x);
    } else {
      MissStep(h, e, n, c);
      StillStands(h, r, n, c);
    }
  }

  lemma TakesItsPlace(h: HostState, r: HostState, x: Cell)
    requires Accepted(h, r, x)
    ensures r.tag == TurnP1 && r.expl.at == x
  {
    hide Attack;
  }

  lemma StillStands(h: HostState, r: HostState, n: int, c: Cell)
    requires MissNearer(h, r, n, c) || OnItsWay(r, n, c)
    ensures MissStands(r, c) || r.tag == HandoverP2
  {
  }

  // ---------------------------------------------------------------------------------------------
  // No handover soon
  // ---------------------------------------------------------------------------------------------

  /** The shot of the shortest animation and the pause take this long. */
  const SHORTEST := 100

  /** At least `n` ticks until a turn of player 1 is handed over, those in a pause not counted. */
  predicate NotSoon(h: HostState, n: int) {
    && Paced(h.expl) && n <= SHORTEST && h.tag != HandoverP2
    && (Active(h) == TurnP1 && (h.postWait || Unresolved(h.expl)) ==> n <= MissLeft(h))
  }

  lemma NewShotNotSoon(h: HostState, r: HostState, x: Cell)
    requires Accepted(h, r, x)
    ensures NotSoon(r, SHORTEST)
  {
    hide Attack;
  }

  lemma UntouchedNotSoon(h: HostState, r: HostState, n: int)
    requires TurnUntouched(h, r) && Active(h) == TurnP1 && NotSoon(h, n)
    ensures NotSoon(r, n)
  {
    hide Paced, TicksLeft;
  }

  /** Input that meets the host outside player 1's turn does not lead there, nor to the handover. */
  lemma InputElsewhere(h: HostState, e: Event)
    requires Inv(h) && Enabled(h, e) && !e.TickEvent? && Active(h) != TurnP1 && h.tag != HandoverP2
    ensures var r := Apply(h, e); Active(r) != TurnP1 && r.tag != HandoverP2
  {
    hide GoodBoard, BotKnows, Control, HandleKey, HandleMouse, HandleMsg, FairDraws, MsgOk, PlacesForBot, SameGame, CursorSafe;
    InputSafe(h);
    if h.tag == Paused {
      PausedElsewhere(h);
      StepInPause(h, e);
    } else {
      match e
      case KeyEvent(code, make) => KeyOutside(h, code, make);
      case MouseMove(m) => MouseOutside(h, m);
      case Incoming(msg) => MsgKeeps(h, msg); MsgOutside(h, msg);
    }
  }

  lemma PausedElsewhere(h: HostState)
    requires Control(h) && h.tag == Paused && Active(h) != TurnP1
    ensures h.prev == PlaceP1 || h.prev == PlaceP2
  {
  }

  lemma KeyOutside(h: HostState, code: KeyCode, make: bool)
    requires CursorSafe(h) && h.tag != Paused && h.tag != TurnP1 && h.tag != HandoverP2
    ensures var r := HandleKey(h, code, make); Active(r) != TurnP1 && r.tag != HandoverP2
  {
    hide HandleKey, CursorSafe;
    if HandleKey(h, code, make).tag == Paused { KeyPauses(h, code, make); } else { KeyNotToTurn(h, code, make); }
  }

  lemma KeyNotToTurn(h: HostState, code: KeyCode, make: bool)
    requires CursorSafe(h) && h.tag != Paused && h.tag != TurnP1 && h.tag != HandoverP2
    ensures var r := HandleKey(h, code, make); r.tag != TurnP1 && r.tag != HandoverP2
  {
    hide MenuChoice, CommitShip, CommitForBot, FireAt, InitialBoard, MovePlaceCursor, MoveTurnCursor, InputBlocked;
  }

  lemma MouseOutside(h: HostState, m: MouseEvent)
    requires CursorSafe(h) && MouseOk(m) && h.tag != Paused && h.tag != TurnP1 && h.tag != HandoverP2
    ensures var r := HandleMouse(h, m); Active(r) != TurnP1 && r.tag != HandoverP2
  {
    MouseNeverPauses(h, m);
    hide MenuChoice, CommitShip, FireAt;
  }

  lemma MsgOutside(h: HostState, m: Msg)
    requires h.tag != Paused && h.tag != TurnP1 && h.tag != HandoverP2
    requires m.AttackMsg? && h.tag == TurnP2 ==> Cell(m.col, m.row) in h.p1.grid
    ensures var r := HandleMsg(h, m); Active(r) != TurnP1 && r.tag != HandoverP2
  {
    hide Attack, PlaceShip, FleetMsgs, ShipOf;
  }

  lemma InputNotSoon(h: HostState, e: Event, n: int)
    requires Inv(h) && Enabled(h, e) && !e.TickEvent? && NotSoon(h, n)
    ensures NotSoon(Apply(h, e), n)
  {
    ApplyKeeps(h, e);
    var r := Apply(h, e);
    assert Paced(r.expl);
    hide Inv, Enabled, Apply, Overtakes, Accepted, TurnUntouched, MissLeft;
    if Active(h) == TurnP1 {
      var x := InputInTurn(h, e);
      if Overtakes(h, e) { NewShotNotSoon(h, r, x); } else { UntouchedNotSoon(h, r, n); }
    } else {
      InputElsewhere(h, e);
    }
  }

  /** What the clock stages of a live tick do to the turn. */
  lemma TurnBeginsQuietly(h: HostState)
    requires Control(h) && (h.tag == Counting || h.tag == HandoverP1 || h.tag == HandoverP2)
    ensures var b := BeforeBot(h);
            !b.postWait && !Unresolved(b.expl) && Paced(b.expl) && (b.tag == HandoverP2 ==> h.tag == HandoverP2)
  {
    assert Ending(h) && !h.postWait && !Unresolved(h.expl) && Paced(h.expl);
    ClockActs(h);
    ClockFacts(h);
    QuietTickFlows(h);
    hide Control, TickCountdown, TickPostAttack, TickHandover, TickCursor, BeforeBot;
    if h.tag == Counting { CountingStages(h); } else { HandoverStages(h); }
  }

  lemma LiveTickInTurn(h: HostState, n: int)
    requires Control(h) && h.tag == TurnP1 && NotSoon(h, n) && n > 1
    ensures var b := BeforeBot(h); NotSoon(b.(expl := Animate(b.expl)), n - 1)
  {
    if h.postWait {
      OneTickOfWait(h, n);
    } else if h.expl.finished {
      OneTickOfReading(h, n);
    } else {
      ShowingTick(h);
      AnimatePaced(h.expl);
      hide Control, BeforeBot, EndsNow, Animate, TicksLeft;
    }
  }

  lemma OneTickOfWait(h: HostState, n: int)
    requires Control(h) && h.tag == TurnP1 && h.postWait && NotSoon(h, n) && n > 1
    ensures var b := BeforeBot(h); NotSoon(b.(expl := Animate(b.expl)), n - 1)
  {
    assert Ending(h) && !Unresolved(h.expl) && h.postTicks < POST_ATTACK_WAIT_TICKS;
    assert Animate(h.expl) == h.expl;
    ClockActs(h);
    WaitedOut(h, h.expl.at);
    hide Control, BeforeBot, EndsNow, TickPostAttack, TickHandover, TickCursor, TicksLeft, AllSunk, Animate;
  }

  lemma OneTickOfReading(h: HostState, n: int)
    requires Control(h) && h.tag == TurnP1 && !h.postWait && h.expl.finished && NotSoon(h, n) && n > 1
    ensures var b := BeforeBot(h); NotSoon(b.(expl := Animate(b.expl)), n - 1)
  {
    var b := BeforeBot(h);
    AfterReading(h);
    assert Animate(b.expl) == b.expl;
    hide Control, BeforeBot, EndsNow, Animate, TicksLeft, AllSunk;
  }

  /** A result is read: the game is over, or a pause of which this is the first tick begins, or the turn goes on. */
  lemma AfterReading(h: HostState)
    requires Control(h) && h.tag == TurnP1 && !h.postWait && h.expl.finished
    ensures var b := BeforeBot(h);
            && Paced(b.expl) && !Unresolved(b.expl) && TicksLeft(h.expl) == 0
            && (b.tag == GameOver || b.tag == TurnP1) && (b.postWait ==> b.postTicks == 1)
  {
    StagesAre(h);
    ReadAtOnce(h);
    AfterRead(TickResolve(h));
    assert TickCountdown(h) == h;
    hide Control, TickResolve, TickPostAttack, TickHandover, TickCursor, TickCountdown, BeforeBot;
  }

  lemma ReadAtOnce(h: HostState)
    requires Control(h) && h.tag == TurnP1 && !h.postWait && h.expl.finished
    ensures CanResolve(h) && h.expl.at in EnemyBoard(h).grid && TicksLeft(h.expl) == 0
    ensures var r := TickResolve(h);
            && Paced(r.expl) && !Unresolved(r.expl)
            && (r.tag == GameOver || r.tag == TurnP1) && (r.postWait ==> r.postTicks == 0)
            && (r.tag == GameOver ==> !r.postWait)
  {
    ResolveKeeps(h);
    hide AllSunk, Report;
  }

  lemma AfterRead(r: HostState)
    requires Paced(r.expl) && !Unresolved(r.expl) && (r.tag == GameOver || r.tag == TurnP1)
    requires (r.postWait ==> r.postTicks == 0) && (r.tag == GameOver ==> !r.postWait)
    ensures var b := TickCursor(TickHandover(TickPostAttack(r)));
            && b.expl == r.expl && b.tag == r.tag && (b.postWait ==> b.postTicks == 1)
  {
    hide Paced;
  }

  lemma TickElsewhere(h: HostState, pick: Cell, fleet: seq<Placement>)
    requires Inv(h) && FairDraws(h, pick, fleet) && h.tag != TurnP1 && h.tag != Paused && h.tag != HandoverP2
    ensures var t := Tick(h, pick, fleet);
            t.tag != HandoverP2 && (Active(t) == TurnP1 ==> !t.postWait && !Unresolved(t.expl))
  {
    var b, t := BeforeBot(h), Tick(h, pick, fleet);
    if InTurn(h) { TurnTickFlows(h); } else { QuietTickFlows(h); }
    TickNeverPauses(h, pick, fleet);
    TagAfterBot(h, pick, fleet, b);
    if t.tag == TurnP1 {
      assert h.tag == Counting || h.tag == HandoverP1;
      TurnBeginsQuietly(h);
      TickWithoutBot(h, pick, fleet, b);
      AnimatePaced(b.expl);
    }
    hide Inv, Tick, BeforeBot, Animate;
  }

  lemma TickInTurnNotSoon(h: HostState, pick: Cell, fleet: seq<Placement>, n: int)
    requires Inv(h) && FairDraws(h, pick, fleet) && h.tag == TurnP1 && NotSoon(h, n) && n > 1
    ensures NotSoon(Tick(h, pick, fleet), n - 1)
  {
    var b := BeforeBot(h);
    TurnTickFlows(h);
    LiveTickInTurn(h, n);
    TickWithoutBot(h, pick, fleet, b);
    hide Inv, Tick, BeforeBot, NotSoon, Animate;
  }

  lemma TickNotSoon(h: HostState, e: Event, n: int)
    requires Inv(h) && Enabled(h, e) && e.TickEvent? && NotSoon(h, n) && n > LiveCount(h, e)
    ensures NotSoon(Apply(h, e), n - LiveCount(h, e))
  {
    ApplyKeeps(h, e);
    TickIs(h, e);
    var r := Apply(h, e);
    assert Paced(r.expl);
    hide Inv, Enabled, Apply, Tick, MissLeft, Paced;
    if h.tag == Paused {
      PausedTick(h, e.pick, e.fleet);
      StepInPause(h, e);
      assert r.tag == Paused && TurnUntouched(h, r);
      hide SameGame;
      StillNotSoon(h, r, n);
    } else if h.tag == TurnP1 {
      TickInTurnNotSoon(h, e.pick, e.fleet, n);
    } else {
      TickElsewhere(h, e.pick, e.fleet);
    }
  }

  lemma StillNotSoon(h: HostState, r: HostState, n: int)
    requires TurnUntouched(h, r) && r.tag == Paused && NotSoon(h, n)
    ensures NotSoon(r, n)
  {
    hide Paced, TicksLeft;
  }

  lemma StepNotSoon(h: HostState, e: Event, n: int)
    requires Inv(h) && Enabled(h, e) && NotSoon(h, n) && n > LiveCount(h, e)
    ensures NotSoon(Apply(h, e), n - LiveCount(h, e))
  {
    hide Inv, Enabled, Apply, NotSoon;
    if e.TickEvent? { TickNotSoon(h, e, n); } else { InputNotSoon(h, e, n); }
  }

  // ---------------------------------------------------------------------------------------------
  // Runs
  // ---------------------------------------------------------------------------------------------

  /** The ticks from `k` to before `j` that are not in a pause. */
  function LiveTicks(run: seq<HostState>, es: seq<Event>, k: nat, j: nat): nat
    requires k <= j <= |es| && |run| == |es| + 1
    decreases j
  {
    if k == j then 0 else LiveTicks(run, es, k, j - 1) + LiveCount(run[j - 1], es[j - 1])
  }

  /** No event from `k` to before `j` is a shot of player 1 that overtakes another. */
  predicate NoneOvertakes(run: seq<HostState>, es: seq<Event>, k: nat, j: nat)
    requires k <= j <= |es| && |run| == |es| + 1
  {
    forall i :: k <= i < j ==> !Overtakes(run[i], es[i])
  }

  lemma {:induction false} MissOrOvertaken(run: seq<HostState>, es: seq<Event>, k: nat, m: nat, n: int, c: Cell)
    requires IsRun(run, es) && k + m <= |es| && OnItsWay(run[k], n, c) && LiveTicks(run, es, k, k + m) < n
    ensures var left := n - LiveTicks(run, es, k, k + m);
            if NoneOvertakes(run, es, k, k + m) then OnItsWay(run[k + m], left, c) else NotSoon(run[k + m], left + 1)
  {
    hide Inv, Init, Enabled, Apply, Steps, OnItsWay, NotSoon, Overtakes, Live;
    if m > 0 {
      var j := k + m - 1;
      var left := n - LiveTicks(run, es, k, j);
      StepInRun(run, es, j);
      MissOrOvertaken(run, es, k, m - 1, n, c);
      if !NoneOvertakes(run, es, k, j) {
        StepNotSoon(run[j], es[j], left + 1);
      } else if Overtakes(run[j], es[j]) {
        ShotNotSoon(run[j], es[j], left, c);
      } else {
        NotYet(run[j], es[j], left, c);
      }
    }
  }

  lemma NotYet(h: HostState, e: Event, n: int, c: Cell)
    requires Inv(h) && Enabled(h, e) && OnItsWay(h, n, c) && !Overtakes(h, e) && LiveCount(h, e) < n
    ensures OnItsWay(Apply(h, e), n - LiveCount(h, e), c)
  {
    hide Inv, Enabled, Apply, OnItsWay, Overtakes;
    MissStep(h, e, n, c);
  }

  lemma ShotNotSoon(h: HostState, e: Event, n: int, c: Cell)
    requires Inv(h) && Enabled(h, e) && OnItsWay(h, n, c) && Overtakes(h, e)
    ensures LiveCount(h, e) == 0 && NotSoon(Apply(h, e), n + 1)
  {
    var x := OvertakingStep(h, e, n, c);
    NewShotNotSoon(h, Apply(h, e), x);
    hide Inv, Enabled, Apply, Accepted, OnItsWay;
  }

  /** The turn is handed over with the last of the remaining ticks exactly if no further shot of player 1
      overtakes the miss until then. */
  lemma MissEndsTurnExactly(run: seq<HostState>, es: seq<Event>, k: nat, m: nat, n: int, c: Cell)
    requires IsRun(run, es) && k + m < |es| && OnItsWay(run[k], n, c)
    requires Live(run[k + m], es[k + m]) && LiveTicks(run, es, k, k + m) + 1 == n
    ensures run[k + m + 1].tag == HandoverP2 <==> NoneOvertakes(run, es, k, k + m)
  {
    hide Inv, Init, Enabled, Apply, Steps, OnItsWay, NoneOvertakes;
    var h, e := run[k + m], es[k + m];
    StepInRun(run, es, k + m);
    MissOrOvertaken(run, es, k, m, n, c);
    if NoneOvertakes(run, es, k, k + m) {
      assert !Overtakes(h, e);
      MissStep(h, e, 1, c);
    } else {
      StepNotSoon(h, e, 2);
    }
  }

  /** And in no state before, overtaken or not. */
  lemma HandoverNotEarly(run: seq<HostState>, es: seq<Event>, k: nat, m: nat, n: int, c: Cell)
    requires IsRun(run, es) && k + m <= |es| && OnItsWay(run[k], n, c) && LiveTicks(run, es, k, k + m) < n
    ensures run[k + m].tag != HandoverP2
  {
    hide Inv, Init, Enabled, Apply, Steps, NoneOvertakes, LiveTicks, MissLeft, Paced;
    MissOrOvertaken(run, es, k, m, n, c);
    NoHandoverYet(run[k + m], n - LiveTicks(run, es, k, k + m), c);
  }

  lemma NoHandoverYet(h: HostState, n: int, c: Cell)
    requires OnItsWay(h, n, c) || NotSoon(h, n + 1)
    ensures h.tag != HandoverP2
  {
  }

  /** What `NotSoon` says holds over any stretch of a run: within fewer than `n` ticks the turn is not handed over. */
  lemma {:induction false} NoHandoverBefore(run: seq<HostState>, es: seq<Event>, k: nat, m: nat, n: int)
    requires IsRun(run, es) && k + m <= |es| && NotSoon(run[k], n) && LiveTicks(run, es, k, k + m) < n
    ensures NotSoon(run[k + m], n - LiveTicks(run, es, k, k + m)) && run[k + m].tag != HandoverP2
  {
    hide Inv, Init, Enabled, Apply, Steps, MissLeft, Paced, Live;
    if m > 0 {
      var j := k + m - 1;
      StepInRun(run, es, j);
      NoHandoverBefore(run, es, k, m - 1, n);
      StepNotSoon(run[j], es[j], n - LiveTicks(run, es, k, j));
    }
  }

  /** A shot of player 1 into the water: 145 ticks until the turn is handed over. The animation takes 8 frames of
      5 ticks, a miss stays 45 ticks longer, and the pause takes 60, the tick included in which it begins. */
  lemma WaterShotOnItsWay(h: HostState, r: HostState, x: Cell)
    requires Accepted(h, r, x) && h.p2.grid[x] == Empty && !AllSunk(h.p2)
    ensures OnItsWay(r, 145, x)
  {
  }
}
