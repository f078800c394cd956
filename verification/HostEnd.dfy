/** The end of a battle: how long after the last shot the winner is announced. */
module HostEnd {
  import opened Boards
  import opened Protocol
  import opened Explosion
  import opened Host
  import opened HostControl
  import opened HostSteps
  import opened HostRuns
  import opened HostShots
  import opened HostProgress
  import opened HostMisses
  import opened HostBot
  import H = Hunt
  import R = Rays

  /** The fleet under attack is sunk, and the last shot at it is to be read in `n` ticks, those in a pause not counted. */
  predicate EndIn(h: HostState, n: int) {
    && (Active(h) == TurnP1 || Active(h) == TurnP2) && AllSunk(ActiveEnemy(h))
    && Paced(h.expl) && Unresolved(h.expl) && TicksLeft(h.expl) + 1 == n
  }

  /** The game is over, and the winner is the player whose turn it was. */
  predicate WonBy(h: HostState, turn: Tag) {
    h.tag == GameOver && h.data.w0 == if turn == TurnP1 then 1 else 2
  }

  lemma LastTick(h: HostState)
    requires Control(h) && InTurn(h) && EndIn(h, 1)
    ensures EndsNow(h) && WonBy(BeforeBot(h), h.tag)
  {
    assert CanResolve(h) && TickCountdown(h) == h by { FinishedAtLast(h.expl); }
    ReadFacts(h);
    StagesAre(h);
    hide Control, AllSunk, TickCountdown, TickResolve, TickPostAttack, TickHandover, TickCursor;
  }

  lemma FinishedAtLast(e: ExplState)
    requires Paced(e) && Unresolved(e)
    ensures TicksLeft(e) == 0 <==> e.finished
    ensures TicksLeft(e) >= 0
  {
  }

  lemma TickInTurn(h: HostState, pick: Cell, fleet: seq<Placement>, n: int)
    requires Inv(h) && FairDraws(h, pick, fleet) && InTurn(h) && EndIn(h, n)
    ensures var r := Tick(h, pick, fleet);
            SameBoards(h, r) && if n == 1 then WonBy(r, h.tag) else EndIn(r, n - 1) && r.tag == h.tag
  {
    assert Control(h);
    hide Inv, Control, Tick, BeforeBot, EndsNow, AllSunk, FairDraws, Animate, TicksLeft;
    NoPauseYet(h, n);
    if n == 1 {
      LastTick(h);
      BeforeBotKeeps(h);
      TickWithoutBot(h, pick, fleet, BeforeBot(h));
    } else {
      ShownOnTick(h, pick, fleet, n);
    }
  }

  lemma ShownOnTick(h: HostState, pick: Cell, fleet: seq<Placement>, n: int)
    requires Inv(h) && FairDraws(h, pick, fleet) && InTurn(h) && EndIn(h, n) && !h.postWait && n > 1
    ensures var r := Tick(h, pick, fleet); SameBoards(h, r) && EndIn(r, n - 1) && r.tag == h.tag
  {
    assert Control(h);
    FinishedAtLast(h.expl);
    hide Inv, Control, Tick, BeforeBot, EndsNow, AllSunk, FairDraws, Animate, TicksLeft;
    ShowingTick(h);
    CursorsShape(h);
    hide TickCursor;
    TickWithoutBot(h, pick, fleet, TickCursor(h));
    OneNearer(h, TickCursor(h).cursorTick, TickCursor(h).sent, n);
  }

  lemma NoPauseYet(h: HostState, n: int)
    requires Control(h) && EndIn(h, n)
    ensures !h.postWait && n >= 1
  {
  }

  lemma OneNearer(h: HostState, cursorTick: byte, sent: seq<Msg>, n: int)
    requires EndIn(h, n) && InTurn(h) && n > 1
    ensures var r := h.(cursorTick := cursorTick, sent := sent, expl := Animate(h.expl)); EndIn(r, n - 1) && SameBoards(h, r)
  {
    AnimatePaced(h.expl);
    hide Animate, AllSunk, TicksLeft;
  }

  // ---------------------------------------------------------------------------------------------
  // Further shots
  // ---------------------------------------------------------------------------------------------

  /** What is left of a sunk fleet's board is water. */
  lemma SunkLeavesWater(b: BoardState, c: Cell)
    requires GoodBoard(b) && |b.ships| == NUM_SHIPS && AllSunk(b) && InGrid(c) && R.IsFresh(b.grid, c)
    ensures AllSunk(Attack(b, c)) && c in Attack(b, c).grid && !H.ReadsHit(Attack(b, c), c)
  {
    GoodShot(b, c);
    LossIsVisible(b);
    LossIsVisible(Attack(b, c));
    assert c !in ShotsOf(b) && !Occupied(FleetOf(b), c);
    hide Attack, AllSunk;
    HitMeansOccupied(Attack(b, c), c);
  }

  lemma FleetsFull(h: HostState)
    requires Inv(h) && (Active(h) == TurnP1 || Active(h) == TurnP2)
    ensures |h.p1.ships| == |h.p2.ships| == NUM_SHIPS && GoodBoard(h.p1) && GoodBoard(h.p2)
  {
  }

  /** A shot begins with its animation. */
  lemma NewShotLasts(e: ExplState, c: Cell)
    ensures var e' := StartExplosion(e, c, false); Paced(e') && Unresolved(e') && TicksLeft(e') == 85
  {
  }

  lemma ShotRestarts(h: HostState, r: HostState, c: Cell)
    requires Active(h) == Active(r) && AllSunk(ActiveEnemy(r)) && r.expl == StartExplosion(h.expl, c, false)
    requires Active(h) == TurnP1 || Active(h) == TurnP2
    ensures EndIn(r, 86)
  {
    NewShotLasts(h.expl, c);
    hide StartExplosion, AllSunk, TicksLeft;
  }

  /** The shot of player 1 that sinks the last ship is a hit, and its animation is all that is left: 40 ticks and the
      one that reads it. */
  lemma LastShipSunk(h: HostState, r: HostState, x: Cell)
    requires Inv(h) && Accepted(h, r, x) && InGrid(x) && !AllSunk(h.p2) && AllSunk(r.p2)
    ensures EndIn(r, 41)
  {
    SinkingIsHit(h.p2, x);
    HitLasts(h.expl, x);
    hide Inv, StartExplosion, AllSunk, TicksLeft, Attack, H.ReadsHit;
  }

  lemma SinkingIsHit(b: BoardState, c: Cell)
    requires GoodBoard(b) && InGrid(c) && R.IsFresh(b.grid, c) && AllSunk(Attack(b, c)) && !AllSunk(b)
    ensures c in Attack(b, c).grid && H.ReadsHit(Attack(b, c), c)
  {
    GoodShot(b, c);
    hide GoodBoard;
  }

  lemma HitLasts(e: ExplState, c: Cell)
    ensures var e' := StartExplosion(e, c, true); Paced(e') && Unresolved(e') && TicksLeft(e') == 40
  {
  }

  lemma InputInFirstTurn(h: HostState, e: Event, n: int)
    requires Inv(h) && Enabled(h, e) && !e.TickEvent? && EndIn(h, n) && Active(h) == TurnP1
    ensures var r := Apply(h, e); Active(r) == Active(h) && if SameBoards(h, r) then EndIn(r, n) else EndIn(r, 86)
  {
    hide Inv, Enabled, Apply, Overtakes, AllSunk, TicksLeft;
    var x := InputInTurn(h, e);
    if Overtakes(h, e) {
      FleetsFull(h);
      assert InGrid(x) by { GoodGrids(h); }
      hide GoodBoard, Attack, R.IsFresh, H.ReadsHit, StartExplosion;
      SunkLeavesWater(h.p2, x);
      ShotRestarts(h, Apply(h, e), x);
      OneShotMore(h.p2, x);
    }
  }

  lemma InputInSecondTurn(h: HostState, e: Event, n: int)
    requires Inv(h) && Enabled(h, e) && !e.TickEvent? && EndIn(h, n) && h.tag == TurnP2
    ensures var r := Apply(h, e); Active(r) == Active(h) && if SameBoards(h, r) then EndIn(r, n) else EndIn(r, 86)
  {
    hide Inv, HandleKey, HandleMouse, HandleMsg, CursorSafe, MsgOk, PlacesForBot, AllSunk, TicksLeft;
    InputSafe(h);
    FleetsFull(h);
    hide GoodBoard;
    match e
    case KeyEvent(code, make) => KeyToBot(h, code, make);
    case MouseMove(m) => MouseToBot(h, m);
    case Incoming(msg) => MsgKeeps(h, msg); MsgInSecondTurn(h, msg, n);
  }

  lemma MsgInSecondTurn(h: HostState, m: Msg, n: int)
    requires MsgOk(h, m) && h.tag == TurnP2 && EndIn(h, n) && GoodBoard(h.p1) && |h.p1.ships| == NUM_SHIPS
    ensures m.AttackMsg? ==> Cell(m.col, m.row) in h.p1.grid
    ensures var r := HandleMsg(h, m); Active(r) == Active(h) && if SameBoards(h, r) then EndIn(r, n) else EndIn(r, 86)
  {
    if m.AttackMsg? && R.IsFresh(h.p1.grid, Cell(m.col, m.row)) {
      var c := Cell(m.col, m.row);
      SunkLeavesWater(h.p1, c);
      OneShotMore(h.p1, c);
      hide Attack, StartExplosion, AllSunk, H.ReadsHit, TicksLeft;
      ShotRestarts(h, HandleMsg(h, m), c);
    } else {
      hide Attack, StartExplosion, AllSunk, TicksLeft, PlaceShip, CanPlace;
    }
  }

  /** One event: a tick brings the end nearer, an accepted shot starts the count again, nothing else matters. */
  lemma EndStep(h: HostState, e: Event, n: int)
    requires Inv(h) && Enabled(h, e) && EndIn(h, n)
    ensures var r := Apply(h, e);
            if Live(h, e) then SameBoards(h, r) && if n == 1 then WonBy(r, Active(h)) else EndIn(r, n - 1) && Active(r) == Active(h)
            else Active(r) == Active(h) && if SameBoards(h, r) then EndIn(r, n) else EndIn(r, 86)
  {
    hide Inv, Enabled, Apply, Tick, FairDraws, AllSunk, TicksLeft;
    WhereItEnds(h, n);
    if Live(h, e) {
      TickIs(h, e);
      TickInTurn(h, e.pick, e.fleet, n);
    } else if e.TickEvent? {
      TickIs(h, e);
      PausedTick(h, e.pick, e.fleet);
    } else if Active(h) == TurnP1 {
      InputInFirstTurn(h, e, n);
    } else {
      InputInSecondTurn(h, e, n);
    }
  }

  lemma WhereItEnds(h: HostState, n: int)
    requires Inv(h) && EndIn(h, n)
    ensures h.tag == Paused || InTurn(h)
    ensures Active(h) == TurnP2 ==> h.tag == TurnP2
  {
    hide GoodBoard, BotKnows;
  }

  // ---------------------------------------------------------------------------------------------
  // Runs
  // ---------------------------------------------------------------------------------------------

  /** From `k` to `j` no step changes a board. */
  predicate NoShotBetween(run: seq<HostState>, k: nat, j: nat)
    requires k <= j < |run|
  {
    forall i :: k <= i < j ==> SameBoards(run[i], run[i + 1])
  }

  lemma {:induction false} EndApproaches(run: seq<HostState>, es: seq<Event>, k: nat, m: nat, n: int) returns (left: int)
    requires IsRun(run, es) && k + m <= |es| && EndIn(run[k], n) && LiveTicks(run, es, k, k + m) < n
    ensures Active(run[k + m]) == Active(run[k]) && EndIn(run[k + m], left)
    ensures left >= n - LiveTicks(run, es, k, k + m)
    ensures NoShotBetween(run, k, k + m) ==> left == n - LiveTicks(run, es, k, k + m)
  {
    hide Inv, Init, Enabled, Apply, Steps, EndIn, Live, SameBoards;
    left := n;
    if m > 0 {
      var j := k + m - 1;
      StepInRun(run, es, j);
      AtMost86(run[k], n);
      left := EndApproaches(run, es, k, m - 1, n);
      EndStep(run[j], es[j], left);
      assert NoShotBetween(run, k, k + m) ==> SameBoards(run[j], run[j + 1]);
      left := if Live(run[j], es[j]) then left - 1 else if SameBoards(run[j], run[j + 1]) then left else 86;
    }
  }

  lemma AtMost86(h: HostState, n: int)
    requires EndIn(h, n)
    ensures n <= 86
  {
  }

  /** A fleet is sunk: the game is over with the last of the remaining ticks unless a further shot is accepted until
      then, and the winner is the player in turn. */
  lemma GameEndsOnTime(run: seq<HostState>, es: seq<Event>, k: nat, m: nat, n: int)
    requires IsRun(run, es) && k + m < |es| && EndIn(run[k], n)
    requires Live(run[k + m], es[k + m]) && LiveTicks(run, es, k, k + m) + 1 == n
    requires NoShotBetween(run, k, k + m)
    ensures WonBy(run[k + m + 1], Active(run[k]))
  {
    hide Inv, Init, Enabled, Apply, Steps, EndIn, NoShotBetween;
    StepInRun(run, es, k + m);
    var left := EndApproaches(run, es, k, m, n);
    EndStep(run[k + m], es[k + m], 1);
  }

  /** And with no tick before: further shots, which can only hit water, make it later. */
  lemma GameNotOverEarly(run: seq<HostState>, es: seq<Event>, k: nat, m: nat, n: int)
    requires IsRun(run, es) && k + m <= |es| && EndIn(run[k], n) && LiveTicks(run, es, k, k + m) < n
    ensures run[k + m].tag != GameOver
  {
    var left := EndApproaches(run, es, k, m, n);
    hide IsRun, AllSunk, TicksLeft, Paced;
  }
}
