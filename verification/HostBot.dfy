/** When the bot acts: the tick in which it places its ships, and the ticks in which it shoots. */
module HostBot {
  import opened Boards
  import opened Protocol
  import opened Explosion
  import opened Host
  import opened HostControl
  import opened HostSteps
  import opened HostRuns
  import opened HostPause
  import opened HostShots
  import opened HostProgress
  import opened HostMisses
  import H = Hunt
  import R = Rays

  // ---------------------------------------------------------------------------------------------
  // The bot's turn
  // ---------------------------------------------------------------------------------------------

  /** The bot is about to shoot: the turn is being handed over to it, or it is its turn and no miss of its own is
      shown or waited out. */
  predicate BotComing(h: HostState) {
    && h.single && !AllSunk(h.p1)
    && (h.tag == HandoverP2 || (h.tag == TurnP2 && !h.postWait && (Unresolved(h.expl) ==> h.expl.isHit)))
  }

  /** The ticks that a bot waits whose timer stands at `t`, the tick of the shot included. */
  function Patience(t: byte): int {
    if t + 1 >= TICKS_PER_SEC then 1 else TICKS_PER_SEC - t
  }

  /** The ticks until the bot shoots: its timer stands still while a hit is shown, and counts in the tick in which the
      handover ends. */
  function UntilShot(h: HostState): int
    requires Paced(h.expl)
  {
    Patience(h.botTimer)
    + if h.tag == HandoverP2 then TICKS_PER_SEC - h.cdTicks - 1 else if IsExploding(h.expl) then TicksLeft(h.expl) else 0
  }

  /** With `n` ticks to go. */
  predicate BotIn(h: HostState, n: int) {
    BotComing(h) && Paced(h.expl) && UntilShot(h) == n
  }

  /** A shot of the bot at the fresh cell `c`. */
  predicate ShootsAt(h: HostState, r: HostState, c: Cell) {
    && InGrid(c) && R.IsFresh(h.p1.grid, c) && r.p1 == Attack(h.p1, c) && r.p2 == h.p2 && r.tag == TurnP2
    && r.expl.at == c && (r.expl.isHit <==> H.ReadsHit(r.p1, c))
  }

  /** And then: the next shot in 69 ticks if it hit, player 1's turn in 173 if it did not, or the fleet is sunk. */
  ghost predicate ShotAndThen(h: HostState, r: HostState) {
    && (exists c :: ShootsAt(h, r, c))
    && (AllSunk(r.p1) || if r.expl.isHit then BotIn(r, 69) else Running(r, 173, TurnP1))
  }

  ghost predicate OneTickLess(h: HostState, r: HostState, n: int) {
    if n == 1 then ShotAndThen(h, r) else BotIn(r, n - 1) && SameBoards(h, r)
  }

  // ---------------------------------------------------------------------------------------------
  // A tick
  // ---------------------------------------------------------------------------------------------

  /** What the clocks lead to when the handover or the reading of a hit ends in this tick, or nothing does. */
  predicate ReadyAfter(h: HostState, b: HostState) {
    && b.tag == TurnP2 && b.single && !b.postWait && !Unresolved(b.expl) && Paced(b.expl)
    && b.botTimer == h.botTimer && b.p1 == h.p1 && b.p2 == h.p2
  }

  lemma TimerKept(h: HostState)
    requires Control(h)
    ensures BeforeBot(h).botTimer == h.botTimer
  {
    StagesAre(h);
    TimersOfClocks(h);
    var r := TickResolve(TickCountdown(h));
    TimersOfPause(r);
    hide Control, TickCountdown, TickResolve, TickPostAttack, TickHandover, TickCursor, EndsNow, BeforeBot;
  }

  lemma TimersOfClocks(h: HostState)
    requires CanResolve(TickCountdown(h)) ==> TickCountdown(h).expl.at in EnemyBoard(TickCountdown(h)).grid
    ensures TickResolve(TickCountdown(h)).botTimer == h.botTimer
  {
    var a := TickCountdown(h);
    assert a.botTimer == h.botTimer;
    hide TickCountdown, AllSunk, Report, IfMulti;
  }

  lemma TimersOfPause(r: HostState)
    ensures TickCursor(TickHandover(TickPostAttack(r))).botTimer == r.botTimer
  {
    var p := TickPostAttack(r);
    assert p.botTimer == r.botTimer;
    var q := TickHandover(p);
    assert q.botTimer == p.botTimer by { hide TickPostAttack; }
    hide TickPostAttack, TickHandover, IfMulti;
  }

  lemma HandoverGoesOn(h: HostState)
    requires Control(h) && h.tag == HandoverP2
    ensures var b := BeforeBot(h);
            && !EndsNow(h) && b.expl == h.expl && !Unresolved(h.expl) && !b.postWait && Paced(h.expl)
            && h.cdTicks < TICKS_PER_SEC
            && if h.cdTicks + 1 < TICKS_PER_SEC then b.tag == HandoverP2 && b.cdTicks == h.cdTicks + 1 else b.tag == TurnP2
  {
    assert Ending(h) && !h.postWait;
    ClockActs(h);
    ClockFacts(h);
    assert TickHandover(h).expl == h.expl;
    hide Control, BeforeBot, EndsNow, TickCountdown, TickPostAttack;
  }

  lemma HitIsRead(h: HostState)
    requires Control(h) && h.tag == TurnP2 && h.expl.finished && h.expl.isHit && !h.postWait && !AllSunk(h.p1)
    ensures var b := BeforeBot(h);
            !EndsNow(h) && b.tag == TurnP2 && !b.postWait && b.expl == h.expl.(finished := false) && !Unresolved(b.expl)
  {
    assert CanResolve(h) && TickCountdown(h) == h && !IsExploding(h.expl);
    ReadFacts(h);
    StagesAre(h);
    hide Control, TickCountdown, TickResolve, BeforeBot, EndsNow, AllSunk;
    assert TickPostAttack(TickResolve(h)) == TickResolve(h);
  }

  lemma NothingIsRead(h: HostState)
    requires Control(h) && h.tag == TurnP2 && !h.expl.finished && !h.postWait
    ensures var b := BeforeBot(h); !EndsNow(h) && b.tag == TurnP2 && !b.postWait && b.expl == h.expl
  {
    ShowingTick(h);
    hide Control, BeforeBot, EndsNow;
  }

  /** Which ticks the timer counts. */
  lemma ReadyExactly(h: HostState, n: int)
    requires Inv(h) && BotIn(h, n)
    ensures var b := BeforeBot(h);
            && !EndsNow(h)
            && if n == Patience(h.botTimer) then ReadyAfter(h, b)
               else b.tag == h.tag && b.expl == h.expl && b.postWait == h.postWait && n > Patience(h.botTimer)
                    && b.cdTicks == (if h.tag == HandoverP2 then h.cdTicks + 1 else b.cdTicks)
                    && (h.tag == TurnP2 ==> IsExploding(h.expl))
  {
    BeforeBotKeeps(h);
    assert Control(h);
    TimerKept(h);
    if h.tag == HandoverP2 { HandoverGoesOn(h); }
    else if h.expl.finished { HitIsRead(h); FinishedHasNoTicks(h.expl); }
    else { NothingIsRead(h); StillTicking(h.expl); }
    hide Inv, Control, BeforeBot, EndsNow, AllSunk, TicksLeft;
  }

  lemma FinishedHasNoTicks(e: ExplState)
    requires Paced(e) && e.finished
    ensures !IsExploding(e) && Paced(e.(finished := false))
  {
  }

  lemma StillTicking(e: ExplState)
    requires Paced(e)
    ensures IsExploding(e) ==> TicksLeft(e) > 0
  {
  }

  /** A bot that is ready and does not shoot yet counts. */
  lemma ReadyCounts(h: HostState, pick: Cell, fleet: seq<Placement>, b: HostState)
    requires Inv(h) && FairDraws(h, pick, fleet) && b == BeforeBot(h) && BotReady(b) && !EndsNow(h) && !BotFires(b)
    ensures Tick(h, pick, fleet) == b.(botTimer := AsByte(b.botTimer + 1), expl := Animate(b.expl))
  {
    CountsOnly(b, pick, fleet);
    hide GoodBoard, BotKnows, BeforeBot, Control, Animate, AsByte, EndsNow, TickBot, BotFires, BotReady, FairDraws;
  }

  lemma CountsOnly(b: HostState, pick: Cell, fleet: seq<Placement>)
    requires BotReady(b) && !BotFires(b)
    ensures TickBot(b, pick, fleet) == b.(botTimer := AsByte(b.botTimer + 1))
  {
    hide AsByte, BoardOf;
  }

  lemma FiresAtPatience(b: HostState)
    requires BotReady(b) && b.botTimer <= 2 * TICKS_PER_SEC
    ensures BotFires(b) <==> Patience(b.botTimer) == 1
    ensures !BotFires(b) ==> AsByte(b.botTimer + 1) == b.botTimer + 1 && Patience(b.botTimer + 1) == Patience(b.botTimer) - 1
  {
  }

  lemma TimerBound(h: HostState)
    requires Inv(h)
    ensures h.botTimer <= 2 * TICKS_PER_SEC && Paced(h.expl)
  {
  }

  lemma CountingTick(h: HostState, pick: Cell, fleet: seq<Placement>, n: int)
    requires Inv(h) && FairDraws(h, pick, fleet) && BotIn(h, n) && n == Patience(h.botTimer) > 1
    ensures var r := Tick(h, pick, fleet); BotIn(r, n - 1) && SameBoards(h, r)
  {
    assert Control(h);
    hide Inv, Control, BeforeBot, Tick, EndsNow, Animate, FairDraws, BotFires, BotReady, Patience, BotIn, ReadyAfter, SameBoards;
    ReadyExactly(h, n);
    var b := BeforeBot(h);
    TimerBound(h);
    ReadyIsReady(h, b);
    FiresAtPatience(b);
    ReadyCounts(h, pick, fleet, b);
    CountsDown(h, b, n);
  }

  lemma ReadyIsReady(h: HostState, b: HostState)
    requires ReadyAfter(h, b)
    ensures BotReady(b) && b.botTimer == h.botTimer
  {
  }

  lemma CountsDown(h: HostState, b: HostState, n: int)
    requires BotIn(h, n) && ReadyAfter(h, b) && b.botTimer <= 2 * TICKS_PER_SEC && Patience(b.botTimer + 1) == n - 1
    ensures var r := b.(botTimer := b.botTimer + 1, expl := Animate(b.expl)); BotIn(r, n - 1) && SameBoards(h, r)
  {
    NothingToShow(b.expl);
    hide AllSunk, Animate, Patience;
  }

  lemma NothingToShow(e: ExplState)
    requires !Unresolved(e)
    ensures Animate(e) == e
  {
  }

  /** While a hit is shown, or the turn is handed over. */
  lemma WaitingTickOfBot(h: HostState, pick: Cell, fleet: seq<Placement>, n: int)
    requires Inv(h) && FairDraws(h, pick, fleet) && BotIn(h, n) && n != Patience(h.botTimer)
    ensures var r := Tick(h, pick, fleet); n > 1 && BotIn(r, n - 1) && SameBoards(h, r)
  {
    ReadyExactly(h, n);
    var b := BeforeBot(h);
    BeforeBotKeeps(h);
    TimerKept(h);
    TickWithoutBot(h, pick, fleet, b);
    AnimatePaced(h.expl);
    if h.tag == HandoverP2 { HandoverGoesOn(h); NothingToShow(h.expl); }
    hide Inv, BeforeBot, Tick, EndsNow, Animate, AllSunk, Paced, TicksLeft, Control;
  }

  // ---------------------------------------------------------------------------------------------
  // The shot
  // ---------------------------------------------------------------------------------------------

  /** The shot, after its first tick of animation. */
  predicate JustFired(b: HostState, r: HostState, c: Cell) {
    && c in b.p1.grid && r.p1 == Attack(b.p1, c) && r.p2 == b.p2 && r.tag == TurnP2 && r.single && !r.postWait && r.botTimer == 0
    && r.expl.at == c && r.expl.exploding && (r.expl.isHit <==> H.ReadsHit(r.p1, c))
    && Paced(r.expl) && TicksLeft(r.expl) == if r.expl.isHit then 39 else 84
  }

  lemma BotShotIs(b: HostState, pick: Cell)
    requires BotFires(b) && (forall x :: x in b.p1.grid ==> InGrid(x)) && Paced(b.expl)
    requires H.Choose(b.bot, b.p1.grid, pick).curr in b.p1.grid
    ensures var s := BotShot(b, pick); JustFired(b, s.(expl := Animate(s.expl)), H.Choose(b.bot, b.p1.grid, pick).curr)
  {
    hide H.Choose, H.Register, Attack, H.ReadsHit;
  }

  lemma AfterShot(h: HostState, b: HostState, r: HostState, c: Cell)
    requires JustFired(b, r, c) && b.p1 == h.p1 && b.p2 == h.p2 && InGrid(c) && R.IsFresh(h.p1.grid, c) && Control(r)
    ensures ShotAndThen(h, r)
  {
    assert ShootsAt(h, r, c);
    hide Attack, AllSunk, Control, Running, TicksLeft, ShootsAt;
    if !AllSunk(r.p1) && !r.expl.isHit { MissShown(r, 84); }
  }

  lemma ShootingTick(h: HostState, pick: Cell, fleet: seq<Placement>, n: int)
    requires Inv(h) && FairDraws(h, pick, fleet) && BotIn(h, n) && n == Patience(h.botTimer) == 1
    ensures ShotAndThen(h, Tick(h, pick, fleet))
  {
    ReadyExactly(h, n);
    var b := BeforeBot(h);
    TimerBound(h);
    FiresAtPatience(b);
    BeforeBotKeeps(h);
    BotAims(b, pick, fleet);
    FiringTick(h, pick, fleet);
    BotShotIs(b, pick);
    TickKeeps(h, pick, fleet);
    var c := H.Choose(b.bot, b.p1.grid, pick).curr;
    hide Control, GoodBoard, BotKnows, BeforeBot, Tick, EndsNow, BotShot, H.Choose, JustFired, Animate, Paced, BotIn, ShotAndThen;
    AfterShot(h, b, Tick(h, pick, fleet), c);
  }

  // ---------------------------------------------------------------------------------------------
  // One event
  // ---------------------------------------------------------------------------------------------

  lemma InputChangesNothing(h: HostState, e: Event, n: int)
    requires Inv(h) && Enabled(h, e) && !e.TickEvent? && BotIn(h, n)
    ensures var r := Apply(h, e); BotIn(r, n) && SameBoards(h, r)
  {
    hide Inv, HandleKey, HandleMouse, HandleMsg, CursorSafe, MsgOk, PlacesForBot, AllSunk, Paced, TicksLeft;
    InputSafe(h);
    match e
    case KeyEvent(code, make) => KeyToBot(h, code, make);
    case MouseMove(m) => MouseToBot(h, m);
    case Incoming(msg) => MsgKeeps(h, msg); MsgToBot(h, msg);
  }

  lemma KeyToBot(h: HostState, code: KeyCode, make: bool)
    requires CursorSafe(h) && (h.tag == TurnP2 || h.tag == HandoverP2)
    ensures HandleKey(h, code, make) == h
  {
  }

  lemma MouseToBot(h: HostState, m: MouseEvent)
    requires CursorSafe(h) && MouseOk(m) && (h.tag == TurnP2 || h.tag == HandoverP2)
    ensures HandleMouse(h, m) == h
  {
  }

  lemma MsgToBot(h: HostState, m: Msg)
    requires MsgOk(h, m) && (h.tag == TurnP2 || h.tag == HandoverP2) && h.single
    ensures m.AttackMsg? && h.tag == TurnP2 ==> Cell(m.col, m.row) in h.p1.grid
    ensures var r := HandleMsg(h, m);
            r == h.(connected := r.connected, remoteReady := r.remoteReady, remote := r.remote, over := r.over, sent := r.sent)
  {
  }

  /** Each tick brings the bot's shot one tick nearer, and nothing else moves it. */
  lemma BotStep(h: HostState, e: Event, n: int)
    requires Inv(h) && Enabled(h, e) && BotIn(h, n)
    ensures var r := Apply(h, e); if e.TickEvent? then OneTickLess(h, r, n) else BotIn(r, n) && SameBoards(h, r)
  {
    hide Inv, Enabled, Apply, Tick, FairDraws, BotIn, ShotAndThen, Patience;
    if e.TickEvent? {
      TickIs(h, e);
      PatienceInTime(h, n);
      if n != Patience(h.botTimer) { WaitingTickOfBot(h, e.pick, e.fleet, n); }
      else if n > 1 { CountingTick(h, e.pick, e.fleet, n); }
      else { ShootingTick(h, e.pick, e.fleet, n); }
    } else {
      InputChangesNothing(h, e, n);
    }
  }

  lemma PatienceInTime(h: HostState, n: int)
    requires BotIn(h, n)
    ensures Patience(h.botTimer) >= 1
  {
  }

  // ---------------------------------------------------------------------------------------------
  // Runs
  // ---------------------------------------------------------------------------------------------

  /** Fewer ticks than the bot waits leave it waiting, whatever the players do, and change no board. */
  lemma {:induction false} BotHoldsUntil(run: seq<HostState>, es: seq<Event>, k: nat, m: nat, n: int)
    requires IsRun(run, es) && k + m <= |es| && BotIn(run[k], n) && Ticks(es, k, k + m) < n
    ensures BotIn(run[k + m], n - Ticks(es, k, k + m)) && SameBoards(run[k], run[k + m])
  {
    hide Inv, Init, Enabled, Apply, Steps, BotIn, ShotAndThen;
    if m > 0 {
      var j := k + m - 1;
      StepInRun(run, es, j);
      BotHoldsUntil(run, es, k, m - 1, n);
      BotStep(run[j], es[j], n - Ticks(es, k, j));
    }
  }

  /** The bot shoots with the last of these ticks, at a fresh cell of player 1's board, and what comes next comes on
      time, too. */
  lemma BotShootsOnTime(run: seq<HostState>, es: seq<Event>, k: nat, m: nat, n: int)
    requires IsRun(run, es) && k + m < |es| && es[k + m].TickEvent?
    requires BotIn(run[k], n) && Ticks(es, k, k + m) + 1 == n
    ensures ShotAndThen(run[k + m], run[k + m + 1]) && SameBoards(run[k], run[k + m])
  {
    hide Inv, Init, Enabled, Apply, Steps, BotIn, ShotAndThen;
    StepInRun(run, es, k + m);
    BotHoldsUntil(run, es, k, m, n);
    BotStep(run[k + m], es[k + m], 1);
  }

  /** In the bot's turn, with nothing shown and no pause after a miss: the bot shoots with tick number 30 less what its
      timer has counted, at once if that is 29 or more, and with no tick before. */
  lemma BotShootsInItsTurn(run: seq<HostState>, es: seq<Event>, k: nat, m: nat)
    requires IsRun(run, es) && k + m < |es| && es[k + m].TickEvent?
    requires var h := run[k]; h.single && h.tag == TurnP2 && !Unresolved(h.expl) && !h.postWait
    requires Ticks(es, k, k + m) + 1 == if run[k].botTimer >= 29 then 1 else 30 - run[k].botTimer
    ensures SameBoards(run[k], run[k + m])
    ensures var r := run[k + m + 1]; exists c :: ShootsAt(run[k], r, c)
  {
    EveryStateSafe(run, es, k);
    var n := Ticks(es, k, k + m) + 1;
    IdleBot(run[k], n);
    hide IsRun, BotIn, Running, AllSunk, ShootsAt;
    BotShootsOnTime(run, es, k, m, n);
    var c :| ShootsAt(run[k + m], run[k + m + 1], c);
    SameShot(run[k], run[k + m], run[k + m + 1], c);
  }

  lemma IdleBot(h: HostState, n: int)
    requires Inv(h) && h.single && h.tag == TurnP2 && !Unresolved(h.expl) && !h.postWait
    requires n == if h.botTimer >= 29 then 1 else 30 - h.botTimer
    ensures BotIn(h, n)
  {
    hide GoodBoard, BotKnows;
  }

  lemma SameShot(h: HostState, b: HostState, r: HostState, c: Cell)
    requires SameBoards(h, b) && ShootsAt(b, r, c)
    ensures ShootsAt(h, r, c)
  {
  }

  // ---------------------------------------------------------------------------------------------
  // The bot places its ships
  // ---------------------------------------------------------------------------------------------

  /** The bot is to place its ships, in `n` ticks, those in a pause not counted. */
  predicate PlacesIn(h: HostState, n: int) {
    h.single && Active(h) == PlaceP2 && n == if h.botTimer >= 59 then 1 else 60 - h.botTimer
  }

  /** It has placed all five, and the countdown runs. */
  ghost predicate HasPlaced(h: HostState, r: HostState) {
    && r.p1 == h.p1 && FullFleet(FleetOf(r.p2)) && r.p2 == BoardOf(FleetOf(r.p2), {})
    && Running(r, 150, TurnP1)
  }

  lemma BotPlacesNow(h: HostState, pick: Cell, fleet: seq<Placement>, b: HostState)
    requires Inv(h) && FairDraws(h, pick, fleet) && b == BeforeBot(h) && BotPlaces(b) && !EndsNow(h)
    ensures var r := Tick(h, pick, fleet);
            && r.p1 == b.p1 && r.p2 == BoardOf(fleet, {}) && r.tag == Counting
            && r.cdSeconds == COUNTDOWN_START && r.cdTicks == 0 && r.postWait == b.postWait && r.expl == Animate(b.expl)
  {
    BeforeBotKeeps(h);
    BotAims(b, pick, fleet);
    hide GoodBoard, BotKnows, BeforeBot, Control, Animate, AsByte, EndsNow, BoardOf;
  }

  lemma BotBidesItsTime(h: HostState, pick: Cell, fleet: seq<Placement>, b: HostState)
    requires Inv(h) && FairDraws(h, pick, fleet) && b == BeforeBot(h) && b.tag == PlaceP2 && b.single && !BotPlaces(b)
    requires !EndsNow(h)
    ensures Tick(h, pick, fleet) == b.(botTimer := AsByte(b.botTimer + 1), expl := Animate(b.expl))
  {
    BotCountsOnly(b, pick, fleet);
    hide GoodBoard, BotKnows, BeforeBot, Control, Animate, AsByte, EndsNow, TickBot, BotFires, BotPlaces, FairDraws;
  }

  lemma BotCountsOnly(b: HostState, pick: Cell, fleet: seq<Placement>)
    requires b.tag == PlaceP2 && b.single && !BotPlaces(b)
    ensures !BotFires(b) && TickBot(b, pick, fleet) == b.(botTimer := AsByte(b.botTimer + 1))
  {
    hide AsByte, BoardOf;
  }

  /** Before the bot places its ships the clocks are idle. */
  lemma ClocksIdle(h: HostState)
    requires Control(h) && h.tag == PlaceP2
    ensures var b := BeforeBot(h);
            && b.tag == PlaceP2 && b.single && h.single && b.p1 == h.p1 && b.p2 == h.p2 && b.botTimer == h.botTimer < 60
            && !b.postWait && Animate(b.expl) == b.expl && !EndsNow(h)
  {
    StagesAre(h);
    assert TickCountdown(h) == h && TickResolve(h) == h && TickPostAttack(h) == h && TickHandover(h) == h;
    hide TickCountdown, TickResolve, TickPostAttack, TickHandover, BeforeBot, EndsNow;
  }

  lemma CountdownBegins(r: HostState)
    requires Control(r) && r.tag == Counting && r.cdSeconds == COUNTDOWN_START && r.cdTicks == 0
    ensures Running(r, 150, TurnP1)
  {
  }

  lemma LiveTickOfPlacing(h: HostState, pick: Cell, fleet: seq<Placement>, n: int)
    requires Inv(h) && FairDraws(h, pick, fleet) && h.tag == PlaceP2 && PlacesIn(h, n)
    ensures var r := Tick(h, pick, fleet); if n == 1 then HasPlaced(h, r) else PlacesIn(r, n - 1) && SameBoards(h, r)
  {
    assert Control(h);
    hide Inv, Control, BeforeBot, Tick, EndsNow, Animate, FairDraws, HasPlaced;
    ClocksIdle(h);
    if n == 1 {
      LastTickOfPlacing(h, pick, fleet);
    } else {
      hide Active, BotPlaces;
      StillWaiting(h, BeforeBot(h), n);
      BotBidesItsTime(h, pick, fleet, BeforeBot(h));
    }
  }

  lemma StillWaiting(h: HostState, b: HostState, n: int)
    requires PlacesIn(h, n) && n > 1 && b.tag == PlaceP2 && b.single && SameBoards(h, b) && b.botTimer == h.botTimer
    ensures !BotPlaces(b)
    ensures var r := b.(botTimer := AsByte(b.botTimer + 1), expl := Animate(b.expl)); PlacesIn(r, n - 1) && SameBoards(h, r)
  {
    hide Animate;
  }

  lemma LastTickOfPlacing(h: HostState, pick: Cell, fleet: seq<Placement>)
    requires Inv(h) && FairDraws(h, pick, fleet) && BotPlaces(BeforeBot(h)) && !EndsNow(h) && BeforeBot(h).p1 == h.p1
    ensures HasPlaced(h, Tick(h, pick, fleet))
  {
    var b, r := BeforeBot(h), Tick(h, pick, fleet);
    assert FullFleet(fleet);
    hide FairDraws, Tick, BeforeBot, EndsNow, Animate, BotPlaces, Running;
    TickKeeps(h, pick, fleet);
    assert Control(r);
    hide Inv, Control;
    BotPlacesNow(h, pick, fleet, b);
    CountdownBegins(r);
    FreshFleet(fleet);
    hide BoardOf;
  }

  /** The ship of player 1's choice aside, no input changes a board here. */
  lemma InputInPlacing(h: HostState, e: Event, n: int)
    requires Inv(h) && Enabled(h, e) && !e.TickEvent? && PlacesIn(h, n)
    ensures var r := Apply(h, e); PlacesIn(r, n) && SameBoards(h, r)
  {
    hide Inv, HandleKey, HandleMouse, HandleMsg, CursorSafe, MsgOk, PlacesForBot;
    InputSafe(h);
    if h.tag == Paused {
      PausedOnce(h);
      StepInPause(h, e);
    } else {
      match e
      case KeyEvent(code, make) => KeyBeforePlacing(h, code, make);
      case MouseMove(m) => MouseBeforePlacing(h, m);
      case Incoming(msg) => MsgKeeps(h, msg); MsgBeforePlacing(h, msg);
    }
  }

  lemma KeyBeforePlacing(h: HostState, code: KeyCode, make: bool)
    requires CursorSafe(h) && h.tag == PlaceP2 && !PlacesForBot(h, code, make)
    ensures var r := HandleKey(h, code, make);
            SameBoards(h, r) && Active(r) == PlaceP2 && r.botTimer == h.botTimer && r.single == h.single
  {
    hide CommitForBot, MovePlaceCursor, CanPlace;
  }

  lemma MouseBeforePlacing(h: HostState, m: MouseEvent)
    requires CursorSafe(h) && MouseOk(m) && h.tag == PlaceP2
    ensures HandleMouse(h, m) == h
  {
  }

  lemma MsgBeforePlacing(h: HostState, m: Msg)
    requires MsgOk(h, m) && h.tag == PlaceP2
    ensures var r := HandleMsg(h, m);
            r == h.(connected := r.connected, remoteReady := r.remoteReady, remote := r.remote, over := r.over, sent := r.sent)
  {
  }

  lemma PlacingStepOfBot(h: HostState, e: Event, n: int)
    requires Inv(h) && Enabled(h, e) && PlacesIn(h, n)
    ensures var r := Apply(h, e);
            if Live(h, e) && n == 1 then HasPlaced(h, r) else PlacesIn(r, n - LiveCount(h, e)) && SameBoards(h, r)
  {
    hide Inv, Enabled, Apply, Tick, FairDraws, HasPlaced;
    if e.TickEvent? {
      TickIs(h, e);
      if h.tag == Paused {
        PausedOnce(h);
        StepInPause(h, e);
      } else {
        LiveTickOfPlacing(h, e.pick, e.fleet, n);
      }
    } else {
      InputInPlacing(h, e, n);
    }
  }

  lemma {:induction false} BotPlacesNotEarly(run: seq<HostState>, es: seq<Event>, k: nat, m: nat, n: int)
    requires IsRun(run, es) && k + m <= |es| && PlacesIn(run[k], n) && LiveTicks(run, es, k, k + m) < n
    ensures PlacesIn(run[k + m], n - LiveTicks(run, es, k, k + m)) && SameBoards(run[k], run[k + m])
  {
    hide Inv, Init, Enabled, Apply, Steps, PlacesIn, HasPlaced, Live;
    if m > 0 {
      var j := k + m - 1;
      StepInRun(run, es, j);
      BotPlacesNotEarly(run, es, k, m - 1, n);
      PlacingStepOfBot(run[j], es[j], n - LiveTicks(run, es, k, j));
    }
  }

  /** The bot places all its ships in the 60th tick after player 1's last, those in a pause not counted, and 150 ticks
      later the first turn begins. */
  lemma BotPlacesOnTime(run: seq<HostState>, es: seq<Event>, k: nat, m: nat, n: int)
    requires IsRun(run, es) && k + m < |es| && PlacesIn(run[k], n)
    requires Live(run[k + m], es[k + m]) && LiveTicks(run, es, k, k + m) + 1 == n
    ensures HasPlaced(run[k], run[k + m + 1])
  {
    hide Inv, Init, Enabled, Apply, Steps, PlacesIn, HasPlaced, Live;
    StepInRun(run, es, k + m);
    BotPlacesNotEarly(run, es, k, m, n);
    PlacingStepOfBot(run[k + m], es[k + m], 1);
    SamePlaced(run[k], run[k + m], run[k + m + 1]);
  }

  lemma SamePlaced(h: HostState, b: HostState, r: HostState)
    requires SameBoards(h, b) && HasPlaced(b, r)
    ensures HasPlaced(h, r)
  {
  }
}
