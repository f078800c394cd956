/** Battles on the host: one shot at a time, each at a cell that was never attacked, and only so many. */
module HostShots {
  import opened Boards
  import opened Protocol
  import opened Explosion
  import opened Host
  import opened HostControl
  import opened HostSteps
  import opened HostRuns
  import opened HostPause
  import H = Hunt
  import R = Rays
  import HR = HuntRuns

  predicate InBattle(h: HostState) {
    h.tag == Counting || Battle(Active(h))
  }

  predicate SameBoards(h: HostState, r: HostState) {
    r.p1 == h.p1 && r.p2 == h.p2
  }

  /** A shot at the fresh cell `c`, fired by the player whose turn it is, and by player 1 and the bot only when
      no earlier shot is shown; the other board is left alone, and the shot's explosion is now pending. */
  predicate Fires(h: HostState, r: HostState, c: Cell) {
    && InGrid(c) && Unresolved(r.expl) && r.expl.at == c
    && (r.tag == TurnP1 || h.single ==> !IsExploding(h.expl))
    && if r.tag == TurnP1
       then h.tag == TurnP1 && R.IsFresh(h.p2.grid, c) && r.p2 == Attack(h.p2, c) && r.p1 == h.p1
       else r.tag == TurnP2 && R.IsFresh(h.p1.grid, c) && r.p1 == Attack(h.p1, c) && r.p2 == h.p2
  }

  ghost predicate BoardsStep(h: HostState, r: HostState) {
    SameBoards(h, r) || exists c :: Fires(h, r, c)
  }

  lemma FireShoots(h: HostState, c: Cell)
    requires h.tag == TurnP1 && !InputBlocked(h) && InGrid(c) && c in h.p2.grid
    ensures BoardsStep(h, FireAt(h, c))
    ensures FireAt(h, c).tag == TurnP1
  {
    if !Attacked(h.p2.grid[c]) { assert Fires(h, FireAt(h, c), c); }
  }

  lemma KeyElsewhere(h: HostState, code: KeyCode, make: bool)
    requires CursorSafe(h) && InBattle(h) && HandleKey(h, code, make).tag != MainMenu
    requires h.tag == TurnP1 ==> InputBlocked(h)
    ensures SameBoards(h, HandleKey(h, code, make))
  {
    if h.tag == Paused {
      hide HandleKey;
      KeyInPause(h, code, make);
    } else {
      assert h.tag != MainMenu && h.tag != Instructions && h.tag != PlaceP1 && h.tag != PlaceP2;
      hide CursorSafe, InBattle, MenuChoice, CommitShip, CommitForBot, FireAt, InitialBoard, InputBlocked, MovePlaceCursor, MoveTurnCursor;
    }
  }

  lemma KeyShoots(h: HostState, code: KeyCode, make: bool)
    requires CursorSafe(h) && InBattle(h) && HandleKey(h, code, make).tag != MainMenu
    ensures BoardsStep(h, HandleKey(h, code, make))
  {
    hide MenuChoice, CommitShip, FireAt;
    if h.tag == TurnP1 && !InputBlocked(h) {
      FireShoots(h, Cell(h.data.w1, h.data.w2));
    } else {
      KeyElsewhere(h, code, make);
      hide HandleKey;
    }
  }

  lemma MouseShoots(h: HostState, m: MouseEvent)
    requires CursorSafe(h) && MouseOk(m) && InBattle(h)
    ensures BoardsStep(h, HandleMouse(h, m))
  {
    hide MenuChoice, CommitShip, FireAt;
    if h.tag == TurnP1 && !InputBlocked(h) {
      var d := if m.moved && m.over.Some? then h.data.(w1 := m.over.value.col, w2 := m.over.value.row) else h.data;
      var h' := h.(data := d);
      FireShoots(h', Cell(d.w1, d.w2));
      MovedCursorShoots(h, d, FireAt(h', Cell(d.w1, d.w2)));
    } else {
      assert SameBoards(h, HandleMouse(h, m));
    }
  }

  /** Where the cursor was does not matter. */
  lemma MovedCursorShoots(h: HostState, d: Words, r: HostState)
    requires BoardsStep(h.(data := d), r)
    ensures BoardsStep(h, r)
  {
    if c :| Fires(h.(data := d), r, c) { assert Fires(h, r, c); }
  }

  lemma MsgShoots(h: HostState, m: Msg)
    requires MsgOk(h, m) && InBattle(h)
    ensures m.AttackMsg? && h.tag == TurnP2 ==> Cell(m.col, m.row) in h.p1.grid
    ensures BoardsStep(h, HandleMsg(h, m))
  {
    var r := HandleMsg(h, m);
    if m.AttackMsg? && h.tag == TurnP2 && !Attacked(h.p1.grid[Cell(m.col, m.row)]) {
      assert Fires(h, r, Cell(m.col, m.row));
    } else {
      assert SameBoards(h, r);
    }
  }

  /** The clock stages leave a running explosion running. */
  lemma ExplosionBeforeBot(h: HostState)
    requires Control(h)
    ensures IsExploding(BeforeBot(h).expl) == IsExploding(h.expl)
  {
    CountdownKeeps(h);
    ResolveKeeps(TickCountdown(h));
    hide Control, TickCountdown, TickResolve, TickPostAttack, TickHandover, TickCursor;
  }

  lemma BotShotFires(b: HostState, pick: Cell, c: Cell)
    requires BotFires(b) && (forall x :: x in b.p1.grid ==> InGrid(x))
    requires c == H.Choose(b.bot, b.p1.grid, pick).curr && R.IsFresh(b.p1.grid, c)
    ensures Fires(b, BotShot(b, pick), c)
  {
    hide H.Choose, H.Register;
  }

  /** Neither the stages before nor the animation behind it hide a shot. */
  lemma StillFires(h: HostState, b: HostState, s: HostState, r: HostState, c: Cell)
    requires Fires(b, s, c) && s.tag == TurnP2 && s.expl.exploding
    requires SameArena(h, b) && IsExploding(b.expl) == IsExploding(h.expl)
    requires r == s.(expl := Animate(s.expl))
    ensures Fires(h, r, c)
  {
  }

  /** The bot fires only when no shot is pending, at a cell that was never attacked. */
  lemma BotHoldsFire(h: HostState, pick: Cell, fleet: seq<Placement>)
    requires Inv(h) && FairDraws(h, pick, fleet)
    requires !EndsNow(h) && BotFires(BeforeBot(h))
    ensures var b, r := BeforeBot(h), Tick(h, pick, fleet);
            && b.tag == TurnP2 && !Unresolved(b.expl) && !b.postWait
            && exists c :: Fires(h, r, c)
  {
    BeforeBotKeeps(h);
    BotAims(BeforeBot(h), pick, fleet);
    FiringTick(h, pick, fleet);
    ExplosionBeforeBot(h);
    var b, r := BeforeBot(h), Tick(h, pick, fleet);
    var c := H.Choose(b.bot, b.p1.grid, pick).curr;
    hide Control, BeforeBot, Tick, H.Choose, H.Register, Animate, GoodBoard, BotKnows;
    BotShotFires(b, pick, c);
    StillFires(h, b, BotShot(b, pick), r, c);
  }

  /** What the bot does with a result: a sunk ship ends the hunt, the first hit of a hunt begins a search around its cell,
      a second one the pursuit, and a pursuit goes on until the ship is sunk. */
  predicate Learns(fired: H.BotState, bot: H.BotState, hit: bool, sunk: bool) {
    if sunk then bot.mode == H.Random
    else match fired.mode
      case Random => if hit then bot.mode == H.SearchDir && bot.first == fired.curr else bot.mode == H.Random
      case SearchDir => bot.first == fired.first && (hit ==> bot.mode == H.Destroy)
      case Destroy => bot.first == fired.first && bot.mode == H.Destroy
  }

  lemma RegisterLearns(fired: H.BotState, hit: bool, sunk: bool)
    ensures Learns(fired, H.Register(fired, hit, sunk), hit, sunk)
  {
  }

  /** What a whole hunt promises also holds for every shot of the bot in every run of the host: it goes to a fresh
      cell, search mode never gives up, destroy mode does exactly when both ends of its run of hits are closed,
      and a pursuit keeps its axis. */
  lemma BotHuntsInRuns(run: seq<HostState>, es: seq<Event>, k: nat)
    requires IsRun(run, es) && k < |es| && es[k].TickEvent? && Inv(run[k])
    requires !EndsNow(run[k]) && BotFires(BeforeBot(run[k]))
    ensures var b, r := BeforeBot(run[k]), run[k + 1];
            && (forall x :: x in b.p1.grid ==> InGrid(x))
            && var fired := H.Choose(b.bot, b.p1.grid, es[k].pick);
               && R.IsFresh(b.p1.grid, fired.curr) && r.p1 == Attack(b.p1, fired.curr)
               && (b.bot.mode == H.SearchDir ==>
                     && fired.mode == H.SearchDir
                     && r.bot.mode == (if H.ReadsSunk(r.p1, fired.curr) then H.Random
                                       else if H.ReadsHit(r.p1, fired.curr) then H.Destroy else H.SearchDir))
               && (b.bot.mode == H.Destroy ==>
                     (fired.mode == H.Random <==>
                        !R.Open(b.p1.grid, b.bot.first, b.bot.dir) && !R.Open(b.p1.grid, b.bot.first, R.Opposite(b.bot.dir))))
               && (b.bot.mode == H.Destroy && r.bot.mode == H.Destroy ==> r.bot.dir % 2 == b.bot.dir % 2)
               && Learns(fired, r.bot, H.ReadsHit(r.p1, fired.curr), H.ReadsSunk(r.p1, fired.curr))
  {
    var h, pick := run[k], es[k].pick;
    StepInRun(run, es, k);
    BeforeBotKeeps(h);
    BotAims(BeforeBot(h), pick, es[k].fleet);
    FiringTick(h, pick, es[k].fleet);
    var b := BeforeBot(h);
    hide IsRun, Control, BeforeBot, EndsNow, Tick, Animate, H.Choose, H.Register, Attack;
    ShotIsRound(b, pick);
    FiredInHunt(b, pick);
    ShotIsLearned(b, pick);
  }

  lemma ShotIsLearned(b: HostState, pick: Cell)
    requires (forall x :: x in b.p1.grid ==> InGrid(x)) && H.Choose(b.bot, b.p1.grid, pick).curr in b.p1.grid
    ensures var s, fired := BotShot(b, pick), H.Choose(b.bot, b.p1.grid, pick);
            Learns(fired, s.bot, H.ReadsHit(s.p1, fired.curr), H.ReadsSunk(s.p1, fired.curr))
  {
    var fired := H.Choose(b.bot, b.p1.grid, pick);
    var p1 := Attack(b.p1, fired.curr);
    RegisterLearns(fired, H.ReadsHit(p1, fired.curr), H.ReadsSunk(p1, fired.curr));
    hide H.Choose, H.Register, Attack, Learns;
  }

  lemma ShotIsRound(b: HostState, pick: Cell)
    requires (forall x :: x in b.p1.grid <==> InGrid(x)) && InGrid(H.Choose(b.bot, b.p1.grid, pick).curr)
    ensures var s, r := BotShot(b, pick), H.Round(H.Hunter(b.bot, b.p1, 0), pick);
            s.bot == r.bot && s.p1 == r.board && s.p1 == Attack(b.p1, H.Choose(b.bot, b.p1.grid, pick).curr)
  {
    hide H.Choose, H.Register, Attack;
  }

  lemma FiredInHunt(b: HostState, pick: Cell)
    requires Inv(b) && InGame(Active(b)) && R.IsFresh(b.p1.grid, pick)
    requires (forall x :: x in b.p1.grid <==> InGrid(x)) && InGrid(H.Choose(b.bot, b.p1.grid, pick).curr)
    ensures var h0, g := H.Hunter(b.bot, b.p1, 0), b.p1.grid;
            var fired, r := H.Choose(b.bot, g, pick), H.Round(h0, pick);
            && R.IsFresh(g, fired.curr)
            && (b.bot.mode == H.SearchDir ==>
                  && fired.mode == H.SearchDir
                  && r.bot.mode == (if H.ReadsSunk(r.board, fired.curr) then H.Random
                                    else if H.ReadsHit(r.board, fired.curr) then H.Destroy else H.SearchDir))
            && (b.bot.mode == H.Destroy ==>
                  (fired.mode == H.Random <==>
                     !R.Open(g, b.bot.first, b.bot.dir) && !R.Open(g, b.bot.first, R.Opposite(b.bot.dir))))
            && (b.bot.mode == H.Destroy && r.bot.mode == H.Destroy ==> r.bot.dir % 2 == b.bot.dir % 2)
  {
    var h0 := H.Hunter(b.bot, b.p1, 0);
    assert H.Tracking(h0);
    H.ChooseIsSound(h0, pick);
    H.RoundKeepsTracking(h0, pick);
    if b.bot.mode == H.SearchDir { H.RoundInSearch(h0, pick); }
    hide Inv, H.Tracking, H.Choose, H.Round;
  }

  lemma TickShoots(h: HostState, pick: Cell, fleet: seq<Placement>)
    requires Inv(h) && FairDraws(h, pick, fleet) && InBattle(h)
    ensures BoardsStep(h, Tick(h, pick, fleet))
  {
    BeforeBotKeeps(h);
    var b := BeforeBot(h);
    BotAims(b, pick, fleet);
    BeforeBotFlows(h);
    if !EndsNow(h) && BotFires(b) {
      BotHoldsFire(h, pick, fleet);
    } else {
      hide Control, BeforeBot, GoodBoard, BotKnows, Animate;
      assert !BotPlaces(b);
      assert SameBoards(h, Tick(h, pick, fleet));
    }
  }

  /** In a battle an event either leaves both boards alone or is one shot. */
  lemma EventShoots(h: HostState, e: Event)
    requires Inv(h) && Enabled(h, e) && InBattle(h) && Apply(h, e).tag != MainMenu
    ensures BoardsStep(h, Apply(h, e))
  {
    InputSafe(h);
    hide Inv, Tick, HandleKey, HandleMouse, HandleMsg, CursorSafe, BoardsStep, InBattle;
    match e
    case TickEvent(pick, fleet) => TickShoots(h, pick, fleet);
    case KeyEvent(code, make) => KeyShoots(h, code, make);
    case MouseMove(m) => MouseShoots(h, m);
    case Incoming(msg) => MsgKeeps(h, msg); MsgShoots(h, msg);
  }

  // ---------------------------------------------------------------------------------------------
  // Runs
  // ---------------------------------------------------------------------------------------------

  /** The states from `k` to `n` belong to one battle. */
  predicate BattleFrom(run: seq<HostState>, k: nat, n: nat)
    requires n < |run|
  {
    forall j :: k <= j <= n ==> InBattle(run[j])
  }

  ghost function ShotCount(h: HostState): nat {
    |ShotsOf(h.p1)| + |ShotsOf(h.p2)|
  }

  /** The number of steps from `k` to `n` in which a shot is fired. */
  function ShotsFired(run: seq<HostState>, k: nat, n: nat): nat
    requires k <= n < |run|
    decreases n
  {
    if k == n then 0 else ShotsFired(run, k, n - 1) + if SameBoards(run[n - 1], run[n]) then 0 else 1
  }

  lemma GoodGrid(b: BoardState)
    requires GoodBoard(b)
    ensures FullGrid(b.grid)
  {
  }

  lemma OneShotMore(b: BoardState, c: Cell)
    requires GoodBoard(b) && InGrid(c) && R.IsFresh(b.grid, c)
    ensures FleetOf(Attack(b, c)) == FleetOf(b) && |ShotsOf(Attack(b, c))| == |ShotsOf(b)| + 1
    ensures Attack(b, c) != b
  {
    GoodShot(b, c);
    assert c !in ShotsOf(b);
  }

  lemma StepCounts(h: HostState, e: Event)
    requires Inv(h) && Enabled(h, e) && InBattle(h) && InBattle(Apply(h, e))
    ensures var r := Apply(h, e);
            && FleetOf(r.p1) == FleetOf(h.p1) && FleetOf(r.p2) == FleetOf(h.p2)
            && ShotCount(r) == ShotCount(h) + if SameBoards(h, r) then 0 else 1
  {
    EventShoots(h, e);
    var r := Apply(h, e);
    if c :| Fires(h, r, c) && !SameBoards(h, r) {
      hide GoodBoard, Apply, Enabled, Attack, ShotsOf, FleetOf;
      if r.tag == TurnP1 { OneShotMore(h.p2, c); } else { OneShotMore(h.p1, c); }
    }
  }

  lemma {:induction false} ShotsAddUp(run: seq<HostState>, es: seq<Event>, k: nat, n: nat)
    requires IsRun(run, es) && k <= n <= |es| && BattleFrom(run, k, n)
    ensures FleetOf(run[n].p1) == FleetOf(run[k].p1) && FleetOf(run[n].p2) == FleetOf(run[k].p2)
    ensures ShotCount(run[n]) == ShotCount(run[k]) + ShotsFired(run, k, n)
    decreases n
  {
    hide Inv, Init, Enabled, Apply, Steps, InBattle, SameBoards, ShotCount;
    if k < n {
      ShotsAddUp(run, es, k, n - 1);
      StepInRun(run, es, n - 1);
      assert InBattle(run[n - 1]) && InBattle(run[n]);
      StepCounts(run[n - 1], es[n - 1]);
    }
  }

  lemma NoMoreThanCells(b: BoardState)
    requires GoodBoard(b)
    ensures |ShotsOf(b)| <= COLS * ROWS
  {
    GoodGrid(b);
    HR.GridSize();
    HR.SubsetNotLarger(ShotsOf(b), AllCells());
  }

  /** A battle keeps the fleets, no cell is shot twice, and no board takes more shots than it has cells:
      of whatever length, a battle has at most 200 shots. */
  lemma BattleIsFinite(run: seq<HostState>, es: seq<Event>, k: nat, n: nat)
    requires IsRun(run, es) && k <= n <= |es| && BattleFrom(run, k, n)
    ensures FleetOf(run[n].p1) == FleetOf(run[k].p1) && FleetOf(run[n].p2) == FleetOf(run[k].p2)
    ensures |ShotsOf(run[n].p1)| <= COLS * ROWS && |ShotsOf(run[n].p2)| <= COLS * ROWS
    ensures ShotsFired(run, k, n) <= 2 * COLS * ROWS
  {
    ShotsAddUp(run, es, k, n);
    EveryStateSafe(run, es, n);
    NoMoreThanCells(run[n].p1);
    NoMoreThanCells(run[n].p2);
  }
}
