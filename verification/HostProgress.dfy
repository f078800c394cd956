/** Bounded progress: once the clock alone decides, the next turn begins after an exact number of ticks,
    whatever the players do. */
module HostProgress {
  import opened Boards
  import opened Protocol
  import opened Explosion
  import opened Host
  import opened HostControl
  import opened HostSteps
  import opened HostRuns
  import H = Hunt

  /** The countdown, a handover, the pause after a miss, or a miss of the bot being shown. For players the
      list begins with the pause: until then a further shot may replace the one shown. */
  predicate Ending(h: HostState) {
    || h.tag == Counting || h.tag == HandoverP1 || h.tag == HandoverP2
    || h.postWait
    || (h.tag == TurnP2 && h.single && Unresolved(h.expl) && !h.expl.isHit && !AllSunk(h.p1))
  }

  /** The ticks until the next turn. */
  function Remaining(h: HostState): int
    requires Ending(h) && Paced(h.expl)
  {
    if h.tag == Counting then TICKS_PER_SEC * (h.cdSeconds - 1) + TICKS_PER_SEC - h.cdTicks
    else if h.tag == HandoverP1 || h.tag == HandoverP2 then TICKS_PER_SEC - h.cdTicks
    else if h.postWait then POST_ATTACK_WAIT_TICKS - h.postTicks + TICKS_PER_SEC - 1
    else TicksLeft(h.expl) + POST_ATTACK_WAIT_TICKS + TICKS_PER_SEC - 1
  }

  /** The turn that is coming. */
  function Coming(h: HostState): Tag {
    if h.tag == HandoverP2 || h.tag == TurnP1 then TurnP2 else TurnP1
  }

  /** One tick nearer, or there. */
  predicate OneTickNearer(h: HostState, h': HostState)
    requires Ending(h) && Paced(h.expl)
  {
    if Remaining(h) == 1 then h'.tag == Coming(h)
    else Ending(h') && Paced(h'.expl) && Remaining(h') == Remaining(h) - 1 && Coming(h') == Coming(h)
  }

  lemma CountingNearer(h: HostState)
    requires h.tag == Counting && Paced(h.expl) && 1 <= h.cdSeconds <= COUNTDOWN_START && h.cdTicks < TICKS_PER_SEC
    ensures OneTickNearer(h, TickCountdown(h))
    ensures var a := TickCountdown(h); a.expl == h.expl && a.postWait == h.postWait && (a.tag == Counting || a.tag == TurnP1)
  {
    CountdownShape(h);
    CountdownCounts(h);
    hide TickCountdown, AsByte, Paced, TicksLeft, AllSunk;
  }

  lemma CountdownCounts(h: HostState)
    requires h.tag == Counting && 1 <= h.cdSeconds <= COUNTDOWN_START && h.cdTicks < TICKS_PER_SEC
    ensures var a := TickCountdown(h);
            if h.cdTicks + 1 < TICKS_PER_SEC then a.tag == Counting && a.cdTicks == h.cdTicks + 1 && a.cdSeconds == h.cdSeconds
            else if h.cdSeconds == 1 then a.tag == TurnP1
            else a.tag == Counting && a.cdTicks == 0 && a.cdSeconds == h.cdSeconds - 1
  {
    assert AsByte(h.cdSeconds - 1) == h.cdSeconds - 1;
    hide AsByte, IfMulti;
  }

  lemma CountingStages(h: HostState)
    requires h.tag == Counting && !h.postWait && !h.expl.finished && Paced(h.expl)
    requires 1 <= h.cdSeconds <= COUNTDOWN_START && h.cdTicks < TICKS_PER_SEC
    ensures var a := TickCountdown(h);
            TickResolve(a) == a && TickPostAttack(a) == a && TickHandover(a) == a && OneTickNearer(h, TickCursor(a))
            && TickCursor(a).expl == h.expl && !TickCursor(a).postWait
  {
    CountingNearer(h);
    hide TickCountdown;
  }

  lemma HandoverStages(h: HostState)
    requires (h.tag == HandoverP1 || h.tag == HandoverP2) && !h.postWait && h.cdTicks < TICKS_PER_SEC && Paced(h.expl)
    ensures var a := TickHandover(h);
            OneTickNearer(h, TickCursor(a)) && TickCursor(a).expl == h.expl && !TickCursor(a).postWait
  {
  }

  lemma PauseStages(h: HostState)
    requires h.postWait && InTurn(h) && h.postTicks < POST_ATTACK_WAIT_TICKS && Paced(h.expl)
    ensures var a := TickHandover(TickPostAttack(h));
            OneTickNearer(h, TickCursor(a)) && TickCursor(a).expl == h.expl && (TickCursor(a).tag == TurnP2 ==> TickCursor(a).postWait)
  {
    hide Paced, TicksLeft, AllSunk;
    var p := TickPostAttack(h);
    if h.postTicks + 1 == POST_ATTACK_WAIT_TICKS {
      assert p.cdTicks == 0 && (p.tag == HandoverP1 || p.tag == HandoverP2) && !p.postWait;
    } else {
      assert p == h.(postTicks := h.postTicks + 1) && TickHandover(p) == p;
    }
  }

  /** Which stages act on a countdown, a handover or a pause. */
  lemma ClockActs(h: HostState)
    requires Control(h) && Ending(h) && (h.tag == TurnP2 ==> h.postWait)
    ensures BeforeBot(h) == TickCursor(if h.tag == Counting then TickCountdown(h) else TickHandover(TickPostAttack(h)))
    ensures !EndsNow(h)
    ensures !h.postWait ==> TickPostAttack(h) == h
  {
    StagesAre(h);
    ClockFacts(h);
    NoEndNow(h);
    hide Control, OneTickNearer, TickCountdown, TickResolve, TickHandover, TickCursor, BeforeBot, EndsNow;
    if h.tag == Counting { CountingStages(h); }
  }

  lemma NoEndNow(h: HostState)
    requires Control(h) && Ending(h) && (h.tag == TurnP2 ==> h.postWait)
    ensures !EndsNow(h) && (h.tag == Counting ==> TickHandover(h) == h)
  {
    ClockFacts(h);
    StagesAre(h);
    if h.tag == Counting { CountingStages(h); }
    hide Control, OneTickNearer, TickCountdown, TickResolve, TickHandover, TickCursor, BeforeBot;
  }

  /** The clock stages, for a countdown, a handover or a pause. */
  lemma ClockTick(h: HostState)
    requires Control(h) && Ending(h) && (h.tag == TurnP2 ==> h.postWait)
    ensures var b := BeforeBot(h);
            OneTickNearer(h, b) && b.expl == h.expl && (b.tag == TurnP2 ==> b.postWait || Remaining(h) == 1) && !EndsNow(h)
  {
    ClockActs(h);
    ClockFacts(h);
    hide Control, BeforeBot, EndsNow, TickCountdown, TickPostAttack, TickHandover, TickCursor;
    if h.tag == Counting { CountingStages(h); }
    else if h.tag == HandoverP1 || h.tag == HandoverP2 { HandoverStages(h); }
    else { PauseStages(h); }
  }

  lemma ClockFacts(h: HostState)
    requires Control(h) && Ending(h) && (h.tag == TurnP2 ==> h.postWait)
    ensures h.postTicks < POST_ATTACK_WAIT_TICKS && h.cdTicks < TICKS_PER_SEC && Paced(h.expl)
    ensures h.tag == Counting ==> 1 <= h.cdSeconds <= COUNTDOWN_START && !h.expl.finished
    ensures if h.postWait then InTurn(h) else h.tag == Counting || h.tag == HandoverP1 || h.tag == HandoverP2
    ensures h.tag != Counting ==> TickResolve(TickCountdown(h)) == h
  {
    PauseOnlyInTurn(h);
    if h.tag == Counting { NothingPending(h); }
  }

  lemma ClockTickIsTick(h: HostState, pick: Cell, fleet: seq<Placement>)
    requires Inv(h) && FairDraws(h, pick, fleet) && Ending(h) && (h.tag == TurnP2 ==> h.postWait)
    ensures OneTickNearer(h, Tick(h, pick, fleet))
  {
    hide GoodBoard, BotKnows, BeforeBot, EndsNow, Tick, Animate, FairDraws, Ending, Remaining, Paced, TicksLeft;
    ClockTick(h);
    var b, t := BeforeBot(h), Tick(h, pick, fleet);
    assert Paced(h.expl) by { ClockFacts(h); }
    AnimatePaced(h.expl);
    NotYetPlaced(h);
    if b.tag == TurnP2 && !b.postWait {
      TagAfterBot(h, pick, fleet, b);
      LastTickIs(h, b, t);
    } else {
      TickWithoutBot(h, pick, fleet, b);
      NothingToAnimate(h, b);
    }
    hide Control;
  }

  lemma NotYetPlaced(h: HostState)
    requires Control(h) && Ending(h) && (h.tag == TurnP2 ==> h.postWait)
    ensures BeforeBot(h).tag != PlaceP2
  {
    ClockFacts(h);
    BeforeBotFlows(h);
    hide Control, BeforeBot;
  }

  lemma LastTickIs(h: HostState, b: HostState, t: HostState)
    requires Ending(h) && Paced(h.expl) && OneTickNearer(h, b) && b.tag == TurnP2 && Remaining(h) == 1 && t.tag == b.tag
    ensures OneTickNearer(h, t)
  {
  }

  /** The animation does not touch the clock. */
  lemma NothingToAnimate(h: HostState, b: HostState)
    requires Ending(h) && Paced(h.expl) && Paced(b.expl) && OneTickNearer(h, b) && (h.tag == TurnP2 ==> h.postWait)
    requires b.expl == h.expl && (b.tag == TurnP2 ==> b.postWait || Remaining(h) == 1)
    ensures OneTickNearer(h, b.(expl := Animate(b.expl)))
  {
    AnimatePaced(b.expl);
    hide Animate, TicksLeft, AllSunk;
  }

  /** The tick that reads a miss is the first of the pause after it. */
  lemma ReadingTick(h: HostState)
    requires Control(h) && InTurn(h) && h.expl.finished && !h.expl.isHit && !AllSunk(EnemyBoard(h)) && !h.postWait
    ensures var b := BeforeBot(h);
            b.expl == h.expl.(finished := false) && b.postWait && b.postTicks == 1 && b.tag == h.tag && !EndsNow(h)
  {
    assert CanResolve(h) && TickCountdown(h) == h;
    ReadFacts(h);
    StagesAre(h);
    hide Control, TickCountdown, TickResolve, TickPostAttack, TickHandover, TickCursor, BeforeBot, EndsNow, AllSunk;
    FirstTickOfPause(TickResolve(h));
  }

  /** The pause begins in the tick that reads the miss. */
  lemma FirstTickOfPause(r: HostState)
    requires InTurn(r) && r.postWait && r.postTicks == 0
    ensures var b := TickCursor(TickHandover(TickPostAttack(r)));
            b.expl == r.expl && b.postWait && b.postTicks == 1 && b.tag == r.tag
  {
    assert TickPostAttack(r) == r.(postTicks := 1);
    hide TickPostAttack, AsByte, IfMulti;
  }

  lemma ShowingTick(h: HostState)
    requires Control(h) && InTurn(h) && !h.expl.finished && !h.postWait
    ensures BeforeBot(h) == TickCursor(h) && !EndsNow(h)
  {
    CountdownKeeps(h);
    ResolveKeeps(h);
  }

  lemma ReadNearer(h: HostState, b: HostState)
    requires h.tag == TurnP2 && Ending(h) && h.expl.finished && !h.postWait && Paced(h.expl)
    requires b.tag == TurnP2 && b.postWait && b.postTicks == 1 && b.expl == h.expl.(finished := false)
    ensures OneTickNearer(h, b.(expl := Animate(b.expl)))
  {
    assert TicksLeft(h.expl) == 0 && Animate(b.expl) == b.expl;
    hide AllSunk, TicksLeft, Animate;
  }

  lemma ReadingTickIsTick(h: HostState, pick: Cell, fleet: seq<Placement>)
    requires Inv(h) && FairDraws(h, pick, fleet) && Ending(h) && h.tag == TurnP2 && h.expl.finished && !h.postWait
    ensures OneTickNearer(h, Tick(h, pick, fleet))
  {
    ReadingTick(h);
    var b := BeforeBot(h);
    TickWithoutBot(h, pick, fleet, b);
    assert Paced(h.expl);
    hide Inv, BeforeBot, Tick, OneTickNearer, Animate, EndsNow;
    ReadNearer(h, b);
  }

  lemma ShownNearer(h: HostState, cursorTick: byte, sent: seq<Msg>)
    requires h.tag == TurnP2 && h.single && IsExploding(h.expl) && !h.expl.isHit && !AllSunk(h.p1) && !h.postWait && Paced(h.expl)
    ensures OneTickNearer(h, h.(cursorTick := cursorTick, sent := sent, expl := Animate(h.expl)))
  {
    AnimatePaced(h.expl);
    hide Animate, AllSunk, TicksLeft;
  }

  lemma ShowingTickIsTick(h: HostState, pick: Cell, fleet: seq<Placement>)
    requires Inv(h) && FairDraws(h, pick, fleet) && Ending(h) && h.tag == TurnP2 && IsExploding(h.expl) && !h.postWait
    ensures OneTickNearer(h, Tick(h, pick, fleet))
  {
    assert Paced(h.expl);
    ShowingTick(h);
    var b := BeforeBot(h);
    hide Inv, BeforeBot, Tick, OneTickNearer, Animate, EndsNow, FairDraws, TickCursor, AllSunk, Paced;
    CursorsShape(h);
    TickWithoutBot(h, pick, fleet, b);
    ShownNearer(h, b.cursorTick, b.sent);
  }

  lemma CursorsShape(h: HostState)
    ensures TickCursor(h) == h.(cursorTick := TickCursor(h).cursorTick, sent := TickCursor(h).sent)
  {
  }

  /** Every tick brings the next turn exactly one tick nearer. */
  lemma TickApproaches(h: HostState, pick: Cell, fleet: seq<Placement>)
    requires Inv(h) && FairDraws(h, pick, fleet) && Ending(h)
    ensures OneTickNearer(h, Tick(h, pick, fleet))
  {
    hide Inv, Tick, OneTickNearer;
    if h.tag != TurnP2 || h.postWait { ClockTickIsTick(h, pick, fleet); }
    else if h.expl.finished { ReadingTickIsTick(h, pick, fleet); }
    else { ShowingTickIsTick(h, pick, fleet); }
  }

  /** No input changes what the clock is counting. */
  lemma InputWaits(h: HostState, e: Event)
    requires Inv(h) && Enabled(h, e) && Ending(h) && !e.TickEvent?
    ensures var h' := Apply(h, e);
            && Ending(h') && Paced(h'.expl) && Remaining(h') == Remaining(h) && Coming(h') == Coming(h)
  {
    hide Inv, Apply, Enabled, Paced, TicksLeft, AllSunk;
    InputIgnored(h, e);
  }

  /** While the clock decides, keys and clicks have no effect, and messages touch only the link. */
  lemma InputIgnored(h: HostState, e: Event)
    requires Inv(h) && Enabled(h, e) && Ending(h) && !e.TickEvent?
    ensures var h' := Apply(h, e);
            h' == h.(connected := h'.connected, remoteReady := h'.remoteReady, remote := h'.remote, over := h'.over, sent := h'.sent)
            && Paced(h.expl)
  {
    InputSafe(h);
    PauseOnlyInTurn(h);
    var blocked := h.tag == TurnP1 ==> InputBlocked(h);
    assert blocked && Paced(h.expl);
    hide Control, GoodBoard, BotKnows, Ending;
    match e
    case KeyEvent(code, make) => KeyIgnored(h, code, make);
    case MouseMove(m) => MouseIgnored(h, m);
    case Incoming(msg) => MsgKeeps(h, msg); MsgIgnored(h, msg);
  }

  lemma KeyIgnored(h: HostState, code: KeyCode, make: bool)
    requires CursorSafe(h) && Ending(h) && (h.postWait ==> InTurn(h)) && (h.tag == TurnP1 ==> InputBlocked(h))
    ensures HandleKey(h, code, make) == h
  {
  }

  lemma MouseIgnored(h: HostState, m: MouseEvent)
    requires CursorSafe(h) && MouseOk(m) && Ending(h) && (h.postWait ==> InTurn(h)) && (h.tag == TurnP1 ==> InputBlocked(h))
    ensures HandleMouse(h, m) == h
  {
  }

  lemma MsgIgnored(h: HostState, m: Msg)
    requires MsgOk(h, m) && Ending(h) && (h.postWait ==> InTurn(h))
    ensures m.AttackMsg? && h.tag == TurnP2 ==> Cell(m.col, m.row) in h.p1.grid
    ensures var h' := HandleMsg(h, m);
            h' == h.(connected := h'.connected, remoteReady := h'.remoteReady, remote := h'.remote, over := h'.over, sent := h'.sent)
  {
  }

  function TickCount(e: Event): nat {
    if e.TickEvent? then 1 else 0
  }

  /** The ticks among the events from `k` to before `j`. */
  function Ticks(es: seq<Event>, k: nat, j: nat): nat
    requires k <= j <= |es|
    decreases j
  {
    if k == j then 0 else Ticks(es, k, j - 1) + TickCount(es[j - 1])
  }

  /** The clock runs, with `n` ticks to go until it is `next`'s turn. */
  ghost predicate Running(h: HostState, n: int, next: Tag) {
    Control(h) && Ending(h) && Remaining(h) == n && Coming(h) == next
  }

  lemma ClockStep(h: HostState, e: Event, n: int, next: Tag)
    requires Inv(h) && Enabled(h, e) && Running(h, n, next)
    ensures var h' := Apply(h, e);
            if e.TickEvent? && n == 1 then h'.tag == next else Running(h', n - TickCount(e), next)
  {
    ApplyKeeps(h, e);
    var h' := Apply(h, e);
    assert Control(h');
    if e.TickEvent? { TickApproaches(h, e.pick, e.fleet); } else { InputWaits(h, e); }
    hide Inv, Control, Enabled, Tick, Ending, Remaining;
  }

  /** Over any stretch of a run, with any inputs in between: fewer ticks than remain leave the clock
      running with exactly that many fewer. */
  lemma {:induction false} ClockRuns(run: seq<HostState>, es: seq<Event>, k: nat, m: nat, n: int, next: Tag)
    requires IsRun(run, es) && k + m <= |es|
    requires Running(run[k], n, next) && Ticks(es, k, k + m) < n
    ensures Running(run[k + m], n - Ticks(es, k, k + m), next)
  {
    hide Inv, Enabled, Apply, Running, Steps, Init;
    if m > 0 {
      var j := k + m - 1;
      StepInRun(run, es, j);
      ClockRuns(run, es, k, m - 1, n, next);
      ClockStep(run[j], es[j], n - Ticks(es, k, j), next);
    }
  }

  /** The next turn begins exactly with the last of the remaining ticks. */
  lemma NextTurnOnTime(run: seq<HostState>, es: seq<Event>, k: nat, m: nat, n: int, next: Tag)
    requires IsRun(run, es) && k + m < |es| && es[k + m].TickEvent?
    requires Running(run[k], n, next) && Ticks(es, k, k + m) + 1 == n
    ensures run[k + m + 1].tag == next
  {
    hide Inv, Enabled, Apply, Running, Steps, Init;
    StepInRun(run, es, k + m);
    ClockRuns(run, es, k, m, n, next);
    ClockStep(run[k + m], es[k + m], 1, next);
  }

  /** And not before. */
  lemma NextTurnNotEarly(run: seq<HostState>, es: seq<Event>, k: nat, m: nat, n: int, next: Tag, j: nat)
    requires IsRun(run, es) && k + m <= |es| && k <= j <= k + m
    requires Running(run[k], n, next) && Ticks(es, k, k + m) < n
    ensures run[j].tag != next
  {
    hide Running, Steps, Init;
    TicksMonotone(es, k, j, k + m);
    ClockRuns(run, es, k, j - k, n, next);
    NotThereYet(run[j], n - Ticks(es, k, j), next);
  }

  lemma {:induction false} TicksMonotone(es: seq<Event>, k: nat, j: nat, l: nat)
    requires k <= j <= l <= |es|
    ensures Ticks(es, k, j) <= Ticks(es, k, l)
    decreases l
  {
    if j < l { TicksMonotone(es, k, j, l - 1); }
  }

  lemma NotThereYet(h: HostState, n: int, next: Tag)
    requires Running(h, n, next)
    ensures h.tag != next
  {
  }

  /** A shot of the bot into the water: 173 ticks until it is player 1's turn. The animation takes 8
      frames of 5 ticks, a miss stays 45 ticks longer, the pause 60 and the handover 30, and each of the
      last two stages counts the tick in which it begins. */
  lemma BotMissTakes173Ticks(h: HostState, pick: Cell, fleet: seq<Placement>)
    requires Inv(h) && FairDraws(h, pick, fleet) && BotFires(BeforeBot(h)) && !EndsNow(h)
    requires FullGrid(h.p1.grid)
    requires var c := H.Choose(h.bot, h.p1.grid, pick).curr; c in h.p1.grid && h.p1.grid[c] == Empty
    ensures Running(Tick(h, pick, fleet), 173, TurnP1)
  {
    BeforeBotKeeps(h);
    TickKeeps(h, pick, fleet);
    var b, t := BeforeBot(h), Tick(h, pick, fleet);
    FiringTick(h, pick, fleet);
    var c := H.Choose(b.bot, b.p1.grid, pick).curr;
    WaterShot(b, pick, c);
    FirstFrame(c, b.expl.waitTicks);
    hide Control, BeforeBot, Tick, BotShot, Animate, TicksLeft, AllSunk, H.Choose, Running;
    MissShown(t, 84);
  }

  lemma MissShown(h: HostState, left: nat)
    requires Control(h) && h.tag == TurnP2 && h.single && !h.postWait && !AllSunk(h.p1)
    requires h.expl.exploding && !h.expl.isHit && TicksLeft(h.expl) == left
    ensures Running(h, left + POST_ATTACK_WAIT_TICKS + TICKS_PER_SEC - 1, TurnP1)
  {
    hide AllSunk, TicksLeft;
  }

  /** A shot at water, after its first tick. */
  lemma FirstFrame(c: Cell, waitTicks: nat)
    ensures var e := Animate(ExplState(true, false, false, c, 0, waitTicks, false, 0));
            e.exploding && !e.isHit && Paced(e) && TicksLeft(e) == 84 && e.at == c
  {
  }

  lemma WaterShot(b: HostState, pick: Cell, c: Cell)
    requires Control(b) && Settled(b) && BotFires(b) && FullGrid(b.p1.grid)
    requires c == H.Choose(b.bot, b.p1.grid, pick).curr && c in b.p1.grid && b.p1.grid[c] == Empty
    ensures var s := BotShot(b, pick);
            s.tag == TurnP2 && s.single && !s.postWait && !AllSunk(s.p1)
            && s.expl == ExplState(true, false, false, c, 0, b.expl.waitTicks, false, 0)
  {
    hide H.Choose, H.Register;
  }
}
