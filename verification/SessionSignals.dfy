/** From one machine to the other, message by message: the cursors, the player who leaves, and the explosion that the
    client shows when a shot at its fleet is reported. */
module SessionSignals {
  import opened Boards
  import opened Protocol
  import opened Explosion
  import opened Host
  import opened HostControl
  import opened HostSteps
  import opened HostRuns
  import opened HostProgress
  import opened Replica
  import opened Client
  import opened Session
  import opened SessionSteps
  import opened SessionBattle
  import opened SessionRuns
  import opened SessionTheorems
  import opened ClientInput
  import opened SessionShots
  import opened SessionNews
  import H = Hunt

  // ---------------------------------------------------------------------------------------------
  // The host's cursor
  // ---------------------------------------------------------------------------------------------

  /** The last message tells where player 1's cursor is. */
  predicate CursorTold(r: HostState) {
    && InGrid(Cell(r.data.w1, r.data.w2)) && |r.sent| > 0
    && r.sent[|r.sent| - 1] == Cursor(r.data.w1, r.data.w2)
  }

  lemma CursorStage(q: HostState)
    requires q.tag == TurnP1 && !q.single && q.cursorTick == 1 && InGrid(Cell(q.data.w1, q.data.w2))
    ensures CursorTold(TickCursor(q))
  {
  }

  lemma ClockKept(h: HostState)
    requires Control(h)
    ensures var q := TickHandover(TickPostAttack(TickResolve(TickCountdown(h)))); q.cursorTick == h.cursorTick && q.single == h.single
    ensures CanResolve(TickCountdown(h)) ==> TickCountdown(h).expl.at in EnemyBoard(TickCountdown(h)).grid
  {
    CountdownKeeps(h);
    ResolveKeeps(TickCountdown(h));
    var a := TickCountdown(h);
    assert a.cursorTick == h.cursorTick && a.single == h.single;
    ReadingKeepsClock(a);
    LaterKeepClock(TickResolve(a));
    hide Control, TickCountdown, TickResolve, TickPostAttack, TickHandover;
  }

  lemma ReadingKeepsClock(a: HostState)
    requires CanResolve(a) ==> a.expl.at in EnemyBoard(a).grid
    ensures TickResolve(a).cursorTick == a.cursorTick && TickResolve(a).single == a.single
  {
    hide AllSunk, Report, IfMulti;
  }

  lemma LaterKeepClock(r: HostState)
    ensures var q := TickHandover(TickPostAttack(r)); q.cursorTick == r.cursorTick && q.single == r.single
  {
    PauseKeepsClock(r);
    hide TickPostAttack, TickHandover;
    HandoverKeepsClock(TickPostAttack(r));
  }

  lemma PauseKeepsClock(r: HostState)
    ensures var p := TickPostAttack(r); p.cursorTick == r.cursorTick && p.single == r.single
  {
    hide AsByte, IfMulti;
  }

  lemma HandoverKeepsClock(p: HostState)
    ensures var q := TickHandover(p); q.cursorTick == p.cursorTick && q.single == p.single
  {
    hide IfMulti;
  }

  /** The cursor clock alternates, so of two ticks in a row that do not end the game one sends. */
  lemma CursorClockAlternates(h: HostState, pick: Cell, fleet: seq<Placement>)
    requires Inv(h) && FairDraws(h, pick, fleet) && !EndsNow(h)
    ensures Tick(h, pick, fleet).cursorTick == 1 - h.cursorTick
  {
    StagesAre(h);
    ClockKept(h);
    BeforeBotKeeps(h);
    BotAims(BeforeBot(h), pick, fleet);
    assert h.cursorTick < 2;
    hide Inv, Control, BeforeBot, EndsNow, TickBot, TickCountdown, TickResolve, TickPostAttack, TickHandover, Animate, FairDraws;
    ClockTicks(TickHandover(TickPostAttack(TickResolve(TickCountdown(h)))));
    BotKeepsClock(BeforeBot(h), pick, fleet);
  }

  lemma ClockTicks(q: HostState)
    requires q.cursorTick < 2
    ensures TickCursor(q).cursorTick == 1 - q.cursorTick
  {
  }

  lemma BotKeepsClock(b: HostState, pick: Cell, fleet: seq<Placement>)
    requires BotFires(b) ==> (forall x :: x in b.p1.grid ==> InGrid(x)) && H.Choose(b.bot, b.p1.grid, pick).curr in b.p1.grid
    ensures TickBot(b, pick, fleet).cursorTick == b.cursorTick
  {
    hide BoardOf, H.Choose, H.Register, Attack, AsByte;
  }

  /** Every second tick in player 1's turn. */
  lemma HostTellsCursor(h: HostState, pick: Cell, fleet: seq<Placement>)
    requires Inv(h) && FairDraws(h, pick, fleet) && !h.single && h.cursorTick == 1 && Tick(h, pick, fleet).tag == TurnP1
    ensures CursorTold(Tick(h, pick, fleet))
  {
    var b := BeforeBot(h);
    BeforeBotKeeps(h);
    StagesAre(h);
    ClockKept(h);
    TagAfterBot(h, pick, fleet, b);
    TickWithoutBot(h, pick, fleet, b);
    CursorAtHomeOrOnGrid(b);
    hide Inv, Control, Tick, BeforeBot, EndsNow, Animate, TickCountdown, TickResolve, TickPostAttack, TickHandover, FairDraws;
    TellsAtLast(TickHandover(TickPostAttack(TickResolve(TickCountdown(h)))), b);
  }

  lemma TellsAtLast(q: HostState, b: HostState)
    requires b == TickCursor(q) && b.tag == TurnP1 && !q.single && q.cursorTick == 1
    requires InGrid(Cell(b.data.w1, b.data.w2))
    ensures var r := b.(expl := Animate(b.expl)); CursorTold(r)
  {
    CursorsShape(q);
    CursorStage(q);
    hide Animate, TickCursor;
  }

  lemma CursorAtHomeOrOnGrid(b: HostState)
    requires Inv(b) && b.tag == TurnP1
    ensures InGrid(Cell(b.data.w1, b.data.w2))
  {
  }

  lemma HearCursor(c: ClientState, x: Cell)
    requires InGrid(x)
    ensures Hear(c, Cursor(x.col, x.row)).remote == x
  {
  }

  /** When the client hears that message it shows the host's cursor where it was. */
  lemma HostCursorArrives(run: seq<Pair>, steps: seq<Step>, j: nat, k: nat)
    requires IsSession(run, steps) && j < k < |steps|
    requires steps[j].HostDoes? && steps[j].e.TickEvent? && run[j].h.cursorTick == 1 && run[j + 1].h.tag == TurnP1
    requires steps[k].ClientHears? && run[k].heard + 1 == |run[j + 1].h.sent|
    ensures run[k + 1].c.remote == Cell(run[j + 1].h.data.w1, run[j + 1].h.data.w2)
  {
    hide SessionInv, Start, Moves, CursorTold;
    EverySession(run, steps, j);
    assert Moves(run[j], steps[j], run[j + 1]) && Moves(run[k], steps[k], run[k + 1]);
    SessionTellsCursor(run[j], steps[j], run[j + 1]);
    HostLogGrows(run, steps, j + 1, k);
    EverySession(run, steps, k);
    CursorIsHeard(run[j + 1].h, run[k], run[k + 1]);
  }

  lemma SessionTellsCursor(s: Pair, step: Step, s': Pair)
    requires SessionInv(s) && Moves(s, step, s') && step.HostDoes? && step.e.TickEvent?
    requires s.h.cursorTick == 1 && s'.h.tag == TurnP1
    ensures CursorTold(s'.h)
  {
    hide SessionInv, Linked, HostSide, Mirrored, Apply, Tick, Inv, Enabled, FairDraws, Recorded, CursorTold;
    StepKeeps(s, step, s');
    InvParts(s);
    LinkedHost(s.h);
    RecordedHost(s, Apply(s.h, step.e), CanResolve(s.h));
    TickIsApply(s.h, step.e);
    HostTellsCursor(s.h, step.e.pick, step.e.fleet);
  }

  lemma CursorIsHeard(r: HostState, s: Pair, s': Pair)
    requires CursorTold(r) && r.sent <= s.h.sent && s.heard + 1 == |r.sent|
    requires SessionInv(s) && Moves(s, ClientHears, s')
    ensures s'.c.remote == Cell(r.data.w1, r.data.w2)
  {
    hide SessionInv, Hear, Inv;
    StepKeeps(s, ClientHears, s');
    assert s.h.sent[s.heard] == r.sent[s.heard];
    HearCursor(s.c, Cell(r.data.w1, r.data.w2));
  }

  // ---------------------------------------------------------------------------------------------
  // From the client
  // ---------------------------------------------------------------------------------------------

  /** The message that a step of the client has sent is the one that the host reads at its place in the log. */
  lemma ReadsWhatWasSent(run: seq<Pair>, steps: seq<Step>, j: nat, k: nat)
    requires IsSession(run, steps) && j < k < |steps| && steps[k].HostReads?
    requires run[k].read < |run[j + 1].c.sent|
    ensures run[k].read < |run[k].c.sent| && run[k].c.sent[run[k].read] == run[j + 1].c.sent[run[k].read]
  {
    hide SessionInv, Start, Moves;
    ClientLogGrows(run, steps, j + 1, k);
  }

  lemma HostReadsMsg(s: Pair, s': Pair)
    requires SessionInv(s) && Moves(s, HostReads, s')
    ensures s.read < |s.c.sent|
    ensures var m := s.c.sent[s.read];
            && (m.Cursor? ==> s'.h.remote == Cell(SignedByte(m.col), SignedByte(m.row)))
            && (m.ClientQuit? ==> s'.h.over)
  {
    hide SessionInv, Inv, PlaceShip, FleetMsgs, Attack;
    StepKeeps(s, HostReads, s');
    RecordedHost(s, HandleMsg(s.h, s.c.sent[s.read]), false);
  }

  /** Every second tick in its turn the client tells where its cursor is, and when the host reads that message it shows
      the client's cursor where it was. */
  lemma ClientCursorArrives(run: seq<Pair>, steps: seq<Step>, j: nat, k: nat)
    requires IsSession(run, steps) && j < k < |steps|
    requires steps[j].ClientDoes? && steps[j].i.Elapse? && run[j].c.tag == TurnP2 && run[j].c.cursorTick == 1
    requires steps[k].HostReads? && run[k].read == |run[j].c.sent|
    ensures run[k + 1].h.remote == Cell(run[j].c.data.w1, run[j].c.data.w2)
  {
    hide SessionInv, Start, Moves, Act, Shoots, ShotAnnounced, NoShotAdded;
    EverySession(run, steps, j);
    EverySession(run, steps, k);
    assert Moves(run[j], steps[j], run[j + 1]) && Moves(run[k], steps[k], run[k + 1]);
    LogStep(run[j], steps[j], run[j + 1]);
    ClientTellsCursor(run[j].c, steps[j].i);
    ReadsWhatWasSent(run, steps, j, k);
    HostReadsMsg(run[k], run[k + 1]);
  }

  lemma ClientTellsCursor(c: ClientState, i: Input)
    requires ClientSafe(c) && i.Elapse? && c.tag == TurnP2 && c.cursorTick == 1
    ensures InGrid(Cell(c.data.w1, c.data.w2))
    ensures Act(c, i).sent == c.sent + [Cursor(c.data.w1, c.data.w2)]
  {
    hide ClientTick, ClientKey, ClientMouse;
    ClockTells(c, i.beat);
  }

  /** The client's player leaves by the second item of the pause menu, and the host ends when it reads of it. */
  lemma QuitArrives(run: seq<Pair>, steps: seq<Step>, j: nat, k: nat)
    requires IsSession(run, steps) && j < k < |steps|
    requires steps[j].ClientDoes? && run[j].c.tag == Paused
    requires match steps[j].i
             case KeyInput(code, make, _) => make && code == KeyEnter && run[j].c.data.w0 == 1
             case MouseInput(m, _) => m.clicked && m.item == Some(1)
             case Elapse(_) => false
    requires steps[k].HostReads? && run[k].read == |run[j].c.sent|
    ensures run[j + 1].c.over && run[k + 1].h.over
  {
    hide SessionInv, Start, Moves;
    EverySession(run, steps, j);
    EverySession(run, steps, k);
    assert Moves(run[j], steps[j], run[j + 1]) && Moves(run[k], steps[k], run[k + 1]);
    PausedClientQuits(run[j], steps[j], run[j + 1]);
    ReadsWhatWasSent(run, steps, j, k);
    HostReadsMsg(run[k], run[k + 1]);
  }

  lemma PausedClientQuits(s: Pair, step: Step, s': Pair)
    requires SessionInv(s) && Moves(s, step, s') && step.ClientDoes? && s.c.tag == Paused
    requires match step.i
             case KeyInput(code, make, _) => make && code == KeyEnter && s.c.data.w0 == 1
             case MouseInput(m, _) => m.clicked && m.item == Some(1)
             case Elapse(_) => false
    ensures s'.c.over && s'.c.sent == s.c.sent + [ClientQuit]
  {
    hide SessionInv, ClientSafe, ClientCommit, ClientFire, ClientMenu, InitialBoard;
    StepKeeps(s, step, s');
  }

  // ---------------------------------------------------------------------------------------------
  // Reports
  // ---------------------------------------------------------------------------------------------

  /** Reports come in the battle, with one of the three results. */
  lemma ReportsComeLate(h: HostState, k: nat)
    requires HostSide(h) && k < |h.sent| && h.sent[k].AttackMsg?
    ensures Started(Active(h)) && k >= OPENING && BattleMsg(h.sent[k])
  {
    var none: seq<Placement> := [];
    if !Started(Active(h)) {
      ShortLog(h);
      OpeningAt(none, k);
    } else if k < OPENING {
      FullFleets(h);
      assert h.sent[k] == h.sent[..OPENING][k];
      OpeningAt(FleetOf(h.p1), k);
    }
    hide Inv, Opening;
  }

  /** A copy that shows nothing false shows an explosion with a hit exactly where there is a ship. */
  lemma ReportedCellIs(b: BoardState, r: BoardState, x: Cell, result: byte)
    requires x in r.grid && (result == ATTACK_MISS || result == ATTACK_HIT || result == ATTACK_SUNK) && InGrid(x)
    requires ShowsSome(b, Reported(r, x, result))
    ensures x in ShotsOf(b) && (result == ATTACK_HIT || result == ATTACK_SUNK <==> Occupied(FleetOf(b), x))
  {
    ReportShows(r, x, result);
    var shown := Reported(r, x, result);
    hide Reported;
    var s: set<Cell> :| s <= ShotsOf(b) && Agree(BoardOf(FleetOf(b), s), shown);
    assert shown.grid[x] == StateOf(FleetOf(b), s, x);
    hide FleetOf, ShotsOf;
  }

  lemma ReportShows(r: BoardState, x: Cell, result: byte)
    requires x in r.grid && (result == ATTACK_MISS || result == ATTACK_HIT || result == ATTACK_SUNK)
    ensures Reported(r, x, result).grid[x] == if result == ATTACK_MISS then Miss else if result == ATTACK_HIT then Hit else Sunk
  {
  }

  /** When a shot of player 1 is reported the client shows an explosion at a cell that was shot at, as a hit exactly if
      there is a ship of its player. */
  lemma ClientSeesTheShot(run: seq<Pair>, steps: seq<Step>, k: nat)
    requires IsSession(run, steps) && k < |steps| && steps[k].ClientHears? && run[k].c.tag == TurnP1
    requires run[k].heard < |run[k].h.sent| && run[k].h.sent[run[k].heard].AttackMsg?
    ensures var m, h, c' := run[k].h.sent[run[k].heard], run[k].h, run[k + 1].c;
            var x := Cell(m.col, m.row);
            && c'.expl.exploding && c'.expl.at == x && c'.expl.ticks == 0 && x in ShotsOf(h.p2)
            && (c'.expl.isHit <==> Occupied(FleetOf(h.p2), x))
  {
    hide SessionInv, Start, Moves, ShowsSome, HostSide, Occupied, ShotsOf;
    EverySession(run, steps, k);
    var s, s' := run[k], run[k + 1];
    InvParts(s);
    ReportsComeLate(s.h, s.heard);
    assert Moves(s, steps[k], s');
    HeardReport(s, s');
    ClientNeverShowsFalse(run, steps, k + 1);
    var m := s.h.sent[s.heard];
    ReportedCellIs(s.h.p2, s.c.p2, Cell(m.col, m.row), m.result);
  }

  lemma HeardReport(s: Pair, s': Pair)
    requires SessionInv(s) && Moves(s, ClientHears, s') && s.c.tag == TurnP1 && s.heard < |s.h.sent| && s.h.sent[s.heard].AttackMsg?
    ensures var m := s.h.sent[s.heard];
            var x := Cell(m.col, m.row);
            && x in s.c.p2.grid && s'.c.p2 == Reported(s.c.p2, x, m.result) && s'.h == s.h && s'.heard == s.heard + 1
            && s'.c.expl.exploding && s'.c.expl.at == x && s'.c.expl.ticks == 0
            && (s'.c.expl.isHit <==> m.result == ATTACK_HIT || m.result == ATTACK_SUNK)
  {
    hide SessionInv, Reported, Inv;
    StepKeeps(s, ClientHears, s');
  }
}
