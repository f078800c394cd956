/** The battle, seen through the wire: what the host's messages amount to follows the host's boards, shot
    by shot, with exactly the reports that were sent. */
module SessionBattle {
  import opened Boards
  import opened BoardLaws
  import opened Protocol
  import opened Explosion
  import opened Host
  import opened HostControl
  import opened HostSteps
  import opened HostRuns
  import opened HostPause
  import opened HostShots
  import opened Replica
  import opened Client
  import opened Session
  import R = Rays

  /** The board took the shots of the list, and the copy shows what the reports of them told. */
  ghost predicate BoardTold(b: BoardState, r: BoardState, t: Shots) {
    && |t.told| == |t.cells| && Distinct(t.cells) && (forall c :: c in t.cells ==> InGrid(c))
    && Elements(t.cells) == ShotsOf(b)
    && r == ReplicaOf(FleetOf(b), t.cells, t.told)
  }

  /** The last shot is at `c` and not reported yet. */
  predicate Pending(t: Shots, c: Cell) {
    && |t.told| == |t.cells| > 0 && t.cells[|t.cells| - 1] == c && !t.told[|t.cells| - 1]
  }

  /** Host and messages agree on the state of the game, and on every report. */
  ghost predicate Sync(h: HostState, n: Net, on1: Shots, on2: Shots) {
    && n.last == Active(h)
    && BoardTold(h.p1, n.p1, on1) && BoardTold(h.p2, n.p2, on2)
    && (Unresolved(h.expl) && Active(h) == TurnP2 ==> Pending(on1, h.expl.at))
    && (Unresolved(h.expl) && Active(h) == TurnP1 ==> Pending(on2, h.expl.at))
  }

  // ---------------------------------------------------------------------------------------------
  // One board
  // ---------------------------------------------------------------------------------------------

  lemma OneMore(s: seq<Cell>, x: Cell)
    requires Distinct(s) && x !in s
    ensures Distinct(s + [x]) && Elements(s + [x]) == Elements(s) + {x}
  {
  }

  lemma Untold(f: seq<Placement>, t: Shots, c: Cell)
    requires |t.told| == |t.cells| && (forall x :: x in t.cells ==> InGrid(x)) && InGrid(c)
    ensures ReplicaOf(f, t.cells + [c], t.told + [false]) == ReplicaOf(f, t.cells, t.told)
  {
    assert (t.cells + [c])[..|t.cells|] == t.cells && (t.told + [false])[..|t.told|] == t.told;
  }

  /** A shot changes the board and not the copy. */
  lemma ShotNotTold(b: BoardState, r: BoardState, t: Shots, c: Cell)
    requires GoodBoard(b) && BoardTold(b, r, t) && InGrid(c) && R.IsFresh(b.grid, c)
    ensures BoardTold(Attack(b, c), r, AddShot(t, c)) && Pending(AddShot(t, c), c)
  {
    GoodShot(b, c);
    assert c !in t.cells by { assert c !in ShotsOf(b); }
    OneMore(t.cells, c);
    Untold(FleetOf(b), t, c);
    hide GoodBoard, Attack, ShotsOf, FleetOf, Distinct, Elements, ReplicaOf;
  }

  /** A report changes the copy and not the board. */
  lemma ShotTold(b: BoardState, r: BoardState, t: Shots, c: Cell)
    requires GoodBoard(b) && BoardTold(b, r, t) && Pending(t, c)
    ensures InGrid(c) && c in r.grid && c in b.grid
    ensures BoardTold(b, Reported(r, c, ResultOf(b, c)), Tell(t))
  {
    var n := |t.cells| - 1;
    var told := t.told[..n] + [true];
    assert c in t.cells;
    assert told[..n] == t.told[..n];
    assert b == BoardOf(FleetOf(b), Elements(t.cells));
    hide GoodBoard, Reported, ResultOf, BoardOf;
  }

  // ---------------------------------------------------------------------------------------------
  // The stages of a tick
  // ---------------------------------------------------------------------------------------------

  /** A message that is no report. */
  predicate NoReport(m: Msg) {
    BattleMsg(m) && !m.AttackMsg?
  }

  /** Everything added to the log is a message of the battle, and only the first may be a report. */
  predicate Adds(was: seq<Msg>, now: seq<Msg>) {
    && was <= now && (forall k :: |was| <= k < |now| ==> BattleMsg(now[k]))
    && forall k :: |was| < k < |now| ==> !now[k].AttackMsg?
  }

  /** No report is added. */
  predicate AddsQuietly(was: seq<Msg>, now: seq<Msg>) {
    was <= now && forall k :: |was| <= k < |now| ==> NoReport(now[k])
  }

  lemma AddsMore(a: seq<Msg>, b: seq<Msg>, c: seq<Msg>)
    requires AddsQuietly(b, c)
    ensures Adds(a, b) ==> Adds(a, c)
    ensures AddsQuietly(a, b) ==> AddsQuietly(a, c)
  {
  }

  /** A stage of the timer that reports nothing: it counts, or it enters a state of the battle. */
  predicate Clockwork(h: HostState, r: HostState, m: Msg) {
    && SameArena(h, r) && r.expl == h.expl && NoReport(m)
    && if m.State? then r.sent == h.sent + [m] && TagOf(m.state) == r.tag && r.tag != Paused && !Unresolved(h.expl)
       else r.tag == h.tag && r.prev == h.prev && (r.sent == h.sent || r.sent == h.sent + [m])
  }

  lemma ClockworkSyncs(h: HostState, r: HostState, own: BoardState, on1: Shots, on2: Shots, m: Msg)
    requires Sync(h, NetOf(h.sent, own), on1, on2) && Clockwork(h, r, m)
    ensures Sync(r, NetOf(r.sent, own), on1, on2) && AddsQuietly(h.sent, r.sent)
  {
    NetMore(h.sent, m, own);
    hide BoardTold, NetOf, Pending;
  }

  lemma CountdownSends(h: HostState) returns (m: Msg)
    requires Control(h) && !h.single
    ensures Clockwork(h, TickCountdown(h), m)
  {
    var r := TickCountdown(h);
    m := if r.tag == h.tag then Countdown(r.cdSeconds) else State(TagByte(TurnP1));
  }

  lemma PostAttackSends(h: HostState) returns (m: Msg)
    requires Control(h) && !h.single
    ensures Clockwork(h, TickPostAttack(h), m)
  {
    var r := TickPostAttack(h);
    m := if r.tag == h.tag then Countdown(0) else State(TagByte(r.tag));
  }

  lemma HandoverSends(h: HostState) returns (m: Msg)
    requires Control(h) && !h.single
    ensures Clockwork(h, TickHandover(h), m)
  {
    var r := TickHandover(h);
    m := if r.tag == h.tag then Countdown(0) else State(TagByte(r.tag));
  }

  lemma CursorSends(h: HostState) returns (m: Msg)
    requires !h.single
    ensures Clockwork(h, TickCursor(h), m)
  {
    m := Cursor(AsByte(h.data.w1), AsByte(h.data.w2));
    hide AsByte;
  }

  /** The lists of shots after the host has reported the shot that was shown. */
  function ToldOn1(h: HostState, on1: Shots): Shots {
    if h.tag == TurnP2 then Tell(on1) else on1
  }

  function ToldOn2(h: HostState, on2: Shots): Shots {
    if h.tag == TurnP1 then Tell(on2) else on2
  }

  lemma ReportedCell(h: HostState)
    requires Control(h) && CanResolve(h)
    ensures h.expl.at in EnemyBoard(h).grid && InGrid(h.expl.at)
    ensures Cell(Report(h).col, Report(h).row) == h.expl.at && Active(h) == h.tag && Unresolved(h.expl)
    ensures !Unresolved(h.expl.(finished := false))
  {
    ResolveKeeps(h);
  }

  /** A report tells the client about the pending shot, on the board that was shot at. */
  lemma ReportNet(h: HostState, n: Net, on1: Shots, on2: Shots)
    requires Control(h) && CanResolve(h) && GoodBoard(h.p1) && GoodBoard(h.p2)
    requires Sync(h, n, on1, on2)
    ensures h.expl.at in EnemyBoard(h).grid && InGrid(h.expl.at)
    ensures var n' := NetStep(n, Report(h));
            n'.last == n.last && BoardTold(h.p1, n'.p1, ToldOn1(h, on1)) && BoardTold(h.p2, n'.p2, ToldOn2(h, on2))
  {
    hide Control, GoodBoard, BoardTold, Reported, ResultOf, AsByte, Pending, Tell;
    ReportedCell(h);
    var c := h.expl.at;
    if h.tag == TurnP1 { ShotTold(h.p2, n.p2, on2, c); } else { ShotTold(h.p1, n.p1, on1, c); }
  }

  /** Behind a report: the end of the game is announced, or nothing is. */
  lemma ResolveSends(h: HostState)
    requires Control(h) && CanResolve(h) && !h.single
    ensures h.expl.at in EnemyBoard(h).grid && InGrid(h.expl.at)
    ensures var r := TickResolve(h);
            if AllSunk(EnemyBoard(h))
            then r.tag == GameOver &&
                 r.sent == h.sent + [Report(h)] + [Winner(if h.tag == TurnP1 then 1 else 2)] + [State(TagByte(GameOver))]
            else r.tag == h.tag && r.sent == h.sent + [Report(h)]
    ensures !Unresolved(TickResolve(h).expl) && SameArena(h, TickResolve(h)) && BattleMsg(Report(h))
  {
    ReportedCell(h);
    hide Control, AllSunk, ResultOf;
  }

  lemma EndOfGame(sent: seq<Msg>, report: Msg, winner: byte, own: BoardState)
    requires BattleMsg(report)
    ensures var now := sent + [report] + [Winner(winner)] + [State(TagByte(GameOver))];
            NetOf(now, own) == NetStep(NetOf(sent, own), report).(last := GameOver) && Adds(sent, now)
  {
    NetMore(sent, report, own);
    NetMore(sent + [report], Winner(winner), own);
    NetMore(sent + [report] + [Winner(winner)], State(TagByte(GameOver)), own);
    hide NetOf;
  }

  lemma OneReported(sent: seq<Msg>, report: Msg, own: BoardState)
    requires BattleMsg(report)
    ensures NetOf(sent + [report], own) == NetStep(NetOf(sent, own), report) && Adds(sent, sent + [report])
  {
    NetMore(sent, report, own);
  }

  lemma ResolveStage(h: HostState, own: BoardState, on1: Shots, on2: Shots)
    requires Control(h) && CanResolve(h) && !h.single && GoodBoard(h.p1) && GoodBoard(h.p2)
    requires Sync(h, NetOf(h.sent, own), on1, on2)
    ensures h.expl.at in EnemyBoard(h).grid
    ensures var r := TickResolve(h);
            Sync(r, NetOf(r.sent, own), ToldOn1(h, on1), ToldOn2(h, on2)) && Adds(h.sent, r.sent)
  {
    ReportNet(h, NetOf(h.sent, own), on1, on2);
    ResolveSends(h);
    ReportedCell(h);
    OneReported(h.sent, Report(h), own);
    EndOfGame(h.sent, Report(h), if h.tag == TurnP1 then 1 else 2, own);
    hide Control, GoodBoard, BoardTold, NetOf, NetStep, Report, TickResolve, CanResolve, AllSunk, Adds, ToldOn1, ToldOn2, BattleMsg;
  }

  lemma ReadsOnlyInTurn(h: HostState)
    requires Control(h)
    ensures CanResolve(TickCountdown(h)) <==> CanResolve(h)
    ensures CanResolve(h) ==> TickCountdown(h) == h
  {
    if h.tag == Counting { NothingPending(h); }
  }

  /** The stages behind the reading of a result. */
  lemma LateSync(h: HostState, own: BoardState, on1: Shots, on2: Shots)
    requires Control(h) && Settled(h) && !h.single && Sync(h, NetOf(h.sent, own), on1, on2)
    ensures var r := TickCursor(TickHandover(TickPostAttack(h)));
            Sync(r, NetOf(r.sent, own), on1, on2) && AddsQuietly(h.sent, r.sent)
  {
    var a := TickPostAttack(h);
    var b := TickHandover(a);
    var c := TickCursor(b);
    PostAttackKeeps(h);
    HandoverKeeps(a);
    var m1 := PostAttackSends(h);
    var m2 := HandoverSends(a);
    var m3 := CursorSends(b);
    hide Control, Settled, TickPostAttack, TickHandover, TickCursor, Sync, Clockwork, NetOf, AddsQuietly;
    ClockworkSyncs(h, a, own, on1, on2, m1);
    ClockworkSyncs(a, b, own, on1, on2, m2);
    ClockworkSyncs(b, c, own, on1, on2, m3);
    AddsMore(h.sent, a.sent, b.sent);
    AddsMore(h.sent, b.sent, c.sent);
  }

  /** The first two stages. */
  lemma EarlySync(h: HostState, own: BoardState, on1: Shots, on2: Shots)
    requires Control(h) && !h.single && GoodBoard(h.p1) && GoodBoard(h.p2)
    requires Sync(h, NetOf(h.sent, own), on1, on2)
    ensures CanResolve(TickCountdown(h)) ==> TickCountdown(h).expl.at in EnemyBoard(TickCountdown(h)).grid
    ensures var r := TickResolve(TickCountdown(h));
            && Sync(r, NetOf(r.sent, own),
                    if CanResolve(h) then ToldOn1(h, on1) else on1, if CanResolve(h) then ToldOn2(h, on2) else on2)
            && Adds(h.sent, r.sent)
  {
    CountdownKeeps(h);
    ResolveKeeps(TickCountdown(h));
    ReadsOnlyInTurn(h);
    if CanResolve(h) {
      ResolveStage(h, own, on1, on2);
    } else {
      var m := CountdownSends(h);
      hide Control, GoodBoard, TickCountdown, Sync, Clockwork, NetOf;
      ClockworkSyncs(h, TickCountdown(h), own, on1, on2, m);
    }
  }

  lemma ClocksSync(h: HostState, own: BoardState, on1: Shots, on2: Shots)
    requires Control(h) && !h.single && GoodBoard(h.p1) && GoodBoard(h.p2)
    requires Sync(h, NetOf(h.sent, own), on1, on2)
    ensures var b := BeforeBot(h);
            && Sync(b, NetOf(b.sent, own),
                    if CanResolve(h) then ToldOn1(h, on1) else on1, if CanResolve(h) then ToldOn2(h, on2) else on2)
            && Adds(h.sent, b.sent)
  {
    CountdownKeeps(h);
    ResolveKeeps(TickCountdown(h));
    StagesAre(h);
    EarlySync(h, own, on1, on2);
    var r := TickResolve(TickCountdown(h));
    assert !r.single;
    hide Control, GoodBoard, TickCountdown, TickResolve, BeforeBot, EndsNow, Sync, NetOf, Adds, CanResolve, ToldOn1, ToldOn2;
    if !EndsNow(h) {
      var t1, t2 := if CanResolve(h) then ToldOn1(h, on1) else on1, if CanResolve(h) then ToldOn2(h, on2) else on2;
      LateSync(r, own, t1, t2);
      AddsMore(h.sent, r.sent, TickCursor(TickHandover(TickPostAttack(r))).sent);
    }
  }

  // ---------------------------------------------------------------------------------------------
  // Events
  // ---------------------------------------------------------------------------------------------

  lemma AnimationSyncs(b: HostState, own: BoardState, on1: Shots, on2: Shots)
    requires Control(b) && Sync(b, NetOf(b.sent, own), on1, on2)
    ensures var t := b.(expl := Animate(b.expl)); Sync(t, NetOf(t.sent, own), on1, on2) && Active(t) == Active(b)
  {
    AnimatePaced(b.expl);
    hide Control, NetOf, BoardTold, Pending;
  }

  /** In a battle a tick leads to the battle. */
  lemma TickStaysInBattle(h: HostState)
    requires Control(h) && !h.single && Started(Active(h))
    ensures Started(Active(BeforeBot(h)))
  {
    if h.tag == Paused { QuietBeforeBot(h); }
    else if InTurn(h) { TurnTickFlows(h); }
    else { QuietTickFlows(h); }
    hide Control, BeforeBot;
  }

  /** A tick of a battle against a client: reports and announcements are sent as the boards demand. */
  lemma TickSync(h: HostState, pick: Cell, fleet: seq<Placement>, own: BoardState, on1: Shots, on2: Shots)
    requires Inv(h) && FairDraws(h, pick, fleet) && !h.single && Started(Active(h))
    requires Sync(h, NetOf(h.sent, own), on1, on2)
    ensures var t := Tick(h, pick, fleet);
            && Sync(t, NetOf(t.sent, own),
                    if CanResolve(h) then ToldOn1(h, on1) else on1, if CanResolve(h) then ToldOn2(h, on2) else on2)
            && Adds(h.sent, t.sent) && Started(Active(t))
            && SameBoards(h, t) && !t.single && t.connected == h.connected
  {
    BeforeBotKeeps(h);
    ClocksSync(h, own, on1, on2);
    TickStaysInBattle(h);
    var b := BeforeBot(h);
    TickWithoutBot(h, pick, fleet, b);
    AnimationSyncs(b, own, if CanResolve(h) then ToldOn1(h, on1) else on1, if CanResolve(h) then ToldOn2(h, on2) else on2);
    hide Control, GoodBoard, BotKnows, BeforeBot, Tick, Sync, NetOf, CanResolve, ToldOn1, ToldOn2, Animate;
  }

  /** What input and messages do in a battle: nothing to the log, and at most one shot. */
  ghost predicate QuietOrShot(h: HostState, r: HostState) {
    && r.sent == h.sent && Active(r) == Active(h) && r.single == h.single && r.connected == h.connected
    && ((SameBoards(h, r) && r.expl == h.expl) || exists c :: Fires(h, r, c))
  }

  lemma FireQuietOrShot(h: HostState, c: Cell)
    requires h.tag == TurnP1 && !InputBlocked(h) && InGrid(c) && c in h.p2.grid
    ensures QuietOrShot(h, FireAt(h, c))
  {
    if !Attacked(h.p2.grid[c]) { assert Fires(h, FireAt(h, c), c); }
  }

  lemma KeyInBattle(h: HostState, code: KeyCode, make: bool)
    requires CursorSafe(h) && Control(h) && Started(Active(h)) && HandleKey(h, code, make).tag != MainMenu
    ensures QuietOrShot(h, HandleKey(h, code, make))
  {
    hide QuietOrShot, MenuChoice, CommitShip, CommitForBot, FireAt, InitialBoard, Control;
    NothingHappens(h);
    if h.tag == TurnP1 {
      TurnKeyInBattle(h, code, make);
    } else if h.tag == Paused {
      NeverPausedTwice(h);
      hide HandleKey;
      KeyInPause(h, code, make);
      PausedIsQuiet(h, HandleKey(h, code, make));
    } else {
      IdleKeyInBattle(h, code, make);
    }
  }

  lemma IdleKeyInBattle(h: HostState, code: KeyCode, make: bool)
    requires CursorSafe(h) && Started(h.tag) && h.tag != TurnP1 && HandleKey(h, code, make).tag != MainMenu
    ensures var r := HandleKey(h, code, make); r == h || r == h.(over := true)
  {
    hide MenuChoice, CommitShip, CommitForBot, FireAt, InitialBoard, InputBlocked, MovePlaceCursor, MoveTurnCursor;
  }

  lemma TurnKeyInBattle(h: HostState, code: KeyCode, make: bool)
    requires CursorSafe(h) && h.tag == TurnP1
    ensures QuietOrShot(h, HandleKey(h, code, make))
  {
    hide FireAt, MoveTurnCursor;
    if !InputBlocked(h) { FireQuietOrShot(h, Cell(h.data.w1, h.data.w2)); }
  }

  lemma PausedIsQuiet(h: HostState, r: HostState)
    requires h.tag == Paused && h.prev != Paused && SameGame(h, r) && r.sent == h.sent && r.connected == h.connected
    requires (r.tag == Paused && r.prev == h.prev) || (r.tag == h.prev && r.prev == Paused)
    ensures QuietOrShot(h, r)
  {
  }

  lemma MovedCursor(h: HostState, d: Words, r: HostState)
    requires QuietOrShot(h.(data := d), r)
    ensures QuietOrShot(h, r)
  {
    if c :| Fires(h.(data := d), r, c) { assert Fires(h, r, c); }
  }

  lemma NothingHappens(h: HostState)
    ensures QuietOrShot(h, h) && QuietOrShot(h, h.(over := true))
  {
  }

  lemma MouseInTurnIsQuiet(h: HostState, m: MouseEvent)
    requires CursorSafe(h) && MouseOk(m) && h.tag == TurnP1
    ensures QuietOrShot(h, HandleMouse(h, m))
  {
    hide QuietOrShot, FireAt;
    if InputBlocked(h) {
      NothingHappens(h);
    } else {
      var d := if m.moved && m.over.Some? then h.data.(w1 := m.over.value.col, w2 := m.over.value.row) else h.data;
      var h' := h.(data := d);
      NothingHappens(h');
      FireQuietOrShot(h', Cell(d.w1, d.w2));
      MovedCursor(h, d, h');
      MovedCursor(h, d, FireAt(h', Cell(d.w1, d.w2)));
    }
  }

  lemma SendsNothing(h: HostState, m: MouseEvent)
    requires CursorSafe(h) && MouseOk(m) && h.tag == Paused
    ensures HandleMouse(h, m).sent == h.sent && HandleMouse(h, m).connected == h.connected
  {
    hide HandleMouse, CursorSafe;
    PauseMouseIs(h, m);
  }

  lemma MouseInBattle(h: HostState, m: MouseEvent)
    requires CursorSafe(h) && Control(h) && MouseOk(m) && Started(Active(h))
    ensures QuietOrShot(h, HandleMouse(h, m))
  {
    if h.tag == TurnP1 {
      hide QuietOrShot, HandleMouse;
      MouseInTurnIsQuiet(h, m);
    } else {
      hide QuietOrShot, Control, MenuChoice, CommitShip, FireAt;
      NothingHappens(h);
      if h.tag == Paused {
        NeverPausedTwice(h);
        MouseInPause(h, m);
        SendsNothing(h, m);
        PausedIsQuiet(h, HandleMouse(h, m));
      }
    }
  }

  lemma MsgInBattle(h: HostState, m: Msg)
    requires MsgOk(h, m) && h.connected && Started(Active(h))
    ensures m.AttackMsg? && h.tag == TurnP2 ==> Cell(m.col, m.row) in h.p1.grid
    ensures QuietOrShot(h, HandleMsg(h, m))
  {
    var r := HandleMsg(h, m);
    if m.AttackMsg? && h.tag == TurnP2 && !Attacked(h.p1.grid[Cell(m.col, m.row)]) {
      assert Fires(h, r, Cell(m.col, m.row));
    } else {
      assert SameBoards(h, r) && r.expl == h.expl;
    }
  }

  /** A shot is recorded, and nothing is reported yet. */
  lemma ShotSyncs(h: HostState, r: HostState, c: Cell, n: Net, on1: Shots, on2: Shots)
    requires GoodBoard(h.p1) && GoodBoard(h.p2) && Sync(h, n, on1, on2)
    requires Fires(h, r, c) && Active(r) == Active(h)
    ensures r.tag == TurnP1 ==> r.p2 != h.p2 && r.p1 == h.p1 && Sync(r, n, on1, AddShot(on2, c))
    ensures r.tag != TurnP1 ==> r.p1 != h.p1 && r.p2 == h.p2 && Sync(r, n, AddShot(on1, c), on2)
  {
    if r.tag == TurnP1 {
      ShotNotTold(h.p2, n.p2, on2, c);
      OneShotMore(h.p2, c);
    } else {
      ShotNotTold(h.p1, n.p1, on1, c);
      OneShotMore(h.p1, c);
    }
    hide GoodBoard, BoardTold, Attack, FleetOf, ShotsOf;
  }

  /** Input and messages in a battle, with what they add to the lists of shots. */
  lemma QuietOrShotSyncs(s: Pair, r: HostState, n: Net)
    requires GoodBoard(s.h.p1) && GoodBoard(s.h.p2) && Sync(s.h, n, s.on1, s.on2)
    requires QuietOrShot(s.h, r) && Started(Active(s.h))
    requires Battle(Active(s.h)) || SameBoards(s.h, r)
    ensures var s' := Recorded(s, r, false); Sync(r, n, s'.on1, s'.on2)
  {
    if SameBoards(s.h, r) && r.expl == s.h.expl {
      hide BoardTold, GoodBoard, Pending;
    } else {
      var c :| Fires(s.h, r, c);
      ShotSyncs(s.h, r, c, n, s.on1, s.on2);
      hide BoardTold, GoodBoard, Attack, Pending, Sync;
    }
  }

  // ---------------------------------------------------------------------------------------------
  // The truth of everything ever sent
  // ---------------------------------------------------------------------------------------------

  /** The copy is the board of the same fleet after some of the shots. */
  ghost predicate ShowsSome(b: BoardState, r: BoardState) {
    exists s: set<Cell> :: s <= ShotsOf(b) && Agree(BoardOf(FleetOf(b), s), r)
  }

  ghost predicate Shows(h: HostState, n: Net) {
    ShowsSome(h.p1, n.p1) && ShowsSome(h.p2, n.p2)
  }

  /** However far behind the client is: what it has heard of the battle so far is true by now. */
  ghost predicate Truthful(h: HostState, own: BoardState) {
    forall n {:trigger h.sent[..n]} :: OPENING <= n <= |h.sent| ==> Shows(h, NetOf(h.sent[..n], own))
  }

  lemma ToldShows(b: BoardState, r: BoardState, t: Shots)
    requires GoodBoard(b) && BoardTold(b, r, t)
    ensures ShowsSome(b, r)
  {
    ReplicaIsTruthful(FleetOf(b), t.cells, t.told);
    assert Known(FleetOf(b), t.cells, t.told) <= ShotsOf(b);
    hide GoodBoard, Agree, Known, BoardOf, ShotsOf;
  }

  lemma MoreShotsShow(b: BoardState, b': BoardState, r: BoardState)
    requires ShowsSome(b, r) && FleetOf(b') == FleetOf(b) && ShotsOf(b) <= ShotsOf(b')
    ensures ShowsSome(b', r)
  {
    var s: set<Cell> :| s <= ShotsOf(b) && Agree(BoardOf(FleetOf(b), s), r);
    assert s <= ShotsOf(b');
    hide Agree, BoardOf, ShotsOf, FleetOf;
  }

  lemma {:induction false} SameNetBoards(ms: seq<Msg>, j: nat, own: BoardState)
    requires j <= |ms| && forall k :: j <= k < |ms| ==> BattleMsg(ms[k]) && !ms[k].AttackMsg?
    ensures NetOf(ms, own).p1 == NetOf(ms[..j], own).p1 && NetOf(ms, own).p2 == NetOf(ms[..j], own).p2
    decreases |ms|
  {
    if j < |ms| {
      var n := |ms| - 1;
      SameNetBoards(ms[..n], j, own);
      assert ms[..n][..j] == ms[..j];
    } else {
      assert ms[..j] == ms;
    }
  }

  lemma TruthAt(h: HostState, r: HostState, own: BoardState, n: nat)
    requires Truthful(h, own) && OPENING <= |h.sent| && OPENING <= n <= |r.sent| && Adds(h.sent, r.sent)
    requires FleetOf(r.p1) == FleetOf(h.p1) && ShotsOf(h.p1) <= ShotsOf(r.p1)
    requires FleetOf(r.p2) == FleetOf(h.p2) && ShotsOf(h.p2) <= ShotsOf(r.p2)
    requires Shows(r, NetOf(r.sent, own))
    ensures Shows(r, NetOf(r.sent[..n], own))
  {
    if n <= |h.sent| {
      assert r.sent[..n] == h.sent[..n];
      var shown := NetOf(h.sent[..n], own);
      MoreShotsShow(h.p1, r.p1, shown.p1);
      MoreShotsShow(h.p2, r.p2, shown.p2);
    } else {
      SameNetBoards(r.sent, n, own);
    }
    hide ShowsSome, FleetOf, ShotsOf, Adds;
  }

  lemma TruthGrows(h: HostState, r: HostState, own: BoardState)
    requires Truthful(h, own) && OPENING <= |h.sent| && Adds(h.sent, r.sent)
    requires FleetOf(r.p1) == FleetOf(h.p1) && ShotsOf(h.p1) <= ShotsOf(r.p1)
    requires FleetOf(r.p2) == FleetOf(h.p2) && ShotsOf(h.p2) <= ShotsOf(r.p2)
    requires Shows(r, NetOf(r.sent, own))
    ensures Truthful(r, own)
  {
    forall n | OPENING <= n <= |r.sent|
      ensures Shows(r, NetOf(r.sent[..n], own))
    {
      TruthAt(h, r, own, n);
    }
    hide Shows, Adds, FleetOf, ShotsOf, NetOf;
  }

  lemma SyncShows(h: HostState, n: Net, on1: Shots, on2: Shots)
    requires GoodBoard(h.p1) && GoodBoard(h.p2) && Sync(h, n, on1, on2)
    ensures Shows(h, n)
  {
    ToldShows(h.p1, n.p1, on1);
    ToldShows(h.p2, n.p2, on2);
    hide GoodBoard, BoardTold, ShowsSome;
  }
}
