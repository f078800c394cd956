/** What holds in every session, however the two machines and the two queues are interleaved. */
module SessionTheorems {
  import opened Boards
  import opened BoardLaws
  import opened Protocol
  import opened Explosion
  import opened Host
  import opened HostControl
  import opened HostSteps
  import opened HostRuns
  import opened HostShots
  import opened Replica
  import opened Client
  import opened Session
  import opened SessionSteps
  import opened SessionBattle
  import opened SessionRuns

  /** Sessions begin where the code begins them: a host that waits for a client and reads its greeting. */
  lemma GreetingStarts(h: HostState, c: ClientState)
    requires Inv(h) && h.tag == WaitingConnect && !h.connected && h.sent == []
    requires c.tag == WaitingConnect && c.p1 == c.p2 == InitialBoard() && c.sent == []
    ensures Start(Pair(HandleMsg(h, Hello), c, 0, 0, Shots([], []), Shots([], [])))
  {
    MsgKeeps(h, Hello);
    EmptyFleet(h.p1);
    EmptyFleet(h.p2);
    hide GoodBoard, BotKnows, InitialBoard;
  }

  lemma MenuToGreeting(h0: HostState)
    requires Init(h0)
    ensures var h1 := HandleKey(h0, KeyDown, true);
            var h2 := HandleKey(h1, KeyEnter, true);
            && h2.tag == WaitingConnect && !h2.connected && h2.sent == [] && h2.data == Words(1, 0, 0, 0, 0)
            && MsgOk(h2, Hello) && h1.tag == MainMenu
  {
  }

  /** There are sessions: started from `game_init` on the host, by Down and Enter in the menu and a greeting. */
  lemma SessionsExist(h0: HostState, c: ClientState) returns (run: seq<HostState>, es: seq<Event>, s: Pair)
    requires Init(h0)
    requires c.tag == WaitingConnect && c.p1 == c.p2 == InitialBoard() && c.sent == []
    ensures IsRun(run, es) && run[0] == h0
    ensures Start(s) && s.h == run[|es|] && s.c == c && IsSession([s], []) && s.h.data == Words(1, 0, 0, 0, 0)
  {
    hide Init, Inv, Start, Apply, Enabled, InitialBoard;
    var e1, e2, e3 := KeyEvent(KeyDown, true), KeyEvent(KeyEnter, true), Incoming(Hello);
    var h1, h2, h3 := ThreeEvents(h0);
    Greeted(h2, h3, c);
    run, es := [h0, h1, h2, h3], [e1, e2, e3];
    s := Pair(h3, c, 0, 0, Shots([], []), Shots([], []));
    ThreeSteps(run, es);
  }

  lemma ThreeEvents(h0: HostState) returns (h1: HostState, h2: HostState, h3: HostState)
    requires Init(h0)
    ensures Inv(h0) && Enabled(h0, KeyEvent(KeyDown, true)) && h1 == Apply(h0, KeyEvent(KeyDown, true))
    ensures Inv(h1) && Enabled(h1, KeyEvent(KeyEnter, true)) && h2 == Apply(h1, KeyEvent(KeyEnter, true))
    ensures Inv(h2) && Enabled(h2, Incoming(Hello)) && h3 == Apply(h2, Incoming(Hello))
    ensures h2.tag == WaitingConnect && !h2.connected && h2.sent == [] && h2.data == Words(1, 0, 0, 0, 0)
  {
    MenuToGreeting(h0);
    InitInv(h0);
    hide Init, Inv, HandleKey, HandleMsg, MsgOk;
    InputSafe(h0);
    ApplyKeeps(h0, KeyEvent(KeyDown, true));
    h1 := Apply(h0, KeyEvent(KeyDown, true));
    InputSafe(h1);
    ApplyKeeps(h1, KeyEvent(KeyEnter, true));
    h2 := Apply(h1, KeyEvent(KeyEnter, true));
    h3 := Apply(h2, Incoming(Hello));
  }

  lemma Greeted(h2: HostState, h3: HostState, c: ClientState)
    requires Inv(h2) && Enabled(h2, Incoming(Hello)) && h3 == Apply(h2, Incoming(Hello))
    requires h2.tag == WaitingConnect && !h2.connected && h2.sent == [] && h2.data == Words(1, 0, 0, 0, 0)
    requires c.tag == WaitingConnect && c.p1 == c.p2 == InitialBoard() && c.sent == []
    ensures Start(Pair(h3, c, 0, 0, Shots([], []), Shots([], []))) && h3.data == Words(1, 0, 0, 0, 0)
  {
    hide Inv, Start, InitialBoard;
    GreetingStarts(h2, c);
  }

  lemma ThreeSteps(run: seq<HostState>, es: seq<Event>)
    requires |run| == 4 && |es| == 3 && Init(run[0])
    requires Steps(run[0], es[0], run[1]) && Steps(run[1], es[1], run[2]) && Steps(run[2], es[2], run[3])
    ensures IsRun(run, es)
  {
    hide Steps, Init;
    forall k {:trigger es[k]} | 0 <= k < |es|
      ensures Steps(run[k], es[k], run[k + 1])
    {
      assert k == 0 || k == 1 || k == 2;
    }
  }

  lemma EmptyFleet(b: BoardState)
    requires GoodBoard(b) && Unshot(b) && |b.ships| == 0
    ensures b == InitialBoard()
  {
    UnshotBoard(b);
    InitialIsBoardOf();
    assert FleetOf(b) == [];
  }

  // ---------------------------------------------------------------------------------------------
  // Steps
  // ---------------------------------------------------------------------------------------------

  lemma HostStep(s: Pair, e: Event)
    requires SessionInv(s) && Possible(s, HostDoes(e))
    ensures Defined(s, HostDoes(e))
    ensures After(s, HostDoes(e)).h.tag != MainMenu ==> SessionInv(After(s, HostDoes(e)))
  {
    hide SessionInv, Linked, HostSide, Mirrored, Inv, Apply, Enabled, BattleInv, Tick;
    InvParts(s);
    LinkedHost(s.h);
    var r := Apply(s.h, e);
    if !Started(Active(s.h)) {
      HostPlaces(s, e);
      InvInPlacing(s.(h := r));
    } else if e.TickEvent? {
      TickIsApply(s.h, e);
      TickStep(s, e.pick, e.fleet);
    } else if r.tag != MainMenu {
      InputStep(s, e);
    }
  }

  lemma TickIsApply(h: HostState, e: Event)
    requires Inv(h) && Enabled(h, e) && e.TickEvent?
    ensures FairDraws(h, e.pick, e.fleet) && Apply(h, e) == Tick(h, e.pick, e.fleet)
  {
  }

  lemma HostPlaces(s: Pair, e: Event)
    requires Together(s) && HostSide(s.h) && Inv(s.h) && Enabled(s.h, e) && !e.Incoming? && !Started(Active(s.h))
    ensures Together(s.(h := Apply(s.h, e))) && !Started(Active(Apply(s.h, e)))
  {
    assert !s.h.single && InSession(Active(s.h));
    hide Linked, HostSide, Inv, Apply, Enabled;
    EventIsPlacing(s.h, e);
    ApplyKeeps(s.h, e);
    PlacingKeeps(s, Apply(s.h, e));
  }

  lemma PlayerStep(s: Pair, i: Input)
    requires SessionInv(s) && Possible(s, ClientDoes(i))
    ensures Defined(s, ClientDoes(i))
    ensures After(s, ClientDoes(i)).c.tag != MainMenu ==> SessionInv(After(s, ClientDoes(i)))
  {
    hide Linked, HostSide, BattleInv, Act, ClientSafe;
    ClientStep(s, i);
  }

  lemma HearingStep(s: Pair)
    requires SessionInv(s) && Possible(s, ClientHears)
    ensures Defined(s, ClientHears) && SessionInv(After(s, ClientHears))
  {
    hide Linked, HostSide, BattleInv, Hear;
    HearStep(s);
  }

  // ---------------------------------------------------------------------------------------------
  // Runs
  // ---------------------------------------------------------------------------------------------

  /** One game: neither machine goes back to the menu. */
  ghost predicate Moves(s: Pair, step: Step, s': Pair) {
    && Possible(s, step)
    && (Defined(s, step) ==> s' == After(s, step))
    && s'.h.tag != MainMenu && s'.c.tag != MainMenu
  }

  ghost predicate IsSession(run: seq<Pair>, steps: seq<Step>) {
    && |run| == |steps| + 1
    && Start(run[0])
    && forall k {:trigger steps[k]} :: 0 <= k < |steps| ==> Moves(run[k], steps[k], run[k + 1])
  }

  lemma StepKeeps(s: Pair, step: Step, s': Pair)
    requires SessionInv(s) && Moves(s, step, s')
    ensures Defined(s, step) && SessionInv(s')
  {
    hide SessionInv, Possible, Defined, After;
    match step
    case HostDoes(e) => HostStep(s, e);
    case ClientDoes(i) => PlayerStep(s, i);
    case HostReads => ReadStep(s);
    case ClientHears => HearingStep(s);
  }

  lemma {:induction false} EverySession(run: seq<Pair>, steps: seq<Step>, k: nat)
    requires IsSession(run, steps) && k <= |steps|
    ensures SessionInv(run[k])
  {
    hide SessionInv, Start, Moves;
    if k == 0 {
      StartInv(run[0]);
    } else {
      EverySession(run, steps, k - 1);
      assert Moves(run[k - 1], steps[k - 1], run[k]);
      StepKeeps(run[k - 1], steps[k - 1], run[k]);
    }
  }

  /** No step of a session makes either machine leave its arrays, and every message finds its reader in
      a state that expects it: placements arrive while the host waits for them and fit, in fleet order,
      the end of placing comes after the fifth, and the client is sent nothing it cannot place. */
  lemma EveryMessageIsExpected(run: seq<Pair>, steps: seq<Step>, k: nat)
    requires IsSession(run, steps) && k < |steps|
    ensures Possible(run[k], steps[k]) && Defined(run[k], steps[k]) && run[k + 1] == After(run[k], steps[k])
    ensures var s := run[k];
            && (steps[k].HostReads? ==> MsgOk(s.h, s.c.sent[s.read]))
            && (steps[k].ClientHears? ==> Sensible(s.h.sent[s.heard], |s.c.p2.ships|, |s.c.p1.ships|))
  {
    var s := run[k];
    assert Moves(s, steps[k], run[k + 1]);
    EverySession(run, steps, k);
    hide SessionInv, Linked, HostSide, Mirrored, Start, MsgOk, Sensible, Inv, After, Defined;
    StepKeeps(s, steps[k], run[k + 1]);
    InvParts(s);
    if steps[k].HostReads? {
      ReadIsOk(s);
    } else if steps[k].ClientHears? {
      NextIsReady(s);
    }
  }

  // ---------------------------------------------------------------------------------------------
  // Fleets
  // ---------------------------------------------------------------------------------------------

  lemma FleetRead(s: Pair)
    requires SessionInv(s) && Started(Active(s.h))
    ensures FullFleet(FleetOf(s.h.p1)) && FullFleet(FleetOf(s.h.p2)) && FleetOf(s.c.p2) == FleetOf(s.h.p2)
  {
    FullFleets(s.h);
    PlacingPrefix(s.c.sent, s.read);
    SameFleets(FleetOf(s.h.p2), FleetOf(s.c.p2), |s.c.p2.ships| == NUM_SHIPS);
  }

  /** From the countdown on the host has the client's fleet. A client that has taken the five placements
      the host sent it has the host's fleet, and as long as it has heard no more than the opening, its two
      boards are these fleets and nothing else. */
  lemma FleetsAreMirrored(run: seq<Pair>, steps: seq<Step>, k: nat)
    requires IsSession(run, steps) && k <= |steps| && Started(Active(run[k].h))
    ensures var s := run[k];
            && FullFleet(FleetOf(s.h.p1)) && FullFleet(FleetOf(s.h.p2)) && FleetOf(s.c.p2) == FleetOf(s.h.p2)
            && (s.h.tag == Counting ==> s.h.p1 == BoardOf(FleetOf(s.h.p1), {}) && s.h.p2 == BoardOf(FleetOf(s.h.p2), {}))
            && (s.heard <= OPENING ==> s.c.p2 == BoardOf(FleetOf(s.h.p2), {}))
            && (8 <= s.heard <= OPENING ==> s.c.p1 == BoardOf(FleetOf(s.h.p1), {}))
  {
    EverySession(run, steps, k);
    var s := run[k];
    FleetRead(s);
    OpeningHeard(s);
    if s.h.tag == Counting { CountingBoards(s.h); }
    hide SessionInv, Inv, BoardOf, FullFleet;
  }

  lemma CountingBoards(h: HostState)
    requires Inv(h) && h.tag == Counting
    ensures h.p1 == BoardOf(FleetOf(h.p1), {}) && h.p2 == BoardOf(FleetOf(h.p2), {})
  {
    UnshotBoard(h.p1);
    UnshotBoard(h.p2);
  }

  lemma SentOpening(h: HostState)
    requires HostSide(h) && Started(Active(h))
    ensures |h.sent| >= OPENING && h.sent[..OPENING] == Opening(FleetOf(h.p1))
  {
  }

  lemma OpeningHeard(s: Pair)
    requires SessionInv(s) && Started(Active(s.h)) && FleetOf(s.c.p2) == FleetOf(s.h.p2) && FullFleet(FleetOf(s.h.p1))
    ensures s.heard <= OPENING ==> s.c.p2 == BoardOf(FleetOf(s.h.p2), {})
    ensures 8 <= s.heard <= OPENING ==> s.c.p1 == BoardOf(FleetOf(s.h.p1), {})
  {
    hide SessionInv, Linked, HostSide, Opening, NetOf, BoardOf, FullFleet, Inv, Mirrored;
    InvParts(s);
    HeardNet(s);
    SentOpening(s.h);
    if s.heard <= OPENING {
      FirstMessages(s.h.sent, FleetOf(s.h.p1), Own(s.h), s.heard);
    }
  }

  lemma FirstMessages(sent: seq<Msg>, f: seq<Placement>, own: BoardState, heard: nat)
    requires heard <= OPENING <= |sent| && sent[..OPENING] == Opening(f) && FullFleet(f)
    ensures NetOf(sent[..heard], own).p2 == own
    ensures heard >= 8 ==> NetOf(sent[..heard], own).p1 == BoardOf(f, {})
  {
    assert sent[..heard] == sent[..OPENING][..heard] && f[..NUM_SHIPS] == f;
    hide Opening, NetOf, BoardOf;
    OpeningNet(f, own, heard);
  }

  // ---------------------------------------------------------------------------------------------
  // Boards
  // ---------------------------------------------------------------------------------------------

  /** However far the client is behind, it never shows anything false: each of its boards is the board
      of the right fleet after some of the shots that the host's board has taken. */
  lemma ClientNeverShowsFalse(run: seq<Pair>, steps: seq<Step>, k: nat)
    requires IsSession(run, steps) && k <= |steps|
    requires Started(Active(run[k].h)) && run[k].heard >= OPENING
    ensures ShowsSome(run[k].h.p1, run[k].c.p1) && ShowsSome(run[k].h.p2, run[k].c.p2)
  {
    EverySession(run, steps, k);
    var s := run[k];
    FleetRead(s);
    HeardNet(s);
    hide SessionInv, NetOf, ShowsSome;
  }

  lemma HeardNet(s: Pair)
    requires SessionInv(s) && Started(Active(s.h)) && FleetOf(s.c.p2) == FleetOf(s.h.p2)
    ensures var n := NetOf(s.h.sent[..s.heard], Own(s.h));
            && s.c.p1 == n.p1 && s.c.p2 == n.p2 && TagFollows(s.c.tag, s.c.prev, n.last, |s.c.p2.ships|)
            && (s.heard >= OPENING ==> Shows(s.h, n))
  {
    assert Truthful(s.h, Own(s.h));
    hide HostSide, Mirrored, Sync, NetOf, Shows;
  }

  /** Every shot that was not reported lies on a ship whose sinking was. */
  ghost predicate LossesHealed(b: BoardState, t: Shots) {
    && |t.told| == |t.cells|
    && forall k :: 0 <= k < |t.cells| && !t.told[k] ==>
         exists i :: 0 <= i < |FleetOf(b)| && Contains(FleetOf(b)[i], t.cells[k]) && SinkingTold(FleetOf(b), t.cells, t.told, i)
  }

  lemma AgreesIfHealed(b: BoardState, r: BoardState, t: Shots)
    requires GoodBoard(b) && BoardTold(b, r, t)
    ensures Agree(b, r) <==> LossesHealed(b, t)
  {
    ReplicaAgreesExactly(FleetOf(b), t.cells, t.told);
    assert b == BoardOf(FleetOf(b), Elements(t.cells));
  }

  /** A client that has heard everything is where the messages are. */
  lemma CaughtUpNet(s: Pair)
    requires SessionInv(s) && Started(Active(s.h)) && s.heard == |s.h.sent|
    ensures var n := NetOf(s.h.sent, Own(s.h));
            && s.c.p1 == n.p1 && s.c.p2 == n.p2 && Sync(s.h, n, s.on1, s.on2)
            && (s.c.tag == n.last || (s.c.tag == Paused && s.c.prev == n.last == TurnP2))
    ensures GoodBoard(s.h.p1) && GoodBoard(s.h.p2)
  {
    hide SessionInv, NetOf, GoodBoard, BoardTold, StandardFleet, Shows;
    FleetRead(s);
    HeardNet(s);
    BattleFacts(s);
    assert s.h.sent[..s.heard] == s.h.sent;
  }

  /** A client that has heard everything is in the host's state of the game, or has paused its own turn,
      and shows the host's boards exactly when the losses are healed: a shot's report is lost when the next
      shot is accepted before its result is read, and it does no harm when the ship it hit is reported sunk. */
  lemma CaughtUpClient(run: seq<Pair>, steps: seq<Step>, k: nat)
    requires IsSession(run, steps) && k <= |steps|
    requires Started(Active(run[k].h)) && run[k].heard == |run[k].h.sent|
    ensures var s := run[k];
            && (s.c.tag == Active(s.h) || (s.c.tag == Paused && s.c.prev == Active(s.h) == TurnP2))
            && (Agree(s.h.p1, s.c.p1) <==> LossesHealed(s.h.p1, s.on1))
            && (Agree(s.h.p2, s.c.p2) <==> LossesHealed(s.h.p2, s.on2))
  {
    var s := run[k];
    hide SessionInv, NetOf, GoodBoard, BoardTold, Agree, LossesHealed, IsSession;
    EverySession(run, steps, k);
    CaughtUpNet(s);
    AgreesIfHealed(s.h.p1, s.c.p1, s.on1);
    AgreesIfHealed(s.h.p2, s.c.p2, s.on2);
  }

  lemma BattleFacts(s: Pair)
    requires SessionInv(s) && Started(Active(s.h))
    ensures Sync(s.h, NetOf(s.h.sent, Own(s.h)), s.on1, s.on2) && GoodBoard(s.h.p1) && GoodBoard(s.h.p2)
    ensures Active(s.h) != PlaceP2
  {
  }

  // ---------------------------------------------------------------------------------------------
  // When no shot is overtaken
  // ---------------------------------------------------------------------------------------------

  /** The shot at this board that is still shown. */
  predicate PendingOn(h: HostState, turn: Tag) {
    Active(h) == turn && Unresolved(h.expl)
  }

  /** Every shot was reported, but for the one that is still shown. */
  predicate AllTold(t: Shots, pending: bool) {
    && |t.told| == |t.cells| && (pending ==> |t.cells| > 0)
    && forall k :: 0 <= k < |t.cells| - (if pending then 1 else 0) ==> t.told[k]
  }

  ghost predicate UpToDate(s: Pair) {
    AllTold(s.on1, PendingOn(s.h, TurnP2)) && AllTold(s.on2, PendingOn(s.h, TurnP1))
  }

  /** What the client is to show: the host's board without the shot that is still shown on the host. */
  ghost function Shown(b: BoardState, at: Cell, pending: bool): BoardState {
    BoardOf(FleetOf(b), if pending then ShotsOf(b) - {at} else ShotsOf(b))
  }

  lemma AgreesIfTold(b: BoardState, r: BoardState, t: Shots, at: Cell, pending: bool)
    requires GoodBoard(b) && BoardTold(b, r, t) && AllTold(t, pending) && (pending ==> Pending(t, at))
    ensures Agree(Shown(b, at, pending), r)
  {
    if pending {
      var n := |t.cells| - 1;
      var f, before := FleetOf(b), t.cells[..n];
      ElementsSplit(t.cells, n);
      assert at !in before;
      assert Elements(before) == ShotsOf(b) - {at};
      assert r == ReplicaOf(f, before, t.told[..n]);
      hide GoodBoard, Agree, BoardOf, ShotsOf;
      ReplicaAgreesExactly(f, before, t.told[..n]);
    } else {
      hide Agree, BoardOf;
      ReplicaAgreesExactly(FleetOf(b), t.cells, t.told);
    }
  }

  /** What a tick does to the shot that is shown: it is read, or it stays. */
  lemma TickPending(h: HostState, pick: Cell, fleet: seq<Placement>)
    requires Inv(h) && FairDraws(h, pick, fleet) && !h.single && Started(Active(h))
    ensures var t := Tick(h, pick, fleet);
            && (CanResolve(h) ==> !Unresolved(t.expl))
            && (!CanResolve(h) ==> Unresolved(t.expl) == Unresolved(h.expl) && (Unresolved(h.expl) ==> Active(t) == Active(h)))
  {
    StagesAre(h);
    ReadsOnlyInTurn(h);
    BeforeBotKeeps(h);
    TickStaysInBattle(h);
    TickWithoutBot(h, pick, fleet, BeforeBot(h));
    PendingStages(h);
    AnimatePaced(BeforeBot(h).expl);
    hide Inv, Tick, BeforeBot, Animate;
  }

  lemma PendingStages(h: HostState)
    requires Control(h)
    ensures var b := BeforeBot(h);
            && Paced(b.expl)
            && (CanResolve(h) ==> !Unresolved(b.expl))
            && (!CanResolve(h) ==> b.expl == h.expl && (Unresolved(h.expl) ==> Active(b) == Active(h)))
  {
    StagesAre(h);
    ReadsOnlyInTurn(h);
    if !CanResolve(h) && Unresolved(h.expl) { OnlyTheCursor(h); }
    if CanResolve(h) { ReportedCell(h); }
    hide Control, TickCountdown, TickPostAttack, TickHandover, TickCursor;
  }

  lemma OnlyTheCursor(h: HostState)
    requires Control(h) && !CanResolve(h) && Unresolved(h.expl)
    ensures BeforeBot(h) == TickCursor(h) && Active(TickCursor(h)) == Active(h)
  {
    StagesAre(h);
    assert TickCountdown(h) == h && TickPostAttack(h) == h && TickHandover(h) == h;
    hide Control, TickCountdown, TickPostAttack, TickHandover;
  }

  /** Before the battle there is nothing to report. */
  lemma NothingShotYet(s: Pair)
    requires SessionInv(s) && s.on1 == s.on2 == Shots([], [])
    ensures UpToDate(s)
  {
    if Started(Active(s.h)) { BattleFacts(s); }
    hide Linked, NetOf, BoardTold;
  }

  lemma TickUpToDate(s: Pair, r: HostState)
    requires UpToDate(s) && SameBoards(s.h, r) && Battle(Active(s.h)) && Control(s.h)
    requires CanResolve(s.h) ==> !Unresolved(r.expl) && Unresolved(s.h.expl)
    requires !CanResolve(s.h) ==> Unresolved(r.expl) == Unresolved(s.h.expl) && (Unresolved(s.h.expl) ==> Active(r) == Active(s.h))
    ensures UpToDate(Recorded(s, r, CanResolve(s.h)))
  {
    assert CanResolve(s.h) ==> Active(s.h) == s.h.tag;
    hide Control;
  }

  lemma OneMorePending(t: Shots, c: Cell)
    requires AllTold(t, false)
    ensures AllTold(AddShot(t, c), true)
  {
  }

  lemma InputUpToDate(s: Pair, r: HostState)
    requires UpToDate(s) && QuietOrShot(s.h, r) && (!SameBoards(s.h, r) ==> !Unresolved(s.h.expl))
    requires GoodBoard(s.h.p1) && GoodBoard(s.h.p2) && Battle(Active(s.h))
    ensures UpToDate(Recorded(s, r, false))
  {
    if SameBoards(s.h, r) && r.expl == s.h.expl {
      assert Recorded(s, r, false) == s.(h := r);
      hide AllTold, GoodBoard;
    } else {
      var c :| Fires(s.h, r, c);
      ShotUpToDate(s, r, c);
    }
  }

  lemma ShotUpToDate(s: Pair, r: HostState, c: Cell)
    requires UpToDate(s) && Fires(s.h, r, c) && Active(r) == Active(s.h) && (!SameBoards(s.h, r) ==> !Unresolved(s.h.expl))
    requires GoodBoard(s.h.p1) && GoodBoard(s.h.p2) && Battle(Active(s.h))
    ensures UpToDate(Recorded(s, r, false))
  {
    if r.tag == TurnP1 { OneShotMore(s.h.p2, c); } else { OneShotMore(s.h.p1, c); }
    assert !Unresolved(s.h.expl) && r.expl.at == c && Unresolved(r.expl);
    assert Recorded(s, r, false) ==
      if r.tag == TurnP1 then s.(h := r, on2 := AddShot(s.on2, c)) else s.(h := r, on1 := AddShot(s.on1, c));
    hide GoodBoard, Attack, FleetOf, ShotsOf, AllTold, Unresolved, Fires, Recorded;
    if r.tag == TurnP1 { OneMorePending(s.on2, c); } else { OneMorePending(s.on1, c); }
  }

  /** The host's own steps in a battle. */
  lemma HostUpToDate(s: Pair, e: Event)
    requires SessionInv(s) && UpToDate(s) && Enabled(s.h, e) && Started(Active(s.h)) && Apply(s.h, e).tag != MainMenu
    requires !SameBoards(s.h, Apply(s.h, e)) ==> !Unresolved(s.h.expl)
    ensures Battle(Active(s.h)) ==> UpToDate(Recorded(s, Apply(s.h, e), e.TickEvent? && CanResolve(s.h)))
  {
    InvParts(s);
    LinkedHost(s.h);
    BattleFacts(s);
    var r := Apply(s.h, e);
    if e.TickEvent? {
      TickIsApply(s.h, e);
      TickPending(s.h, e.pick, e.fleet);
      TickSync(s.h, e.pick, e.fleet, Own(s.h), s.on1, s.on2);
      if Battle(Active(s.h)) {
        assert CanResolve(s.h) ==> Unresolved(s.h.expl);
        assert Control(s.h);
        hide SessionInv, UpToDate, Inv, Tick, Apply, Enabled, Control, CanResolve, Recorded;
        TickUpToDate(s, r);
      }
    } else {
      hide SessionInv, UpToDate, Inv, Apply, Enabled, HostSide, Mirrored, Sync, Recorded;
      InputHost(s.h, e);
      if Battle(Active(s.h)) { InputUpToDate(s, r); }
    }
  }

  lemma CountdownShots(s: Pair)
    requires SessionInv(s) && Active(s.h) == Counting
    ensures s.on1 == s.on2 == Shots([], [])
  {
    BattleFacts(s);
    assert Unshot(s.h.p1) && Unshot(s.h.p2);
    NoShots(s.on1);
    NoShots(s.on2);
  }

  lemma NoShots(t: Shots)
    requires |t.told| == |t.cells|
    ensures Elements(t.cells) == {} ==> t == Shots([], [])
  {
    if t.cells != [] { assert t.cells[0] in Elements(t.cells); }
  }

  /** In the battle a message read is never about placing. */
  lemma BattleMessage(s: Pair)
    requires s.read < |s.c.sent| && SessionInv(s) && Started(Active(s.h))
    ensures var m := s.c.sent[s.read]; !m.ShipPlace? && !m.DonePlacing?
  {
    hide SessionInv, Linked, HostSide, Mirrored;
    InvParts(s);
    if s.c.sent[s.read].ShipPlace? { ShipIsOk(s); }
    if s.c.sent[s.read].DonePlacing? { DoneIsOk(s); }
  }

  lemma ReadUpToDate(s: Pair)
    requires SessionInv(s) && UpToDate(s) && Possible(s, HostReads) && Battle(Active(s.h)) && Defined(s, HostReads)
    requires !SameBoards(s.h, After(s, HostReads).h) ==> !Unresolved(s.h.expl)
    ensures UpToDate(After(s, HostReads))
  {
    hide SessionInv, UpToDate, Inv, Apply, Enabled, Recorded, After, Defined, SameBoards, Unresolved, Battle;
    var e := ReadIsEvent(s);
    RecordedHost(s, Apply(s.h, e), false);
    HostUpToDate(s, e);
    SameUpToDate(Recorded(s, Apply(s.h, e), false), After(s, HostReads));
  }

  /** In the battle a message read is an event of the host, and is recorded as one. */
  lemma ReadIsEvent(s: Pair) returns (e: Event)
    requires SessionInv(s) && Possible(s, HostReads) && Battle(Active(s.h)) && Defined(s, HostReads)
    ensures Inv(s.h) && Enabled(s.h, e) && e.Incoming? && Apply(s.h, e).tag != MainMenu
    ensures var s' := Recorded(s, Apply(s.h, e), false);
            && After(s, HostReads).h == Apply(s.h, e)
            && After(s, HostReads).on1 == s'.on1 && After(s, HostReads).on2 == s'.on2
  {
    hide SessionInv, Linked, HostSide, Mirrored, Inv, Apply, Enabled, MsgOk, Recorded, After, Defined;
    e := Incoming(s.c.sent[s.read]);
    BattleMessage(s);
    ReadIsOk(s);
    InvParts(s);
    PlainEvent(s.h, s.c.sent[s.read], e);
    ReadRecorded(s, e);
    RecordedHost(s, Apply(s.h, e), false);
  }

  lemma PlainEvent(h: HostState, m: Msg, e: Event)
    requires HostSide(h) && MsgOk(h, m) && !m.ShipPlace? && !m.DonePlacing? && e == Incoming(m)
    ensures Inv(h) && Enabled(h, e) && Apply(h, e).tag != MainMenu
    ensures m.AttackMsg? && h.tag == TurnP2 ==> Cell(m.col, m.row) in h.p1.grid
    ensures Apply(h, e) == HandleMsg(h, m)
  {
    hide HostSide, MsgOk, Inv, Apply, Enabled, HandleMsg, InSession;
    SessionTags(h);
    PlainHost(h, m);
  }

  lemma ReadRecorded(s: Pair, e: Event)
    requires Possible(s, HostReads) && Defined(s, HostReads) && e == Incoming(s.c.sent[s.read])
    requires Inv(s.h) && Enabled(s.h, e) && MsgOk(s.h, s.c.sent[s.read])
    requires s.c.sent[s.read].AttackMsg? && s.h.tag == TurnP2 ==> Cell(s.c.sent[s.read].col, s.c.sent[s.read].row) in s.h.p1.grid
    requires Apply(s.h, e) == HandleMsg(s.h, s.c.sent[s.read])
    ensures var s' := Recorded(s, Apply(s.h, e), false); After(s, HostReads) == s'.(read := s'.read + 1)
  {
    hide Inv, Apply, Enabled, MsgOk, Recorded, HandleMsg, After, Defined;
    PlainAfter(s, s.c.sent[s.read]);
  }

  lemma RecordedHost(s: Pair, r: HostState, shown: bool)
    ensures Recorded(s, r, shown).h == r
  {
  }

  lemma SameUpToDate(s: Pair, s': Pair)
    requires UpToDate(s) && s'.h == s.h && s'.on1 == s.on1 && s'.on2 == s.on2
    ensures UpToDate(s')
  {
  }

  lemma HostDoesUpToDate(s: Pair, e: Event)
    requires SessionInv(s) && UpToDate(s) && Possible(s, HostDoes(e)) && Battle(Active(s.h)) && Defined(s, HostDoes(e))
    requires After(s, HostDoes(e)).h.tag != MainMenu
    requires !SameBoards(s.h, After(s, HostDoes(e)).h) ==> !Unresolved(s.h.expl)
    ensures UpToDate(After(s, HostDoes(e)))
  {
    hide SessionInv, UpToDate, Apply, Enabled, Recorded;
    RecordedHost(s, Apply(s.h, e), e.TickEvent? && CanResolve(s.h));
    HostUpToDate(s, e);
  }

  lemma BeforeBattle(s: Pair, step: Step)
    requires Possible(s, step) && Defined(s, step) && !Battle(Active(s.h))
    ensures After(s, step).on1 == s.on1 && After(s, step).on2 == s.on2
  {
    hide Apply, HandleMsg, Act, Hear, Inv, ClientSafe;
  }

  /** A step that fires no shot while another is shown leaves no shot unreported behind. */
  lemma StepUpToDate(s: Pair, step: Step, s': Pair)
    requires SessionInv(s) && UpToDate(s) && Moves(s, step, s')
    requires !SameBoards(s.h, s'.h) ==> !Unresolved(s.h.expl)
    ensures UpToDate(s')
  {
    hide SessionInv, UpToDate, Possible, Defined, After;
    StepKeeps(s, step, s');
    if !Battle(Active(s.h)) {
      if Started(Active(s.h)) { CountdownShots(s); } else { InvParts(s); }
      BeforeBattle(s, step);
      NothingShotYet(s');
    } else if step.HostDoes? {
      HostDoesUpToDate(s, step.e);
    } else if step.HostReads? {
      ReadUpToDate(s);
    } else {
      ClientMoves(s, step);
      SameUpToDate(s, s');
    }
  }

  lemma ClientMoves(s: Pair, step: Step)
    requires Possible(s, step) && Defined(s, step) && (step.ClientDoes? || step.ClientHears?)
    ensures var s' := After(s, step); s'.h == s.h && s'.on1 == s.on1 && s'.on2 == s.on2
  {
    hide Apply, HandleMsg, Act, Hear, Inv, ClientSafe;
  }

  /** Up to step `k` no shot is accepted while an earlier one is shown or waits to be read. */
  ghost predicate OneShotAtATime(run: seq<Pair>, k: nat)
    requires k < |run|
  {
    forall j :: 0 <= j < k && !SameBoards(run[j].h, run[j + 1].h) ==> !Unresolved(run[j].h.expl)
  }

  lemma {:induction false} EveryShotReported(run: seq<Pair>, steps: seq<Step>, k: nat)
    requires IsSession(run, steps) && k <= |steps| && OneShotAtATime(run, k)
    ensures SessionInv(run[k]) && UpToDate(run[k])
  {
    hide SessionInv, UpToDate, Start, Moves, SameBoards;
    EverySession(run, steps, k);
    if k == 0 {
      StartUpToDate(run[0]);
    } else {
      EveryShotReported(run, steps, k - 1);
      assert Moves(run[k - 1], steps[k - 1], run[k]);
      assert !SameBoards(run[k - 1].h, run[k - 1 + 1].h) ==> !Unresolved(run[k - 1].h.expl);
      StepUpToDate(run[k - 1], steps[k - 1], run[k]);
    }
  }

  lemma StartUpToDate(s: Pair)
    requires Start(s) && SessionInv(s)
    ensures UpToDate(s)
  {
    NothingShotYet(s);
  }

  /** The client shows what the host has: in every session in which shots do not overtake each other, a
      client that has heard everything shows both boards, the shot that is still shown on the host aside,
      cell by cell and ship by ship, although it never attacks a board itself. */
  lemma ReplicaFollows(run: seq<Pair>, steps: seq<Step>, k: nat)
    requires IsSession(run, steps) && k <= |steps| && OneShotAtATime(run, k)
    requires Started(Active(run[k].h)) && run[k].heard == |run[k].h.sent|
    ensures var s := run[k];
            && Agree(Shown(s.h.p1, s.h.expl.at, PendingOn(s.h, TurnP2)), s.c.p1)
            && Agree(Shown(s.h.p2, s.h.expl.at, PendingOn(s.h, TurnP1)), s.c.p2)
  {
    var s := run[k];
    hide SessionInv, NetOf, GoodBoard, Agree, UpToDate, Shown, Sync, IsSession, OneShotAtATime;
    EveryShotReported(run, steps, k);
    CaughtUpNet(s);
    NetShows(s, NetOf(s.h.sent, Own(s.h)));
  }

  lemma NetShows(s: Pair, n: Net)
    requires Sync(s.h, n, s.on1, s.on2) && GoodBoard(s.h.p1) && GoodBoard(s.h.p2) && UpToDate(s)
    ensures Agree(Shown(s.h.p1, s.h.expl.at, PendingOn(s.h, TurnP2)), n.p1)
    ensures Agree(Shown(s.h.p2, s.h.expl.at, PendingOn(s.h, TurnP1)), n.p2)
  {
    hide GoodBoard, BoardTold, Agree, AllTold, Shown, Pending;
    AgreesIfTold(s.h.p1, n.p1, s.on1, s.h.expl.at, PendingOn(s.h, TurnP2));
    AgreesIfTold(s.h.p2, n.p2, s.on2, s.h.expl.at, PendingOn(s.h, TurnP1));
  }
}
