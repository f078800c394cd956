/** A session from `game_init` on both machines to a late shot of the client: the premise that excludes such shots
    does exclude something. */
module SessionPaths {
  import opened Boards
  import opened Protocol
  import opened Explosion
  import opened Host
  import opened HostControl
  import opened HostSteps
  import opened HostRuns
  import opened HostShots
  import opened HostProgress
  import opened HostMisses
  import opened HostPaths
  import opened Replica
  import opened Client
  import opened Session
  import opened SessionSteps
  import opened SessionBattle
  import opened SessionRuns
  import opened SessionTheorems
  import opened LateShots
  import HR = HuntRuns
  import R = Rays

  // ---------------------------------------------------------------------------------------------
  // Reachable states of sessions
  // ---------------------------------------------------------------------------------------------

  /** A session whose host has come from `game_init`. */
  ghost predicate SessionTo(run: seq<Pair>, steps: seq<Step>, s: Pair) {
    IsSession(run, steps) && run[|steps|] == s && Reached(run[0].h)
  }

  /** Some such session ends in `s`. */
  ghost predicate Joined(s: Pair) {
    exists run, steps :: SessionTo(run, steps, s)
  }

  lemma JoinedInv(s: Pair)
    requires Joined(s)
    ensures SessionInv(s)
  {
    hide SessionInv;
    var run, steps :| SessionTo(run, steps, s);
    EverySession(run, steps, |steps|);
  }

  lemma SessionGrows(run: seq<Pair>, steps: seq<Step>, s: Pair, step: Step, s': Pair)
    requires SessionTo(run, steps, s) && Moves(s, step, s')
    ensures SessionTo(run + [s'], steps + [step], s')
  {
    hide Moves, Start, Reached;
    var run', steps' := run + [s'], steps + [step];
    forall k {:trigger steps'[k]} | 0 <= k < |steps'|
      ensures Moves(run'[k], steps'[k], run'[k + 1])
    {
      if k < |steps| { assert Moves(run[k], steps[k], run[k + 1]); }
    }
  }

  lemma OneMove(s: Pair, step: Step, s': Pair)
    requires Joined(s) && Moves(s, step, s')
    ensures Joined(s')
  {
    hide SessionTo, Moves;
    var run, steps :| SessionTo(run, steps, s);
    SessionGrows(run, steps, s, step, s');
  }

  lemma PlayingPair(s: Pair)
    requires SessionInv(s)
    ensures Playing(s.c.tag) && ClientSafe(s.c) && Inv(s.h) && s.h.tag != MainMenu && !s.h.single && s.h.connected
    ensures s.heard <= |s.h.sent| && s.read <= |s.c.sent|
  {
    InvParts(s);
    LinkedParts(s);
    SessionTags(s.h);
    ClientIsSafe(s.c, s.h.sent[..s.heard]);
    hide SessionInv, Linked, Follows, Inv;
  }

  /** What a step of the host leaves of the rest. */
  predicate OnlyHost(s: Pair, s': Pair, h: HostState) {
    s'.h == h && s'.c == s.c && s'.heard == s.heard && s'.read == s.read
  }

  lemma HostMoves(s: Pair, e: Event) returns (s': Pair)
    requires Joined(s) && Inv(s.h) && Enabled(s.h, e) && !e.Incoming? && Apply(s.h, e).tag != MainMenu
    ensures Joined(s') && OnlyHost(s, s', Apply(s.h, e))
  {
    hide Joined, Inv, Enabled, Apply, SessionInv;
    JoinedInv(s);
    PlayingPair(s);
    s' := After(s, HostDoes(e));
    assert OnlyHost(s, s', Apply(s.h, e));
    OneMove(s, HostDoes(e), s');
  }

  lemma ClientMovesOn(s: Pair, i: Input) returns (s': Pair)
    requires Joined(s) && ClientSafe(s.c) && InputOk(i) && Act(s.c, i).tag != MainMenu
    ensures Joined(s') && s' == s.(c := Act(s.c, i))
  {
    hide Joined, Act, SessionInv, ClientSafe;
    JoinedInv(s);
    PlayingPair(s);
    s' := s.(c := Act(s.c, i));
    OneMove(s, ClientDoes(i), s');
  }

  lemma NextHits(s: Pair)
    requires Together(s) && s.heard < |s.h.sent|
    ensures var m := s.h.sent[s.heard]; m.AttackMsg? ==> Cell(m.col, m.row) in Target(s.c).grid
  {
    hide Linked, HostSide, Mirrored, Follows, Hear, Sensible;
    NextIsReady(s);
    HearFollows(s.c, s.h.sent[..s.heard], s.h.sent[s.heard]);
  }

  lemma ClientHearsOne(s: Pair) returns (s': Pair)
    requires Joined(s) && s.heard < |s.h.sent|
    ensures var m := s.h.sent[s.heard]; m.AttackMsg? ==> Cell(m.col, m.row) in Target(s.c).grid
    ensures Joined(s') && s' == s.(c := Hear(s.c, s.h.sent[s.heard]), heard := s.heard + 1)
  {
    hide Joined, Hear, SessionInv, Linked, After, Defined, Inv, HostSide, Mirrored;
    JoinedInv(s);
    InvParts(s);
    NextHits(s);
    HearStep(s);
    HearAfter(s);
    s' := After(s, ClientHears);
    JoinedAfter(s, ClientHears, s');
  }

  /** Hearing and reading do not lead to the menu. */
  lemma JoinedAfter(s: Pair, step: Step, s': Pair)
    requires Joined(s) && Possible(s, step) && Defined(s, step) && s' == After(s, step)
    requires SessionInv(s) && Together(s') && (step.ClientHears? || step.HostReads?)
    ensures Joined(s')
  {
    NotInMenu(s');
    hide Joined, Possible, Defined, After, SessionInv, Linked;
    OneMove(s, step, s');
  }

  lemma NotInMenu(s: Pair)
    requires Together(s)
    ensures s.h.tag != MainMenu && s.c.tag != MainMenu
  {
    LinkedParts(s);
    SessionTags(s.h);
    ClientIsSafe(s.c, s.h.sent[..s.heard]);
    hide Linked, Follows, HostSide, Mirrored;
  }

  lemma HostReadsOne(s: Pair) returns (s': Pair)
    requires Joined(s) && s.read < |s.c.sent|
    requires s.c.sent[s.read].AttackMsg? ==> s.h.tag != TurnP2 || !s.h.postWait
    ensures var m := s.c.sent[s.read]; MsgOk(s.h, m) && Inv(s.h) && (m.AttackMsg? && s.h.tag == TurnP2 ==> Cell(m.col, m.row) in s.h.p1.grid)
    ensures Joined(s') && s'.h == HandleMsg(s.h, s.c.sent[s.read]) && s'.c == s.c && s'.heard == s.heard && s'.read == s.read + 1
  {
    hide Joined, SessionInv, Linked, HandleMsg, MsgOk, Inv;
    JoinedInv(s);
    PlayingPair(s);
    ReadIsOk(s);
    ReadStep(s);
    s' := After(s, HostReads);
    InvParts(s');
    JoinedAfter(s, HostReads, s');
  }

  // ---------------------------------------------------------------------------------------------
  // Both players place the example fleet
  // ---------------------------------------------------------------------------------------------

  /** Host and client are as after the greeting, up to the ships that the host has placed. */
  ghost predicate HostPlacing(s: Pair, n: nat) {
    && Placed(s.h, n, false) && s.h.sent == Opening([])[..2]
    && FreshClient(s.c) && s.heard == s.read == 0
  }

  ghost predicate FreshClient(c: ClientState) {
    c.tag == WaitingConnect && c.sent == [] && c.p2 == BoardOf(HR.TWINS[..0], {})
  }

  lemma Greeted() returns (s: Pair)
    ensures Joined(s) && HostPlacing(s, 0)
  {
    hide Init, IsRun, IsSession, Reached, BoardOf, Initial, InitialBoard;
    InitialReached();
    var c := NewClient();
    var run, es, s0 := SessionsExist(Initial(), c);
    s := s0;
    assert RunTo(run, es, s.h);
    EndIsReached(run, es, s.h);
    assert SessionTo([s], [], s);
    StartPlaces(s);
  }

  /** A client that waits for the host. */
  lemma NewClient() returns (c: ClientState)
    ensures c.p1 == c.p2 == InitialBoard() && FreshClient(c)
  {
    var b := InitialBoard();
    c := ClientState(WaitingConnect, MainMenu, false, false, b, b, 0, Words(0, 0, 0, 0, 0), Cell(-1, -1), 0, ResetExplosion(), []);
    InitialIsBoardOf();
    assert HR.TWINS[..0] == [];
  }

  lemma StartPlaces(s: Pair)
    requires Start(s) && s.h.data == Words(1, 0, 0, 0, 0) && FreshClient(s.c)
    ensures HostPlacing(s, 0)
  {
    InitialIsBoardOf();
    assert HR.TWINS[..0] == [];
    hide Inv, BoardOf, InitialBoard;
  }

  lemma EndIsReached(run: seq<HostState>, es: seq<Event>, h: HostState)
    requires RunTo(run, es, h)
    ensures Reached(h)
  {
    hide RunTo;
  }

  /** The host has placed its ships, and the client has heard nothing yet. */
  ghost predicate HostHasPlaced(s: Pair) {
    && s.h.tag == PlaceWaiting && s.h.p1 == BoardOf(HR.TWINS, {})
    && s.h.sent == Opening([])[..3] && FreshClient(s.c) && s.heard == s.read == 0
  }

  lemma HostPlacesOn(s0: Pair, n: nat) returns (s: Pair)
    requires Joined(s0) && HostPlacing(s0, n)
    ensures Joined(s) && HostHasPlaced(s)
    decreases NUM_SHIPS - n
  {
    hide Joined, BoardOf, HandleMouse, Opening, SessionInv;
    JoinedInv(s0);
    PlayingPair(s0);
    InputSafe(s0.h);
    PlaceTwin(s0.h, n);
    s := HostMoves(s0, MouseMove(ClickAt(TwinAt(n))));
    OpeningGrows();
    if n + 1 < NUM_SHIPS { s := HostPlacesOn(s, n + 1); }
  }

  lemma OpeningGrows()
    ensures |Opening([])| == 5
    ensures Opening([])[..2] + [State(TagByte(PlaceP2))] == Opening([])[..3]
    ensures Opening([])[..3] == [HelloAck, State(TagByte(PlaceP1)), State(TagByte(PlaceP2))]
  {
  }

  /** The client has placed its first `n` ships. */
  ghost predicate ClientPlaced(c: ClientState, n: nat) {
    && c.tag == PlaceP2 && n < NUM_SHIPS && c.p2 == BoardOf(HR.TWINS[..n], {}) && c.data.w1 == n && c.data.w2 == 0
    && forall m :: m in c.sent ==> !m.AttackMsg?
  }

  /** The host's first three messages. */
  lemma HearThree(c: ClientState)
    requires c.tag == WaitingConnect
    ensures var r := Hear(Hear(Hear(c, HelloAck), State(TagByte(PlaceP1))), State(TagByte(PlaceP2)));
            r.tag == PlaceP2 && r.data.w1 == r.data.w2 == 0 && r.p1 == c.p1 && r.p2 == c.p2 && r.sent == c.sent
  {
  }

  /** The host waits for the client's ships. */
  ghost predicate HostWaits(h: HostState) {
    && h.p1 == BoardOf(HR.TWINS, {})
    && (h.tag == PlaceWaiting || (h.tag == Counting && h.cdSeconds == COUNTDOWN_START && h.cdTicks == 0))
  }

  lemma ClientIsTold() returns (s: Pair)
    ensures Joined(s) && HostWaits(s.h) && ClientPlaced(s.c, 0)
  {
    hide Joined, BoardOf, Hear, Opening;
    s := Greeted();
    s := HostPlacesOn(s, 0);
    OpeningGrows();
    var c := s.c;
    s := ClientHearsOne(s);
    s := ClientHearsOne(s);
    s := ClientHearsOne(s);
    HearThree(c);
  }

  /** One ship of the client. */
  lemma ClientTwin(c: ClientState, n: nat)
    requires ClientSafe(c) && ClientPlaced(c, n)
    ensures InputOk(MouseInput(ClickAt(TwinAt(n)), Mouse(0, 0, 0)))
    ensures var r := Act(c, MouseInput(ClickAt(TwinAt(n)), Mouse(0, 0, 0)));
            if n + 1 < NUM_SHIPS then ClientPlaced(r, n + 1) else ClientDone(r)
  {
    hide BoardOf, ClientCommit, ClientMenu, ClientFire;
    var x := TwinAt(n);
    var d := c.data.(w3 := x.col, w4 := x.row);
    TwinWanted(n, d);
    assert ClientPlaced(c.(data := d), n);
    ClientCommitsTwin(c.(data := d), n);
  }

  ghost predicate ClientDone(c: ClientState) {
    && c.tag == PlaceWaiting && c.p2 == BoardOf(HR.TWINS, {}) && |c.p2.ships| == NUM_SHIPS
    && forall m :: m in c.sent ==> !m.AttackMsg?
  }

  lemma TwinFits(b: BoardState, n: nat)
    requires n < NUM_SHIPS && b == BoardOf(HR.TWINS[..n], {})
    ensures FullGrid(b.grid) && CanPlace(b, HR.TWINS[n])
    ensures PlaceShip(b, HR.TWINS[n]) == BoardOf(HR.TWINS[..n + 1], {}) && |BoardOf(HR.TWINS[..n + 1], {}).ships| == n + 1
  {
    HR.TwinsAreAFullFleet();
    NextShip(HR.TWINS, n);
  }

  lemma ClientCommitsTwin(c: ClientState, n: nat)
    requires ClientPlaced(c, n) && Wanted(c.data) == HR.TWINS[n]
    ensures FullGrid(c.p2.grid)
    ensures var r := ClientCommit(c); if n + 1 < NUM_SHIPS then ClientPlaced(r, n + 1) else ClientDone(r)
  {
    hide BoardOf, CanPlace, PlaceShip;
    TwinFits(c.p2, n);
    assert n + 1 == NUM_SHIPS ==> HR.TWINS[..n + 1] == HR.TWINS;
  }

  lemma ClientPlacesOn(s0: Pair, n: nat) returns (s: Pair)
    requires Joined(s0) && HostWaits(s0.h) && ClientPlaced(s0.c, n)
    ensures Joined(s) && HostWaits(s.h) && ClientDone(s.c)
    decreases NUM_SHIPS - n
  {
    hide Joined, BoardOf, Act, SessionInv, ClientSafe, HostWaits;
    JoinedInv(s0);
    PlayingPair(s0);
    ClientTwin(s0.c, n);
    s := ClientMovesOn(s0, MouseInput(ClickAt(TwinAt(n)), Mouse(0, 0, 0)));
    if n + 1 < NUM_SHIPS { s := ClientPlacesOn(s, n + 1); }
  }

  /** A message read while the client's ships arrive. */
  lemma ReadKeepsWaiting(h: HostState, m: Msg)
    requires HostWaits(h) && MsgOk(h, m) && h.connected
    ensures HostWaits(HandleMsg(h, m))
  {
    hide BoardOf, PlaceShip;
  }

  lemma ReadShips(s0: Pair) returns (s: Pair)
    requires Joined(s0) && HostWaits(s0.h) && ClientDone(s0.c)
    ensures Joined(s) && HostWaits(s.h) && ClientDone(s.c) && s.read == |s.c.sent| && s.c == s0.c && s.heard == s0.heard
    decreases |s0.c.sent| - s0.read
  {
    hide Joined, BoardOf, SessionInv, HandleMsg, MsgOk, HostWaits, Inv;
    JoinedInv(s0);
    PlayingPair(s0);
    s := s0;
    if s0.read < |s0.c.sent| {
      assert s0.c.sent[s0.read] in s0.c.sent;
      s := HostReadsOne(s0);
      ReadKeepsWaiting(s0.h, s0.c.sent[s0.read]);
      s := ReadShips(s);
    }
  }

  /** When everything is read the countdown has begun. */
  lemma AllRead(s: Pair)
    requires SessionInv(s) && s.read == |s.c.sent| && |s.c.p2.ships| == NUM_SHIPS
    ensures Started(Active(s.h))
  {
    assert s.c.sent[..s.read] == s.c.sent;
    AnnouncedPrefix(FleetOf(s.c.p2), true, FleetOf(s.h.p2), Started(Active(s.h)));
    hide Linked, Placing;
  }

  /** Both fleets are placed, the countdown begins, and all that the client sent was read. */
  lemma BattleIsNear() returns (s: Pair)
    ensures Joined(s) && CountsDown(s.h, 150) && ClientDone(s.c) && s.read == |s.c.sent|
  {
    hide Joined, BoardOf, SessionInv, ClientPlaced, HostWaits;
    s := ClientIsTold();
    s := ClientPlacesOn(s, 0);
    s := ReadShips(s);
    JoinedInv(s);
    AllRead(s);
    FleetRead(s);
    InvParts(s);
    Counts(s.h, s.c);
  }

  lemma Counts(h: HostState, c: ClientState)
    requires Inv(h) && HostWaits(h) && Started(Active(h)) && ClientDone(c) && FleetOf(c.p2) == FleetOf(h.p2)
    ensures CountsDown(h, 150)
  {
    CountingBoards(h);
    BoardOfInverse(HR.TWINS, {});
    hide Inv, BoardOf;
    assert h.tag == Counting;
    CountsFrom(h);
  }

  // ---------------------------------------------------------------------------------------------
  // Player 1 misses
  // ---------------------------------------------------------------------------------------------

  /** The rest of the pair while only the host moves. */
  predicate SameRest(s: Pair, s': Pair) {
    s'.c == s.c && s'.heard == s.heard && s'.read == s.read
  }

  lemma HostTicks(s: Pair, pick: Cell) returns (s': Pair)
    requires Joined(s) && Inv(s.h) && FairDraws(s.h, pick, HR.TWINS) && Tick(s.h, pick, HR.TWINS).tag != MainMenu
    ensures Joined(s') && s'.h == Tick(s.h, pick, HR.TWINS) && SameRest(s, s')
  {
    hide Joined, Inv, FairDraws, Tick;
    s' := HostMoves(s, TickEvent(pick, HR.TWINS));
  }

  lemma CountedDownTogether(s0: Pair, n: int) returns (s: Pair)
    requires Joined(s0) && CountsDown(s0.h, n)
    ensures Joined(s) && FirstTurn(s.h) && SameRest(s0, s)
    decreases n
  {
    hide Joined, BoardOf, SessionInv, Inv, FairDraws, Tick, Running;
    JoinedInv(s0);
    PlayingPair(s0);
    var pick := SomeDraw(s0.h);
    CountdownTick(s0.h, pick, HR.TWINS, n);
    s := HostTicks(s0, pick);
    if n > 1 { s := CountedDownTogether(s, n - 1); }
  }

  /** Player 1's board has taken the shots `shots`, player 2's only the one at the water. */
  ghost predicate ShotAt(h: HostState, shots: set<Cell>) {
    h.p1 == BoardOf(HR.TWINS, shots) && ShotsOf(h.p2) == {WATER}
  }

  lemma SameShots(h: HostState, r: HostState, shots: set<Cell>)
    requires ShotAt(h, shots) && SameBoards(h, r)
    ensures ShotAt(r, shots)
  {
  }

  lemma MissRunsOut(s0: Pair, n: int) returns (s: Pair)
    requires Joined(s0) && s0.h.tag == TurnP1 && OnItsWay(s0.h, n, WATER) && ShotAt(s0.h, {}) && n >= 1
    ensures Joined(s) && s.h.tag == HandoverP2 && ShotAt(s.h, {}) && SameRest(s0, s)
    decreases n
  {
    hide Joined, ShotAt, SessionInv, Inv, FairDraws, Tick, OnItsWay;
    JoinedInv(s0);
    PlayingPair(s0);
    var pick := SomeDraw(s0.h);
    MissTick(s0.h, pick, HR.TWINS, n, WATER);
    s := HostTicks(s0, pick);
    SameShots(s0.h, s.h, {});
    if n > 1 { s := MissRunsOut(s, n - 1); }
  }

  lemma HandoverTick(h: HostState, pick: Cell, n: int)
    requires Inv(h) && FairDraws(h, pick, HR.TWINS) && !h.single && h.tag == HandoverP2 && Running(h, n, TurnP2)
    ensures var r := Tick(h, pick, HR.TWINS);
            && SameBoards(h, r) && !r.postWait && !Unresolved(r.expl)
            && if n == 1 then r.tag == TurnP2 else r.tag == HandoverP2 && Running(r, n - 1, TurnP2)
  {
    var b, r := BeforeBot(h), Tick(h, pick, HR.TWINS);
    BeforeBotKeeps(h);
    TickKeeps(h, pick, HR.TWINS);
    TickApproaches(h, pick, HR.TWINS);
    TurnBeginsQuietly(h);
    QuietTickFlows(h);
    TickWithoutBot(h, pick, HR.TWINS, b);
    AnimatePaced(b.expl);
    hide GoodBoard, BotKnows, Tick, BeforeBot, Animate, Paced, TicksLeft, EndsNow;
    assert Control(r);
    hide Control;
  }

  lemma HandoverRunsOut(s0: Pair, n: int) returns (s: Pair)
    requires Joined(s0) && s0.h.tag == HandoverP2 && Running(s0.h, n, TurnP2) && n >= 1 && ShotAt(s0.h, {})
    ensures Joined(s) && s.h.tag == TurnP2 && !s.h.postWait && !Unresolved(s.h.expl) && ShotAt(s.h, {}) && SameRest(s0, s)
    decreases n
  {
    hide Joined, ShotAt, SessionInv, Inv, FairDraws, Tick, Running;
    JoinedInv(s0);
    PlayingPair(s0);
    var pick := SomeDraw(s0.h);
    HandoverTick(s0.h, pick, n);
    s := HostTicks(s0, pick);
    SameShots(s0.h, s.h, {});
    if n > 1 { s := HandoverRunsOut(s, n - 1); }
  }

  lemma HandoverRuns(h: HostState)
    requires Inv(h) && h.tag == HandoverP2
    ensures Ending(h) && Paced(h.expl) && Remaining(h) >= 1 && Running(h, Remaining(h), TurnP2)
  {
    hide GoodBoard, BotKnows;
  }

  /** It is the client's turn, player 1 has missed, and the client has sent no shot. */
  lemma ClientIsNext() returns (s: Pair)
    ensures Joined(s) && s.h.tag == TurnP2 && !s.h.postWait && !Unresolved(s.h.expl) && ShotAt(s.h, {}) && ClientDone(s.c)
  {
    hide Joined, BoardOf, SessionInv, Apply, Inv, ClientDone, CountsDown, FirstTurn, Running, Ending, Paced;
    s := BattleIsNear();
    s := CountedDownTogether(s, 150);
    s := PlayerOneMisses(s);
    s := MissRunsOut(s, 145);
    JoinedInv(s);
    PlayingPair(s);
    HandoverRuns(s.h);
    s := HandoverRunsOut(s, Remaining(s.h));
  }

  lemma PlayerOneMisses(s0: Pair) returns (s: Pair)
    requires Joined(s0) && FirstTurn(s0.h)
    ensures Joined(s) && s.h.tag == TurnP1 && OnItsWay(s.h, 145, WATER) && ShotAt(s.h, {}) && SameRest(s0, s)
  {
    hide Joined, BoardOf, SessionInv, Apply, Inv, OnItsWay;
    JoinedInv(s0);
    PlayingPair(s0);
    FirstShot(s0.h);
    s := HostMoves(s0, MouseMove(ClickAt(WATER)));
  }

  // ---------------------------------------------------------------------------------------------
  // The client catches up
  // ---------------------------------------------------------------------------------------------

  lemma HeardTag(c: ClientState, m: Msg)
    requires c.tag != Paused && Sensible(m, |c.p2.ships|, |c.p1.ships|)
    requires m.AttackMsg? ==> Cell(m.col, m.row) in Target(c).grid
    ensures Hear(c, m).tag != Paused && Hear(c, m).sent == c.sent
  {
    hide Reported, PlaceShip, InitialBoard, ResetExplosion, ShipOf, StartExplosion, SignedByte;
    if m.State? { HeardStateTag(c, TagOf(m.state)); }
    hide HearState;
  }

  lemma HeardStateTag(c: ClientState, next: Tag)
    requires c.tag != Paused && Announceable(next)
    ensures HearState(c, next).tag != Paused && HearState(c, next).sent == c.sent
  {
    hide InitialBoard, ResetExplosion;
  }

  lemma CatchesUp(s0: Pair) returns (s: Pair)
    requires Joined(s0) && s0.c.tag != Paused && s0.heard <= |s0.h.sent|
    ensures Joined(s) && s.c.tag != Paused && s.c.sent == s0.c.sent && s.h == s0.h && s.read == s0.read && s.heard == |s.h.sent|
    decreases |s0.h.sent| - s0.heard
  {
    hide Joined, SessionInv, Linked, Hear, Sensible, HostSide, Mirrored, Follows;
    s := s0;
    if s0.heard < |s0.h.sent| {
      JoinedInv(s0);
      InvParts(s0);
      NextIsReady(s0);
      s := ClientHearsOne(s0);
      HeardTag(s0.c, s0.h.sent[s0.heard]);
      s := CatchesUp(s);
    }
  }

  /** The client's turn on both machines, with what the host has not read yet free of shots. */
  ghost predicate ClientsTurn(s: Pair, shots: set<Cell>) {
    && Joined(s) && s.h.tag == TurnP2 && !s.h.postWait && ShotAt(s.h, shots)
    && s.c.tag == TurnP2 && s.heard >= OPENING && NoShotUnread(s.c.sent, s.read)
  }

  predicate NoShotUnread(sent: seq<Msg>, read: nat) {
    forall i :: read <= i < |sent| ==> !sent[i].AttackMsg?
  }

  lemma ClientKnows() returns (s: Pair)
    ensures ClientsTurn(s, {}) && !Unresolved(s.h.expl) && s.heard == |s.h.sent|
  {
    hide Joined, SessionInv, ShotAt, Unresolved;
    s := ClientIsNext();
    assert forall i :: s.read <= i < |s.c.sent| ==> s.c.sent[i] in s.c.sent;
    JoinedInv(s);
    PlayingPair(s);
    s := CatchesUp(s);
    JoinedInv(s);
    InvParts(s);
    CaughtUpNet(s);
    LastIsActive(s.h, NetOf(s.h.sent, Own(s.h)), s.on1, s.on2);
    SentOpening(s.h);
  }

  lemma LastIsActive(h: HostState, n: Net, on1: Shots, on2: Shots)
    requires Sync(h, n, on1, on2)
    ensures n.last == Active(h)
  {
  }

  /** The animation's distance to its end, whatever its counters. */
  function AnimationLeft(e: ExplState): nat {
    if e.exploding then
      (if e.frame + 1 < FRAMES then FRAMES - e.frame else 1) * TICKS_PER_FRAME - e.ticks % TICKS_PER_FRAME + WAIT_TICKS
    else if e.waiting then if e.waitTicks < WAIT_TICKS then WAIT_TICKS - e.waitTicks else 1
    else 0
  }

  lemma AnimationEnds(e: ExplState)
    requires IsExploding(e)
    ensures AnimationLeft(Animate(e)) < AnimationLeft(e)
  {
  }

  lemma Elapsed(c: ClientState, read: nat)
    requires NoShotUnread(c.sent, read) && ClientSafe(c)
    ensures var r := Act(c, Elapse(false));
            r.tag == c.tag && r.expl == Animate(c.expl) && |r.sent| >= |c.sent| && NoShotUnread(r.sent, read)
  {
    hide Animate, AsByte;
  }

  /** The client's animation runs to its end. */
  lemma AnimationRunsOut(s0: Pair, shots: set<Cell>) returns (s: Pair)
    requires ClientsTurn(s0, shots)
    ensures ClientsTurn(s, shots) && s.h == s0.h && s.heard == s0.heard && !IsExploding(s.c.expl)
    decreases AnimationLeft(s0.c.expl)
  {
    hide Joined, SessionInv, ShotAt, Act, ClientSafe, NoShotUnread, Animate, AnimationLeft;
    s := s0;
    if IsExploding(s0.c.expl) {
      JoinedInv(s0);
      PlayingPair(s0);
      AnimationEnds(s0.c.expl);
      Elapsed(s0.c, s0.read);
      s := ClientMovesOn(s0, Elapse(false));
      s := AnimationRunsOut(s, shots);
    }
  }

  /** What the host does with a message that is no shot and places nothing. */
  lemma QuietRead(h: HostState, m: Msg)
    requires h.tag == TurnP2 && h.connected && !m.AttackMsg? && !m.ShipPlace?
    ensures var r := HandleMsg(h, m); r == h.(remote := r.remote, over := r.over)
  {
  }

  /** The host reads what the client has sent. */
  lemma ReadsOn(s0: Pair, shots: set<Cell>) returns (s: Pair)
    requires ClientsTurn(s0, shots)
    ensures ClientsTurn(s, shots) && s.c == s0.c && s.heard == s0.heard && s.read == |s.c.sent|
    ensures s.h == s0.h.(remote := s.h.remote, over := s.h.over)
    decreases |s0.c.sent| - s0.read
  {
    hide Joined, SessionInv, HandleMsg, MsgOk, Inv;
    JoinedInv(s0);
    PlayingPair(s0);
    s := s0;
    if s0.read < |s0.c.sent| {
      BattleMessage(s0);
      s := HostReadsOne(s0);
      QuietRead(s0.h, s0.c.sent[s0.read]);
      s := ReadsOn(s, shots);
    }
  }

  /** A cell that the host's board was not shot at is open on the client's copy. */
  lemma OpenOnCopy(b: BoardState, r: BoardState, x: Cell)
    requires ShowsSome(b, r) && InGrid(x) && x !in ShotsOf(b)
    ensures R.IsFresh(r.grid, x)
  {
    var s: set<Cell> :| s <= ShotsOf(b) && Agree(BoardOf(FleetOf(b), s), r);
    assert x !in s;
  }

  lemma CopyShows(s: Pair)
    requires SessionInv(s) && Started(Active(s.h)) && s.heard >= OPENING
    ensures ShowsSome(s.h.p1, s.c.p1)
  {
    FleetRead(s);
    HeardNet(s);
    hide SessionInv, NetOf, ShowsSome;
  }

  /** The client shoots at `x`. */
  lemma ClientShoots(c: ClientState, x: Cell)
    requires ClientSafe(c) && c.tag == TurnP2 && !IsExploding(c.expl) && InGrid(x) && R.IsFresh(c.p1.grid, x)
    ensures InputOk(MouseInput(ClickAt(x), Mouse(0, 0, 0)))
    ensures var r := Act(c, MouseInput(ClickAt(x), Mouse(0, 0, 0)));
            r.tag == TurnP2 && r.sent == c.sent + [AttackMsg(x.col, x.row, 0)]
  {
    hide ClientCommit, ClientMenu;
    assert AsByte(x.col) == x.col && AsByte(x.row) == x.row;
  }

  /** Idle, and read to the end. */
  ghost predicate ReadyToShoot(s: Pair, shots: set<Cell>) {
    ClientsTurn(s, shots) && !IsExploding(s.c.expl) && s.read == |s.c.sent|
  }

  lemma GetsReady(s0: Pair, shots: set<Cell>) returns (s: Pair)
    requires ClientsTurn(s0, shots)
    ensures ReadyToShoot(s, shots) && s.heard == s0.heard && s.h == s0.h.(remote := s.h.remote, over := s.h.over)
  {
    hide ClientsTurn;
    s := AnimationRunsOut(s0, shots);
    s := ReadsOn(s, shots);
  }

  lemma OpenForShot(s: Pair, shots: set<Cell>, x: Cell)
    requires ReadyToShoot(s, shots) && shots <= AllCells() && InGrid(x) && x !in shots
    ensures Joined(s) && ClientSafe(s.c) && s.c.tag == TurnP2 && !IsExploding(s.c.expl) && R.IsFresh(s.c.p1.grid, x)
  {
    hide Joined, SessionInv, ClientSafe, NoShotUnread, IsExploding, R.IsFresh, ShowsSome;
    JoinedInv(s);
    PlayingPair(s);
    CopyShows(s);
    BoardOfInverse(HR.TWINS, shots);
    hide BoardOf, ShotsOf;
    OpenOnCopy(s.h.p1, s.c.p1, x);
  }

  /** A shot of the client at a cell where the host's board was not shot at is on its way. */
  lemma ShotSent(s0: Pair, shots: set<Cell>, x: Cell) returns (s: Pair)
    requires ClientsTurn(s0, shots) && shots <= AllCells() && InGrid(x) && x !in shots
    ensures Joined(s) && s.h == s0.h.(remote := s.h.remote, over := s.h.over) && s.heard == s0.heard >= OPENING && s.c.tag == TurnP2
    ensures s.read + 1 == |s.c.sent| && s.c.sent[s.read] == AttackMsg(x.col, x.row, 0)
  {
    hide Joined, ClientsTurn, ReadyToShoot, Act, ClientSafe, IsExploding, R.IsFresh;
    var s1 := GetsReady(s0, shots);
    OpenForShot(s1, shots, x);
    ClientShoots(s1.c, x);
    ReadyParts(s1, shots);
    s := ClientMovesOn(s1, MouseInput(ClickAt(x), Mouse(0, 0, 0)));
  }

  lemma ReadyParts(s: Pair, shots: set<Cell>)
    requires ReadyToShoot(s, shots)
    ensures s.read == |s.c.sent| && s.heard >= OPENING
  {
  }

  // ---------------------------------------------------------------------------------------------
  // The client misses, and shoots again
  // ---------------------------------------------------------------------------------------------

  /** The client's miss is shown on the host, `left` ticks before it is to be read. */
  ghost predicate ClientMissShown(h: HostState, left: int) {
    && h.tag == TurnP2 && !h.postWait && Unresolved(h.expl) && !h.expl.isHit && Paced(h.expl) && TicksLeft(h.expl) == left
    && ShotAt(h, {WATER}) && !AllSunk(h.p1)
  }

  lemma ClientMisses(h: HostState)
    requires h.tag == TurnP2 && !h.postWait && !Unresolved(h.expl) && ShotAt(h, {})
    ensures WATER in h.p1.grid
    ensures var r := HandleMsg(h, AttackMsg(9, 9, 0)); ClientMissShown(r, 85) && r.sent == h.sent
  {
    hide BoardOf, Attack, ShotsOf, AllSunk;
    WaterShotShown(h.p1);
    NewMissShown(h.expl);
  }

  lemma NewMissShown(e: ExplState)
    requires !Unresolved(e)
    ensures var e' := StartExplosion(e, WATER, false); Unresolved(e') && !e'.isHit && Paced(e') && TicksLeft(e') == 85
  {
  }

  lemma WaterShotShown(b: BoardState)
    requires b == BoardOf(HR.TWINS, {})
    ensures WATER in b.grid && b.grid[WATER] == Empty && !Attacked(b.grid[WATER])
    ensures var b' := Attack(b, WATER);
            WATER in b'.grid && b'.grid[WATER] == Miss && !AllSunk(b') && b' == BoardOf(HR.TWINS, {WATER})
  {
    HR.TwinsAreAFullFleet();
    FreshBoard();
    AttackRefines(HR.TWINS, {}, WATER);
    assert {} + {WATER} == {WATER};
    hide BoardOf;
  }

  /** The host reads the shot. */
  lemma FirstShotRead(s0: Pair) returns (s: Pair)
    requires Joined(s0) && s0.h.tag == TurnP2 && !s0.h.postWait && !Unresolved(s0.h.expl) && ShotAt(s0.h, {})
    requires s0.read + 1 == |s0.c.sent| && s0.c.sent[s0.read] == AttackMsg(9, 9, 0) && s0.heard >= OPENING && s0.c.tag == TurnP2
    ensures ClientsTurn(s, {WATER}) && ClientMissShown(s.h, 85)
  {
    hide Joined, SessionInv, HandleMsg, MsgOk, Inv, ClientMissShown, ShotAt;
    s := HostReadsOne(s0);
    ClientMisses(s0.h);
    ShownParts(s.h, 85);
  }

  lemma ShownParts(h: HostState, left: int)
    requires ClientMissShown(h, left)
    ensures h.tag == TurnP2 && !h.postWait && ShotAt(h, {WATER})
  {
  }

  /** The link does not touch what is shown. */
  lemma StillShown(h: HostState, r: HostState, left: int)
    requires ClientMissShown(h, left) && r == h.(remote := r.remote, over := r.over)
    ensures ClientMissShown(r, left)
  {
    hide BoardOf, ShotsOf, AllSunk, Paced, TicksLeft;
  }

  /** A tick while the miss is shown; the last one reads it. */
  lemma ClientMissTick(h: HostState, pick: Cell, left: int)
    requires Inv(h) && FairDraws(h, pick, HR.TWINS) && !h.single && ClientMissShown(h, left)
    ensures var r := Tick(h, pick, HR.TWINS);
            if left > 0 then ClientMissShown(r, left - 1) else r.tag == TurnP2 && r.postWait && ShotAt(r, {WATER})
  {
    hide GoodBoard, BotKnows, BeforeBot, EndsNow, Animate, Tick, ShotAt, FairDraws, TicksLeft;
    var b := BeforeBot(h);
    BeforeBotKeeps(h);
    AnimatePaced(h.expl);
    if h.expl.finished {
      ReadingTick(h);
      AnimatePaced(b.expl);
    } else {
      ShowingTick(h);
    }
    TickWithoutBot(h, pick, HR.TWINS, b);
    assert !AllSunk(b.p1);
    SameShots(h, Tick(h, pick, HR.TWINS), {WATER});
    hide Control, AllSunk;
  }

  lemma MissWaitedOut(s0: Pair, left: int) returns (s: Pair)
    requires Joined(s0) && ClientMissShown(s0.h, left) && left >= 0
    ensures Joined(s) && s.h.tag == TurnP2 && s.h.postWait && ShotAt(s.h, {WATER}) && SameRest(s0, s)
    decreases left
  {
    hide Joined, ShotAt, SessionInv, Inv, FairDraws, Tick, ClientMissShown;
    JoinedInv(s0);
    PlayingPair(s0);
    var pick := SomeDraw(s0.h);
    ClientMissTick(s0.h, pick, left);
    TagShown(Tick(s0.h, pick, HR.TWINS), left - 1);
    s := HostTicks(s0, pick);
    if left > 0 { s := MissWaitedOut(s, left - 1); }
  }

  lemma TagShown(h: HostState, left: int)
    ensures ClientMissShown(h, left) ==> h.tag == TurnP2
  {
  }

  /** The client's miss is shown on the host, and nothing is on its way. */
  lemma ClientHasMissed() returns (s: Pair)
    ensures ClientsTurn(s, {WATER}) && ClientMissShown(s.h, 85)
  {
    hide Joined, ClientsTurn, ClientMissShown, ShotAt;
    var s0 := ClientKnows();
    TurnParts(s0, {});
    var s1 := ShotSent(s0, {}, WATER);
    SameShots(s0.h, s1.h, {});
    s := FirstShotRead(s1);
  }

  lemma ShotIsLate() returns (s: Pair)
    ensures Joined(s) && LateShot(s, WATER_TOO)
  {
    hide Joined, ClientsTurn, ClientMissShown, ShotAt, LateShot, SessionInv;
    var s0 := ClientHasMissed();
    var s1 := ShotSent(s0, {WATER}, WATER_TOO);
    StillShown(s0.h, s1.h, 85);
    s := MissWaitedOut(s1, 85);
    JoinedInv(s);
    PlayingPair(s);
    IsLate(s);
  }

  /** Sessions reach late shots: player 1 misses, the client misses, and its player shoots again as soon as its own
      animation is over, while the host still waits out the miss. */
  lemma LateShotsHappen() returns (run: seq<Pair>, steps: seq<Step>)
    ensures IsSession(run, steps) && Reached(run[0].h) && LateShot(run[|steps|], WATER_TOO)
  {
    hide IsSession, LateShot, Reached;
    var s := ShotIsLate();
    run, steps :| SessionTo(run, steps, s);
  }

  /** So the premise on late shots is needed: a session that keeps it, in which the host then reads such a shot
      and nothing but ticks happen on it until a client that hears everything shows a hit that never happened. */
  lemma PremiseIsNeeded() returns (run: seq<Pair>, steps: seq<Step>, hs: seq<HostState>, c': ClientState)
    ensures IsSession(run, steps) && Reached(run[0].h) && LateShot(run[|steps|], WATER_TOO)
    ensures var s := run[|steps|];
            && WATER_TOO in s.h.p1.grid && s.heard <= |s.h.sent|
            && |hs| >= 2 && hs[0] == HandleMsg(s.h, s.c.sent[s.read]) && TicksOnly(hs)
            && s.h.sent <= hs[|hs| - 1].sent && HearsAll(s.c, hs[|hs| - 1].sent[s.heard..], c')
            && !ShowsSome(hs[|hs| - 1].p2, c'.p2)
  {
    hide LateShot, Reached, SessionInv, TicksOnly, HearsAll, ShowsSome, Start, Moves;
    run, steps := LateShotsHappen();
    EverySession(run, steps, |steps|);
    hs, c' := LateShotDeceives(run[|steps|], WATER_TOO);
  }

  lemma TurnParts(s: Pair, shots: set<Cell>)
    requires ClientsTurn(s, shots)
    ensures s.h.tag == TurnP2 && !s.h.postWait && ShotAt(s.h, shots)
  {
  }

  lemma IsLate(s: Pair)
    requires s.h.tag == TurnP2 && s.h.postWait && !s.h.single && ShotAt(s.h, {WATER}) && Inv(s.h)
    requires s.read + 1 == |s.c.sent| && s.c.sent[s.read] == AttackMsg(9, 8, 0)
    ensures LateShot(s, WATER_TOO)
  {
    BoardOfInverse(HR.TWINS, {WATER});
    OtherWater(s.h.p1);
    OtherWater(s.h.p2);
    hide Inv, ShotsOf, BoardOf;
  }
}
