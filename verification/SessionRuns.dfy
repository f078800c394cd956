/** Whole sessions: any interleaving of the two machines and the two queues, from the greeting to the end
    of the game. */
module SessionRuns {
  import opened Boards
  import opened BoardLaws
  import opened Protocol
  import opened Explosion
  import opened Host
  import opened HostControl
  import opened HostSteps
  import opened HostRuns
  import opened HostPause
  import opened HostShots
  import opened Client
  import opened Session
  import opened SessionSteps
  import opened SessionBattle

  /** The client's fleet as the host knows it, before any shot. */
  ghost function Own(h: HostState): BoardState {
    BoardOf(FleetOf(h.p2), {})
  }

  /** In the battle the messages follow the host's boards, and whatever was ever sent is true. */
  ghost predicate BattleInv(h: HostState, on1: Shots, on2: Shots) {
    Sync(h, NetOf(h.sent, Own(h)), on1, on2) && Truthful(h, Own(h))
  }

  ghost predicate SessionInv(s: Pair) {
    && Together(s)
    && if Started(Active(s.h)) then BattleInv(s.h, s.on1, s.on2) else s.on1 == s.on2 == Shots([], [])
  }

  lemma InvInPlacing(s: Pair)
    requires Together(s) && !Started(Active(s.h)) && s.on1 == s.on2 == Shots([], [])
    ensures SessionInv(s)
  {
  }

  lemma InvInBattle(s: Pair)
    requires Together(s) && Started(Active(s.h)) && BattleInv(s.h, s.on1, s.on2)
    ensures SessionInv(s)
  {
  }

  lemma InvParts(s: Pair)
    requires SessionInv(s)
    ensures Together(s) && HostSide(s.h) && Mirrored(s.h, s.c, s.read) && Inv(s.h)
    ensures !Started(Active(s.h)) ==> s.on1 == s.on2 == Shots([], [])
    ensures Started(Active(s.h)) ==> BattleInv(s.h, s.on1, s.on2)
  {
  }

  lemma StartInv(s: Pair)
    requires Start(s)
    ensures SessionInv(s)
  {
    StartTogether(s);
  }

  // ---------------------------------------------------------------------------------------------
  // The host places its ships
  // ---------------------------------------------------------------------------------------------

  /** Outside the battle a tick does nothing on the host that a client could notice. */
  lemma QuietTick(h: HostState, pick: Cell, fleet: seq<Placement>)
    requires Inv(h) && FairDraws(h, pick, fleet) && !h.single
    requires h.tag == PlaceP1 || h.tag == PlaceWaiting || h.tag == Paused
    ensures var r := Tick(h, pick, fleet);
            r == h.(cursorTick := r.cursorTick)
  {
    hide GoodBoard, BotKnows, Tick, Animate, BeforeBot, FairDraws, TickCursor;
    var b := TickCursor(h);
    NothingShown(h);
    QuietStages(h);
    CursorOnly(h);
    TickWithoutBot(h, pick, fleet, b);
    hide Control;
  }

  lemma CursorOnly(h: HostState)
    requires h.tag != TurnP1
    ensures var b := TickCursor(h); b == h.(cursorTick := b.cursorTick)
  {
    assert h.sent + [] == h.sent;
  }

  lemma NothingShown(h: HostState)
    requires Control(h) && (h.tag == PlaceP1 || h.tag == PlaceWaiting || h.tag == Paused)
    ensures Animate(h.expl) == h.expl
  {
  }

  lemma QuietStages(h: HostState)
    requires Control(h) && (h.tag == PlaceP1 || h.tag == PlaceWaiting || h.tag == Paused)
    ensures BeforeBot(h) == TickCursor(h)
  {
    CountdownKeeps(h);
    ResolveKeeps(TickCountdown(h));
    assert TickCountdown(h) == h && TickResolve(h) == h && TickPostAttack(h) == h && TickHandover(h) == h;
    hide Control, TickCountdown, TickResolve, TickPostAttack, TickHandover, TickCursor;
  }

  /** What input does while player 1 places ships: the log stays, or the client is told to place. */
  predicate PlacingStep(h: HostState, r: HostState) {
    && r.p2 == h.p2 && r.single == h.single && r.connected == h.connected
    && if Active(r) == Active(h) then r.sent == h.sent
       else Active(h) == PlaceP1 && r.tag == PlaceWaiting && r.sent == h.sent + [State(TagByte(PlaceP2))]
  }

  lemma CommitIsPlacing(h: HostState)
    requires h.tag == PlaceP1 && !h.single && 0 <= h.data.w1 < NUM_SHIPS && FullGrid(h.p1.grid)
    ensures PlacingStep(h, CommitShip(h))
  {
    hide PlaceShip, CanPlace;
  }

  lemma KeyIsPlacing(h: HostState, code: KeyCode, make: bool)
    requires CursorSafe(h) && Control(h) && !h.single && InSession(Active(h)) && !Started(Active(h))
    ensures PlacingStep(h, HandleKey(h, code, make))
  {
    if h.tag == PlaceP1 { CommitIsPlacing(h); }
    NeverPausedTwice(h);
    hide Control, CommitShip;
  }

  lemma MouseIsPlacing(h: HostState, m: MouseEvent)
    requires CursorSafe(h) && Control(h) && MouseOk(m) && !h.single && InSession(Active(h)) && !Started(Active(h))
    ensures PlacingStep(h, HandleMouse(h, m))
  {
    NeverPausedTwice(h);
    if h.tag == PlaceP1 {
      PlaceMouseIsPlacing(h, m);
    } else if h.tag == Paused {
      PauseMouseIs(h, m);
      hide HandleMouse;
    }
    hide Control, CommitShip, MenuChoice, FireAt, CursorSafe;
  }

  lemma PlaceMouseIsPlacing(h: HostState, m: MouseEvent)
    requires CursorSafe(h) && MouseOk(m) && !h.single && h.tag == PlaceP1
    ensures PlacingStep(h, HandleMouse(h, m))
  {
    var d := if m.moved && m.over.Some? then h.data.(w3 := m.over.value.col, w4 := m.over.value.row) else h.data;
    CommitIsPlacing(h.(data := d));
    hide CommitShip, MenuChoice, FireAt;
  }

  lemma EventIsPlacing(h: HostState, e: Event)
    requires Inv(h) && Enabled(h, e) && !e.Incoming? && !h.single && InSession(Active(h)) && !Started(Active(h))
    ensures PlacingStep(h, Apply(h, e))
  {
    InputSafe(h);
    assert h.tag == PlaceP1 || h.tag == PlaceWaiting || h.tag == Paused;
    match e
    case TickEvent(pick, fleet) => QuietTick(h, pick, fleet);
    case KeyEvent(code, make) => KeyIsPlacing(h, code, make);
    case MouseMove(m) => MouseIsPlacing(h, m);
  }

  /** The host has moved: what has to be shown about its new state. */
  lemma KeepsTogether(s: Pair, r: HostState, read: nat)
    requires Together(s) && HostSide(r) && s.h.sent <= r.sent && Mirrored(r, s.c, read)
    ensures Together(s.(h := r, read := read))
  {
    hide HostSide, Mirrored, Follows;
    assert r.sent[..s.heard] == s.h.sent[..s.heard];
  }

  lemma TogetherParts(s: Pair)
    requires Together(s)
    ensures HostSide(s.h) && Mirrored(s.h, s.c, s.read)
  {
  }

  lemma SameMirror(h: HostState, r: HostState, c: ClientState, read: nat)
    requires Mirrored(h, c, read) && FleetOf(r.p2) == FleetOf(h.p2) && Started(Active(r)) == Started(Active(h))
    ensures Mirrored(r, c, read)
  {
    hide Placing, Announced, StandardFleet;
  }

  lemma PlacingHost(h: HostState, r: HostState)
    requires HostSide(h) && !Started(Active(h)) && PlacingStep(h, r) && Inv(r)
    ensures HostSide(r) && !Started(Active(r)) && h.sent <= r.sent && r.p2 == h.p2
  {
    hide Inv;
  }

  lemma PlacingKeeps(s: Pair, r: HostState)
    requires Together(s) && !Started(Active(s.h)) && PlacingStep(s.h, r) && Inv(r)
    ensures Together(s.(h := r)) && !Started(Active(r))
  {
    TogetherParts(s);
    hide Linked, HostSide, Mirrored, Inv, PlacingStep;
    PlacingHost(s.h, r);
    SameMirror(s.h, r, s.c, s.read);
    KeepsTogether(s, r, s.read);
  }

  // ---------------------------------------------------------------------------------------------
  // The battle
  // ---------------------------------------------------------------------------------------------

  lemma LogExtends(t: Tag, sent: seq<Msg>, f: seq<Placement>, t': Tag, sent': seq<Msg>)
    requires LogOk(t, sent, f) && Started(t) && Started(t') && Adds(sent, sent')
    ensures LogOk(t', sent', f)
  {
    assert sent'[..OPENING] == sent[..OPENING];
  }

  lemma BattleHost(h: HostState, r: HostState)
    requires HostSide(h) && Started(Active(h)) && Started(Active(r)) && Inv(r)
    requires !r.single && r.connected && Adds(h.sent, r.sent) && FleetOf(r.p1) == FleetOf(h.p1)
    ensures HostSide(r) && h.sent <= r.sent
  {
    LogExtends(Active(h), h.sent, FleetOf(h.p1), Active(r), r.sent);
    hide Inv, LogOk;
  }

  lemma BattleKeeps(s: Pair, r: HostState)
    requires Together(s) && Started(Active(s.h)) && Started(Active(r)) && Inv(r)
    requires !r.single && r.connected && Adds(s.h.sent, r.sent)
    requires FleetOf(r.p1) == FleetOf(s.h.p1) && FleetOf(r.p2) == FleetOf(s.h.p2)
    ensures Together(s.(h := r))
  {
    TogetherParts(s);
    hide Linked, HostSide, Mirrored, Inv, Adds, FleetOf;
    BattleHost(s.h, r);
    SameMirror(s.h, r, s.c, s.read);
    KeepsTogether(s, r, s.read);
  }

  lemma InputInBattle(h: HostState, e: Event)
    requires Inv(h) && Enabled(h, e) && h.connected && Started(Active(h)) && !e.TickEvent? && Apply(h, e).tag != MainMenu
    ensures QuietOrShot(h, Apply(h, e))
  {
    InputSafe(h);
    hide Inv, GoodBoard, BotKnows, HandleKey, HandleMouse, HandleMsg, CursorSafe, QuietOrShot;
    match e
    case KeyEvent(code, make) => KeyInBattle(h, code, make);
    case MouseMove(m) => MouseInBattle(h, m);
    case Incoming(msg) => MsgKeeps(h, msg); MsgInBattle(h, msg);
  }

  /** No shot is fired before the first turn. */
  lemma NoShotInCountdown(h: HostState, r: HostState)
    requires QuietOrShot(h, r) && Active(h) == Counting
    ensures SameBoards(h, r)
  {
  }

  /** One step further in the battle. */
  lemma BattleGoesOn(h: HostState, r: HostState, on1: Shots, on2: Shots, on1': Shots, on2': Shots)
    requires HostSide(h) && Started(Active(h)) && BattleInv(h, on1, on2) && Inv(r) && Adds(h.sent, r.sent)
    requires Sync(r, NetOf(r.sent, Own(h)), on1', on2')
    requires FleetOf(r.p1) == FleetOf(h.p1) && ShotsOf(h.p1) <= ShotsOf(r.p1)
    requires FleetOf(r.p2) == FleetOf(h.p2) && ShotsOf(h.p2) <= ShotsOf(r.p2)
    ensures BattleInv(r, on1', on2')
  {
    assert |h.sent| >= OPENING && GoodBoard(r.p1) && GoodBoard(r.p2) && Own(r) == Own(h);
    hide HostSide, Inv, GoodBoard, Truthful, Sync, NetOf, FleetOf, ShotsOf, Adds, BoardOf;
    SyncShows(r, NetOf(r.sent, Own(h)), on1', on2');
    TruthGrows(h, r, Own(h));
  }

  /** Keys, mouse packets and messages in a battle. */
  lemma InputStep(s: Pair, e: Event)
    requires SessionInv(s) && Started(Active(s.h)) && Enabled(s.h, e) && !e.TickEvent? && Apply(s.h, e).tag != MainMenu
    ensures SessionInv(Recorded(s, Apply(s.h, e), false))
  {
    hide SessionInv, Linked, HostSide, Mirrored, Inv, Enabled, Apply, Sync, NetOf, GoodBoard, Truthful;
    InvParts(s);
    InputHost(s.h, e);
    var r := Apply(s.h, e);
    QuietOrShotSyncs(s, r, NetOf(s.h.sent, Own(s.h)));
    BattleKeeps(s, r);
    var s' := Recorded(s, r, false);
    BattleGoesOn(s.h, r, s.on1, s.on2, s'.on1, s'.on2);
    InvInBattle(s');
  }

  lemma ShotsGrow(h: HostState, r: HostState)
    requires GoodBoard(h.p1) && GoodBoard(h.p2) && BoardsStep(h, r)
    ensures ShotsOf(h.p1) <= ShotsOf(r.p1) && ShotsOf(h.p2) <= ShotsOf(r.p2)
  {
    if c :| Fires(h, r, c) && !SameBoards(h, r) {
      if r.tag == TurnP1 { GoodShot(h.p2, c); } else { GoodShot(h.p1, c); }
      hide GoodBoard, Attack, ShotsOf, FleetOf;
    }
  }

  lemma InputHost(h: HostState, e: Event)
    requires HostSide(h) && Started(Active(h)) && Enabled(h, e) && !e.TickEvent? && Apply(h, e).tag != MainMenu
    ensures var r := Apply(h, e);
            && Inv(r) && QuietOrShot(h, r) && (Battle(Active(h)) || SameBoards(h, r))
            && GoodBoard(h.p1) && GoodBoard(h.p2)
            && FleetOf(r.p1) == FleetOf(h.p1) && FleetOf(r.p2) == FleetOf(h.p2)
            && ShotsOf(h.p1) <= ShotsOf(r.p1) && ShotsOf(h.p2) <= ShotsOf(r.p2)
            && Started(Active(r)) && !r.single && r.connected && Adds(h.sent, r.sent)
  {
    var r := Apply(h, e);
    InputInBattle(h, e);
    ApplyKeeps(h, e);
    hide Apply, Enabled, GoodBoard, BotKnows, Control, ShotsOf, FleetOf;
    StepCounts(h, e);
    ShotsGrow(h, r);
    if Active(h) == Counting { NoShotInCountdown(h, r); }
  }

  lemma TickStep(s: Pair, pick: Cell, fleet: seq<Placement>)
    requires SessionInv(s) && Started(Active(s.h)) && FairDraws(s.h, pick, fleet)
    ensures SessionInv(Recorded(s, Tick(s.h, pick, fleet), CanResolve(s.h)))
  {
    hide SessionInv, Linked, HostSide, Mirrored, Inv, Tick, FairDraws, Sync, NetOf, Truthful;
    InvParts(s);
    LinkedHost(s.h);
    var r := Tick(s.h, pick, fleet);
    TickKeeps(s.h, pick, fleet);
    TickSync(s.h, pick, fleet, Own(s.h), s.on1, s.on2);
    BattleKeeps(s, r);
    ReadsInBattle(s.h);
    var s' := Recorded(s, r, CanResolve(s.h));
    BattleGoesOn(s.h, r, s.on1, s.on2, s'.on1, s'.on2);
    InvInBattle(s');
  }

  lemma LinkedHost(h: HostState)
    requires HostSide(h)
    ensures !h.single && h.connected
  {
  }

  lemma ReadsInBattle(h: HostState)
    requires Inv(h)
    ensures CanResolve(h) ==> Active(h) == h.tag && Battle(Active(h))
  {
  }

  // ---------------------------------------------------------------------------------------------
  // The host reads a message
  // ---------------------------------------------------------------------------------------------

  lemma WaitsForShips(s: Pair)
    requires Together(s) && !Started(Active(s.h)) && s.c.p2.ships != []
    ensures s.h.tag == PlaceWaiting
  {
    assert |s.h.sent[..s.heard]| >= 3;
  }

  /** While the host waits, its copy of the client's board is the fleet it has read, and the next fits. */
  lemma NextFits(h: HostState, f: seq<Placement>, n: nat)
    requires Inv(h) && h.tag == PlaceWaiting && StandardFleet(f) && n < |f| && FleetOf(h.p2) == f[..n]
    ensures FullGrid(h.p2.grid) && CanPlace(h.p2, f[n]) && |h.p2.ships| == n < NUM_SHIPS
  {
    UnshotBoard(h.p2);
    assert |FleetOf(h.p2)| == |h.p2.ships|;
    hide Inv, GoodBoard, BoardOf, CanPlace;
    NextShip(f, n);
  }

  /** The host is ready for every placement of the client: this is the premise that `MsgOk` puts on the
      client, and the client keeps it. */
  lemma ShipIsOk(s: Pair)
    requires Together(s) && s.read < |s.c.sent| && s.c.sent[s.read].ShipPlace?
    ensures MsgOk(s.h, s.c.sent[s.read])
    ensures s.h.tag == PlaceWaiting && !Started(Active(s.h))
  {
    var f, n := FleetOf(s.c.p2), |s.h.p2.ships|;
    ShipRead(s);
    WaitsForShips(s);
    assert StandardFleet(f) && |f| <= NUM_SHIPS && Inv(s.h);
    assert f[n].size == SHIP_SIZES[n] && f[n].typeIdx == n;
    hide Linked, Inv, CanPlace, FullGrid, StandardFleet;
    NextFits(s.h, f, n);
  }

  /** When the client announces the end of placing, the host has read its five ships. */
  lemma DoneFleets(h: HostState, c: ClientState, read: nat)
    requires Mirrored(h, c, read) && read < |c.sent| && c.sent[read].DonePlacing?
    ensures !Started(Active(h)) && |h.p2.ships| == NUM_SHIPS && c.p2.ships != []
  {
    var f, g, b := FleetOf(h.p2), FleetOf(c.p2), |c.p2.ships| == NUM_SHIPS;
    assert |f| == |h.p2.ships| && |g| == |c.p2.ships|;
    hide Placing, Started, StandardFleet;
    ReadPrefix(c, read, f, Started(Active(h)), c.sent[read]);
    assert Announced(f, true) == Announced(f, false) + [DonePlacing];
    hide Announced;
    AnnouncedPrefix(f, true, g, b);
  }

  lemma DoneIsOk(s: Pair)
    requires SessionInv(s) && s.read < |s.c.sent| && s.c.sent[s.read].DonePlacing?
    ensures MsgOk(s.h, s.c.sent[s.read]) && |s.h.p2.ships| == NUM_SHIPS && s.h.tag == PlaceWaiting && !Started(Active(s.h))
  {
    hide SessionInv, Linked, HostSide, Mirrored, Inv, BattleInv, Started;
    InvParts(s);
    DoneFleets(s.h, s.c, s.read);
    WaitsForShips(s);
  }

  lemma ShotIsOk(s: Pair)
    requires SessionInv(s) && Possible(s, HostReads) && s.c.sent[s.read].AttackMsg?
    ensures MsgOk(s.h, s.c.sent[s.read])
  {
    hide SessionInv, Linked, HostSide, Mirrored, Inv, BattleInv;
    InvParts(s);
    LinkedHost(s.h);
    ShotOnGrid(s.h, s.c, s.read);
    GoodGrids(s.h);
  }

  lemma ShotOnGrid(h: HostState, c: ClientState, read: nat)
    requires Mirrored(h, c, read) && read < |c.sent| && c.sent[read].AttackMsg?
    ensures InGrid(Cell(c.sent[read].col, c.sent[read].row))
  {
    assert c.sent[read] in c.sent;
    hide Placing, Announced, StandardFleet;
  }

  /** Whatever the client sends, the host can take it. */
  lemma ReadIsOk(s: Pair)
    requires SessionInv(s) && Possible(s, HostReads)
    ensures MsgOk(s.h, s.c.sent[s.read])
  {
    assert Together(s);
    hide SessionInv, Linked;
    var m := s.c.sent[s.read];
    if m.ShipPlace? { ShipIsOk(s); }
    else if m.DonePlacing? { DoneIsOk(s); }
    else if m.AttackMsg? { ShotIsOk(s); }
  }

  lemma ReadPlain(c: ClientState, read: nat, m: Msg)
    requires read < |c.sent| && m == c.sent[read] && !m.ShipPlace? && !m.DonePlacing?
    ensures Placing(c.sent[..read + 1]) == Placing(c.sent[..read])
  {
    assert c.sent[..read + 1] == c.sent[..read] + [m];
    PlacingMore(c.sent[..read], m);
  }

  lemma MirroredMore(h: HostState, c: ClientState, read: nat)
    requires Mirrored(h, c, read) && read < |c.sent| && !c.sent[read].ShipPlace? && !c.sent[read].DonePlacing?
    ensures Mirrored(h, c, read + 1)
  {
    ReadPlain(c, read, c.sent[read]);
    hide Placing, Announced;
  }

  lemma ShipMirrored(h: HostState, r: HostState, c: ClientState, read: nat, p: Placement)
    requires Mirrored(h, c, read) && !Started(Active(h)) && !Started(Active(r))
    requires read < |c.sent| && c.sent[read] == ShipMsg(p) && FleetOf(r.p2) == FleetOf(h.p2) + [p]
    ensures Mirrored(r, c, read + 1)
  {
    assert c.sent[..read + 1] == c.sent[..read] + [c.sent[read]];
    PlacingMore(c.sent[..read], c.sent[read]);
    AnnounceOneMore(FleetOf(h.p2), p, false);
    hide Placing, Announced;
  }

  /** Outside the battle nothing but the host's state changes. */
  lemma ReadOutsideBattle(s: Pair)
    requires Inv(s.h) && Possible(s, HostReads) && MsgOk(s.h, s.c.sent[s.read]) && !Battle(Active(s.h))
    ensures Defined(s, HostReads)
    ensures After(s, HostReads) == s.(h := HandleMsg(s.h, s.c.sent[s.read]), read := s.read + 1)
    ensures Inv(HandleMsg(s.h, s.c.sent[s.read]))
  {
    hide Inv, MsgOk, HandleMsg, Battle, Active;
    MsgKeeps(s.h, s.c.sent[s.read]);
    var r := HandleMsg(s.h, s.c.sent[s.read]);
    assert Recorded(s, r, false) == s.(h := r);
    hide Recorded;
  }

  lemma ShipReady(s: Pair, p: Placement)
    requires SessionInv(s) && Possible(s, HostReads) && s.c.sent[s.read].ShipPlace? && p == ShipOf(s.c.sent[s.read])
    ensures Defined(s, HostReads)
    ensures var r := s.h.(p2 := PlaceShip(s.h.p2, p));
            After(s, HostReads) == s.(h := r, read := s.read + 1) && Inv(r)
    ensures s.c.sent[s.read] == ShipMsg(p) && !Started(Active(s.h))
  {
    var m := s.c.sent[s.read];
    hide SessionInv, Linked, HostSide, Mirrored, Inv, MsgOk, HandleMsg, PlaceShip, After, Defined;
    InvParts(s);
    ShipIsOk(s);
    ReadIsShip(s, p);
    ReadOutsideBattle(s);
    ShipHandled(s.h, m);
  }

  lemma ShipKeeps(s: Pair, p: Placement, r: HostState)
    requires Together(s) && HostSide(s.h) && Mirrored(s.h, s.c, s.read) && !Started(Active(s.h)) && Inv(r)
    requires s.read < |s.c.sent| && s.c.sent[s.read] == ShipMsg(p) && r == s.h.(p2 := PlaceShip(s.h.p2, p))
    ensures Together(s.(h := r, read := s.read + 1)) && !Started(Active(r))
  {
    hide Linked, HostSide, Mirrored, Inv, PlaceShip, ShipMsg, FleetOf;
    FleetGrows(s.h.p2, p);
    PlacingHostShip(s.h, r);
    ShipMirrored(s.h, r, s.c, s.read, p);
    KeepsTogether(s, r, s.read + 1);
  }

  /** A ship of the client arrives. */
  lemma ShipStep(s: Pair)
    requires SessionInv(s) && Possible(s, HostReads) && s.c.sent[s.read].ShipPlace?
    ensures Defined(s, HostReads) && SessionInv(After(s, HostReads))
  {
    hide SessionInv, Linked, HostSide, Mirrored, Inv, After, Defined, PlaceShip, ShipMsg, ShipOf;
    var p := ShipOf(s.c.sent[s.read]);
    var r := s.h.(p2 := PlaceShip(s.h.p2, p));
    InvParts(s);
    ShipReady(s, p);
    ShipKeeps(s, p, r);
    InvInPlacing(s.(h := r, read := s.read + 1));
  }

  lemma ShipHandled(h: HostState, m: Msg)
    requires m.ShipPlace?
    ensures HandleMsg(h, m) == h.(p2 := PlaceShip(h.p2, ShipOf(m)))
  {
  }

  lemma PlacingHostShip(h: HostState, r: HostState)
    requires HostSide(h) && !Started(Active(h)) && Inv(r) && r == h.(p2 := r.p2)
    ensures HostSide(r) && !Started(Active(r))
  {
    hide Inv;
  }

  /** A message that places ships is the encoding of the ship that it is read as. */
  lemma ReadIsShip(s: Pair, p: Placement)
    requires Together(s) && s.read < |s.c.sent| && s.c.sent[s.read].ShipPlace? && p == ShipOf(s.c.sent[s.read])
    ensures ShipMsg(p) == s.c.sent[s.read]
  {
    var f, g, b := FleetOf(s.h.p2), FleetOf(s.c.p2), |s.c.p2.ships| == NUM_SHIPS;
    var m := s.c.sent[s.read];
    ReadPrefix(s.c, s.read, f, Started(Active(s.h)), m);
    hide Linked, Started;
    NextMessage(f, g, b, m);
  }

  lemma NextMessage(f: seq<Placement>, g: seq<Placement>, b: bool, m: Msg)
    requires StandardFleet(f) && StandardFleet(g) && m.ShipPlace?
    requires Announced(f, false) + [m] <= Announced(g, b)
    ensures ShipMsg(ShipOf(m)) == m
  {
    NextRead(f, g, b, m);
    AnnouncedKinds(g, b);
    assert Announced(g, b)[|f|] == (Announced(f, false) + [m])[|f|] == m;
    assert Announced(g, b)[|f|] == ShipMsg(g[|f|]);
  }

  // ---------------------------------------------------------------------------------------------
  // The battle begins
  // ---------------------------------------------------------------------------------------------

  lemma OpeningComplete(b: BoardState)
    ensures Opening([])[..3] + FleetMsgs(b.ships) + [State(TagByte(Counting)), Countdown(COUNTDOWN_START)] == Opening(FleetOf(b))
    ensures |Opening(FleetOf(b))| == 5 + |b.ships|
  {
    assert FleetMsgs(b.ships) == ShipMsgs(FleetOf(b));
  }

  /** When the host has read the end of placing it has the client's fleet. */
  lemma SameFleets(f: seq<Placement>, g: seq<Placement>, b: bool)
    requires StandardFleet(f) && StandardFleet(g) && Announced(f, true) <= Announced(g, b)
    ensures f == g
  {
    AnnouncedPrefix(f, true, g, b);
    forall i | 0 <= i < |f|
      ensures f[i] == g[i]
    {
      StandardShip(f, i);
      StandardShip(g, i);
    }
  }

  lemma NothingToTell(b: BoardState)
    requires GoodBoard(b) && Unshot(b)
    ensures b == BoardOf(FleetOf(b), {}) && BoardTold(b, b, Shots([], []))
  {
    UnshotBoard(b);
    assert Elements<Cell>([]) == {};
    hide GoodBoard;
  }

  lemma WholeOpening(sent: seq<Msg>, f: seq<Placement>, own: BoardState)
    requires FullFleet(f) && sent == Opening(f)
    ensures |sent| == OPENING && NetOf(sent, own) == Net(Counting, BoardOf(f, {}), own)
    ensures forall n :: OPENING <= n <= |sent| ==> sent[..n] == sent
  {
    assert |Opening(f)| == OPENING && Opening(f)[..OPENING] == Opening(f) && f[..NUM_SHIPS] == f;
    hide BoardOf, NetOf, Opening;
    OpeningNet(f, own, OPENING);
  }

  /** Both boards are complete and unshot, and the client's copies are exact. */
  lemma FirstSync(h: HostState)
    requires Inv(h) && h.tag == Counting && h.sent == Opening(FleetOf(h.p1))
    requires Unshot(h.p1) && Unshot(h.p2) && !Unresolved(h.expl)
    ensures BattleInv(h, Shots([], []), Shots([], []))
  {
    assert GoodBoard(h.p1) && GoodBoard(h.p2);
    hide Inv, GoodBoard, StandardFleet, BoardOf, NetOf, Opening, BoardTold, Shows, Unshot;
    FullFleets(h);
    NothingToTell(h.p1);
    NothingToTell(h.p2);
    WholeOpening(h.sent, FleetOf(h.p1), Own(h));
    SyncShows(h, NetOf(h.sent, Own(h)), Shots([], []), Shots([], []));
  }

  lemma DoneMirrored(h: HostState, r: HostState, c: ClientState, read: nat)
    requires Mirrored(h, c, read) && !Started(Active(h)) && Started(Active(r)) && r.p2 == h.p2
    requires read < |c.sent| && c.sent[read] == DonePlacing
    ensures Mirrored(r, c, read + 1)
  {
    assert c.sent[..read + 1] == c.sent[..read] + [c.sent[read]];
    PlacingMore(c.sent[..read], c.sent[read]);
    assert Announced(FleetOf(h.p2), true) == Announced(FleetOf(h.p2), false) + [DonePlacing];
    hide Placing, Announced;
  }

  /** The host's reaction to the end of placing. */
  lemma HostStarts(h: HostState)
    requires Inv(h) && h.tag == PlaceWaiting && !h.single && h.connected && h.sent == Opening([])[..3]
    requires Inv(HandleMsg(h, DonePlacing))
    ensures var r := HandleMsg(h, DonePlacing);
            && r.p1 == h.p1 && r.p2 == h.p2 && r.tag == Counting && !r.single && r.connected
            && Unshot(r.p1) && Unshot(r.p2) && !Unresolved(r.expl)
            && r.sent == Opening(FleetOf(r.p1)) && |r.sent| == OPENING
  {
    OpeningComplete(h.p1);
    hide GoodBoard, BotKnows, Opening, FleetMsgs;
  }

  lemma DoneHost(h: HostState, r: HostState)
    requires h.sent == Opening([])[..3] && Inv(r) && r.tag == Counting && !r.single && r.connected
    requires r.sent == Opening(FleetOf(r.p1)) && |r.sent| == OPENING
    ensures HostSide(r) && h.sent <= r.sent
  {
    assert r.sent[..OPENING] == r.sent;
    hide Inv;
  }

  /** The host's new state, when the end of placing arrives. */
  lemma DoneReady(s: Pair, r: HostState)
    requires s.read < |s.c.sent| && SessionInv(s) && s.c.sent[s.read].DonePlacing?
    requires r == HandleMsg(s.h, DonePlacing) && Inv(r)
    ensures s.h.tag == PlaceWaiting && !Started(Active(s.h)) && s.h.sent == Opening([])[..3]
    ensures r.p1 == s.h.p1 && r.p2 == s.h.p2 && r.tag == Counting && !r.single && r.connected
    ensures Unshot(r.p1) && Unshot(r.p2) && !Unresolved(r.expl)
    ensures r.sent == Opening(FleetOf(r.p1)) && |r.sent| == OPENING
  {
    hide SessionInv, Linked, HostSide, Mirrored, Inv, MsgOk, HandleMsg, Opening;
    InvParts(s);
    DoneIsOk(s);
    WaitingHost(s.h);
    HostStarts(s.h);
  }

  lemma DoneKeeps(s: Pair, r: HostState)
    requires s.read < |s.c.sent| && SessionInv(s) && s.c.sent[s.read].DonePlacing?
    requires r == HandleMsg(s.h, DonePlacing) && Inv(r)
    ensures SessionInv(s.(h := r, read := s.read + 1))
  {
    hide SessionInv, Linked, HostSide, Mirrored, Inv, HandleMsg, BattleInv, Opening, FleetOf, Unshot;
    InvParts(s);
    DoneReady(s, r);
    FirstSync(r);
    DoneHost(s.h, r);
    DoneMirrored(s.h, r, s.c, s.read);
    KeepsTogether(s, r, s.read + 1);
    InvInBattle(s.(h := r, read := s.read + 1));
  }

  /** The end of placing arrives. */
  lemma DoneStep(s: Pair)
    requires SessionInv(s) && Possible(s, HostReads) && s.c.sent[s.read].DonePlacing?
    ensures Defined(s, HostReads) && SessionInv(After(s, HostReads))
  {
    hide SessionInv, Inv, MsgOk, HandleMsg, After, Defined;
    InvParts(s);
    DoneIsOk(s);
    ReadOutsideBattle(s);
    DoneKeeps(s, HandleMsg(s.h, DonePlacing));
  }

  lemma WaitingHost(h: HostState)
    requires HostSide(h) && h.tag == PlaceWaiting
    ensures !h.single && h.connected && h.sent == Opening([])[..3]
  {
  }

  /** Messages that place nothing. */
  lemma PlainHandled(h: HostState, m: Msg)
    requires !m.ShipPlace? && !m.DonePlacing? && h.connected && !Started(Active(h)) && InSession(Active(h))
    requires h.tag != TurnP2
    ensures PlacingStep(h, HandleMsg(h, m))
  {
  }

  lemma NeverToMenu(h: HostState, m: Msg)
    requires h.tag != MainMenu && InSession(Active(h)) && (m.AttackMsg? && h.tag == TurnP2 ==> Cell(m.col, m.row) in h.p1.grid)
    ensures HandleMsg(h, m).tag != MainMenu
  {
  }

  lemma TogetherMore(s: Pair)
    requires Together(s) && Mirrored(s.h, s.c, s.read + 1)
    ensures Together(s.(read := s.read + 1))
  {
    hide HostSide, Mirrored, Follows;
  }

  lemma PlainRead(s: Pair)
    requires SessionInv(s) && s.read < |s.c.sent|
    requires var m := s.c.sent[s.read]; !m.ShipPlace? && !m.DonePlacing?
    ensures SessionInv(s.(read := s.read + 1))
  {
    hide Linked, HostSide, Mirrored, BattleInv, Inv;
    InvParts(s);
    MirroredMore(s.h, s.c, s.read);
    TogetherMore(s);
  }

  /** A message is an event of the host. */
  lemma MsgIsEvent(h: HostState, m: Msg)
    requires Inv(h) && MsgOk(h, m)
    ensures m.AttackMsg? && h.tag == TurnP2 ==> Cell(m.col, m.row) in h.p1.grid
    ensures Enabled(h, Incoming(m)) && HandleMsg(h, m) == Apply(h, Incoming(m)) && Inv(HandleMsg(h, m))
  {
    MsgKeeps(h, m);
    hide Inv, HandleMsg, MsgOk;
  }

  lemma SessionTags(h: HostState)
    requires HostSide(h)
    ensures Inv(h) && h.connected && InSession(Active(h)) && h.tag != MainMenu && (!Started(Active(h)) ==> h.tag != TurnP2)
  {
    hide Inv, LogOk;
  }

  /** The host as it reads a message that places nothing. */
  lemma PlainHost(h: HostState, m: Msg)
    requires HostSide(h) && MsgOk(h, m) && !m.ShipPlace? && !m.DonePlacing?
    ensures m.AttackMsg? && h.tag == TurnP2 ==> Cell(m.col, m.row) in h.p1.grid
    ensures Inv(HandleMsg(h, m)) && HandleMsg(h, m).tag != MainMenu
    ensures Enabled(h, Incoming(m)) && HandleMsg(h, m) == Apply(h, Incoming(m))
    ensures !Started(Active(h)) ==> PlacingStep(h, HandleMsg(h, m))
  {
    hide HostSide, Inv, HandleMsg, MsgOk, Enabled, Apply, InSession, PlacingStep;
    SessionTags(h);
    MsgIsEvent(h, m);
    NeverToMenu(h, m);
    if !Started(Active(h)) { PlainHandled(h, m); }
  }

  lemma PlainAfter(s: Pair, m: Msg)
    requires Possible(s, HostReads) && MsgOk(s.h, m) && m == s.c.sent[s.read]
    requires m.AttackMsg? && s.h.tag == TurnP2 ==> Cell(m.col, m.row) in s.h.p1.grid
    ensures Defined(s, HostReads)
    ensures var s' := Recorded(s, HandleMsg(s.h, m), false);
            After(s, HostReads) == s'.(read := s'.read + 1) && s'.c == s.c && s'.read == s.read
    ensures !Started(Active(s.h)) ==> Recorded(s, HandleMsg(s.h, m), false) == s.(h := HandleMsg(s.h, m))
  {
    hide HandleMsg;
  }

  lemma PlainInBattle(s: Pair, m: Msg)
    requires SessionInv(s) && Started(Active(s.h)) && HostSide(s.h) && MsgOk(s.h, m) && !m.ShipPlace? && !m.DonePlacing?
    ensures m.AttackMsg? && s.h.tag == TurnP2 ==> Cell(m.col, m.row) in s.h.p1.grid
    ensures SessionInv(Recorded(s, HandleMsg(s.h, m), false))
  {
    hide SessionInv, HostSide, Inv, HandleMsg, Apply, Enabled, MsgOk, Recorded;
    PlainHost(s.h, m);
    InputStep(s, Incoming(m));
  }

  lemma PlainInPlacing(s: Pair, m: Msg)
    requires SessionInv(s) && !Started(Active(s.h)) && HostSide(s.h) && MsgOk(s.h, m) && !m.ShipPlace? && !m.DonePlacing?
    ensures s.h.tag != TurnP2 && SessionInv(s.(h := HandleMsg(s.h, m)))
  {
    hide SessionInv, Linked, HostSide, Mirrored, Inv, HandleMsg, MsgOk;
    SessionTags(s.h);
    InvParts(s);
    PlainHost(s.h, m);
    PlacingKeeps(s, HandleMsg(s.h, m));
    InvInPlacing(s.(h := HandleMsg(s.h, m)));
  }

  lemma PlainStep(s: Pair)
    requires SessionInv(s) && Possible(s, HostReads)
    requires var m := s.c.sent[s.read]; !m.ShipPlace? && !m.DonePlacing?
    ensures Defined(s, HostReads) && SessionInv(After(s, HostReads))
  {
    hide SessionInv, Linked, HostSide, Mirrored, Inv, HandleMsg, MsgOk, Recorded, After, Defined;
    var m := s.c.sent[s.read];
    ReadIsOk(s);
    InvParts(s);
    if Started(Active(s.h)) { PlainInBattle(s, m); } else { PlainInPlacing(s, m); }
    PlainAfter(s, m);
    PlainRead(Recorded(s, HandleMsg(s.h, m), false));
  }

  lemma ReadStep(s: Pair)
    requires SessionInv(s) && Possible(s, HostReads)
    ensures Defined(s, HostReads) && SessionInv(After(s, HostReads))
  {
    hide SessionInv, Defined, After;
    if s.c.sent[s.read].ShipPlace? { ShipStep(s); }
    else if s.c.sent[s.read].DonePlacing? { DoneStep(s); }
    else { PlainStep(s); }
  }
}
