/** One multiplayer game on two machines: a host and a client that run at their own pace and exchange
    messages over two lossless queues. The steps, and what holds after each of them. */
module Session {
  import opened Boards
  import opened Protocol
  import opened Host
  import opened HostControl
  import opened HostSteps
  import opened HostRuns
  import opened Replica
  import opened Client
  import R = Rays

  /** The shots at one board in order, and which of them were reported: history that neither machine keeps. */
  datatype Shots = Shots(cells: seq<Cell>, told: seq<bool>)

  /** `heard` messages of the host were handled by the client, `read` messages of the client by the host. */
  datatype Pair = Pair(h: HostState, c: ClientState, heard: nat, read: nat, on1: Shots, on2: Shots)

  datatype Step =
    | HostDoes(e: Event)      // a tick, a key or a mouse packet on the host
    | ClientDoes(i: Input)
    | HostReads               // the next message of the client arrives
    | ClientHears             // the next message of the host arrives

  // ---------------------------------------------------------------------------------------------
  // Steps
  // ---------------------------------------------------------------------------------------------

  /** The shot is at a cell that was not attacked: the host would accept it. */
  predicate AtFreshCell(h: HostState, m: Msg)
    requires m.AttackMsg?
  {
    R.IsFresh(h.p1.grid, Cell(m.col, m.row))
  }

  /** What the environment keeps to: the host's own premises on its events, and no shot of the client that the
      host would accept arrives while a miss of the client is waited out. */
  ghost predicate Possible(s: Pair, step: Step) {
    match step
    case HostDoes(e) => Enabled(s.h, e) && !e.Incoming?
    case ClientDoes(i) => InputOk(i)
    case HostReads =>
      && s.read < |s.c.sent|
      && (s.c.sent[s.read].AttackMsg? && s.h.tag == TurnP2 && s.h.postWait ==> !AtFreshCell(s.h, s.c.sent[s.read]))
    case ClientHears => s.heard < |s.h.sent|
  }

  /** The code does not leave its arrays. Nothing is said about what follows otherwise: that this always
      holds is a theorem. */
  ghost predicate Defined(s: Pair, step: Step)
    requires Possible(s, step)
  {
    match step
    case HostDoes(e) => Inv(s.h)
    case ClientDoes(i) => ClientSafe(s.c)
    case HostReads =>
      var m := s.c.sent[s.read];
      m.AttackMsg? && s.h.tag == TurnP2 ==> Cell(m.col, m.row) in s.h.p1.grid
    case ClientHears =>
      var m := s.h.sent[s.heard];
      m.AttackMsg? ==> Cell(m.col, m.row) in Target(s.c).grid
  }

  function AddShot(t: Shots, c: Cell): Shots {
    Shots(t.cells + [c], t.told + [false])
  }

  /** The last shot is reported. */
  function Tell(t: Shots): Shots {
    if t.told == [] then t else t.(told := t.told[..|t.told| - 1] + [true])
  }

  /** The host has moved from `s.h` to `h`: a changed board was shot at, a result that was read was reported. */
  function Recorded(s: Pair, h: HostState, shown: bool): Pair {
    if Battle(Active(s.h)) then
      s.(h := h,
         on1 := if h.p1 != s.h.p1 then AddShot(s.on1, h.expl.at) else if shown && s.h.tag == TurnP2 then Tell(s.on1) else s.on1,
         on2 := if h.p2 != s.h.p2 then AddShot(s.on2, h.expl.at) else if shown && s.h.tag == TurnP1 then Tell(s.on2) else s.on2)
    else s.(h := h)
  }

  ghost function After(s: Pair, step: Step): Pair
    requires Possible(s, step) && Defined(s, step)
  {
    match step
    case HostDoes(e) => Recorded(s, Apply(s.h, e), e.TickEvent? && CanResolve(s.h))
    case ClientDoes(i) => s.(c := Act(s.c, i))
    case HostReads => Recorded(s, HandleMsg(s.h, s.c.sent[s.read]), false).(read := s.read + 1)
    case ClientHears => s.(c := Hear(s.c, s.h.sent[s.heard]), heard := s.heard + 1)
  }

  // ---------------------------------------------------------------------------------------------
  // What the messages amount to
  // ---------------------------------------------------------------------------------------------

  /** The state last announced and the two boards, as the messages alone determine them. */
  datatype Net = Net(last: Tag, p1: BoardState, p2: BoardState)

  function NetTarget(n: Net): BoardState {
    if n.last == TurnP1 then n.p2 else n.p1
  }

  function NetStep(n: Net, m: Msg): Net {
    match m
    case State(t) => n.(last := TagOf(t))
    case ShipPlace(_, _, _, _) =>
      if |n.p1.ships| < NUM_SHIPS then n.(p1 := PlaceShip(n.p1, ShipOf(m))) else n.(p2 := PlaceShip(n.p2, ShipOf(m)))
    case AttackMsg(col, row, result) =>
      if Cell(col, row) !in NetTarget(n).grid then n
      else if n.last == TurnP1 then n.(p2 := Reported(n.p2, Cell(col, row), result))
      else n.(p1 := Reported(n.p1, Cell(col, row), result))
    case _ => n
  }

  /** The messages `ms`, heard by a client whose own fleet is on `own`. */
  ghost function NetOf(ms: seq<Msg>, own: BoardState): Net
    decreases ms
  {
    if ms == [] then Net(WaitingConnect, InitialBoard(), own)
    else NetStep(NetOf(ms[..|ms| - 1], own), ms[|ms| - 1])
  }

  lemma NetMore(ms: seq<Msg>, m: Msg, own: BoardState)
    ensures NetOf(ms + [m], own) == NetStep(NetOf(ms, own), m)
  {
    assert (ms + [m])[..|ms|] == ms;
  }

  /** The messages by which the client places its fleet. */
  function Placing(ms: seq<Msg>): seq<Msg>
    decreases ms
  {
    if ms == [] then []
    else
      var n := |ms| - 1;
      Placing(ms[..n]) + if ms[n].ShipPlace? || ms[n].DonePlacing? then [ms[n]] else []
  }

  function ShipMsgs(f: seq<Placement>): seq<Msg> {
    seq(|f|, i requires 0 <= i < |f| => ShipMsg(f[i]))
  }

  /** A fleet as it is placed: its ships in order, and the end of placing. */
  function Announced(f: seq<Placement>, done: bool): seq<Msg> {
    ShipMsgs(f) + if done then [DonePlacing] else []
  }

  /** Everything the host sends before the battle. */
  function Opening(f: seq<Placement>): seq<Msg> {
    [HelloAck, State(TagByte(PlaceP1)), State(TagByte(PlaceP2))] + ShipMsgs(f)
    + [State(TagByte(Counting)), Countdown(COUNTDOWN_START)]
  }

  const OPENING := 10

  // ---------------------------------------------------------------------------------------------
  // The invariant
  // ---------------------------------------------------------------------------------------------

  predicate Started(t: Tag) {
    t == Counting || Battle(t)
  }

  predicate InSession(t: Tag) {
    t == PlaceP1 || t == PlaceWaiting || Started(t)
  }

  /** The client is in the state that was announced last, or has paused it, or has placed its fleet. */
  predicate TagFollows(t: Tag, prev: Tag, last: Tag, placed: nat) {
    if last == PlaceP2 && placed >= NUM_SHIPS then t == PlaceWaiting
    else t == last || (t == Paused && prev == last && (last == PlaceP2 || last == TurnP2))
  }

  predicate CursorsOk(last: Tag, placed: nat, d: Words) {
    && (last == PlaceP2 && placed < NUM_SHIPS ==> PlacingWords(d) && d.w1 == placed)
    && (last == TurnP2 ==> InGrid(Cell(d.w1, d.w2)))
  }

  /** What the host sends in a battle. */
  predicate BattleMsg(m: Msg) {
    match m
    case State(t) => Battle(TagOf(t))
    case Countdown(_) => true
    case AttackMsg(col, row, result) =>
      InGrid(Cell(col, row)) && (result == ATTACK_MISS || result == ATTACK_HIT || result == ATTACK_SUNK)
    case Winner(_) => true
    case Cursor(_, _) => true
    case _ => false
  }

  /** What the host has sent, by the state it is in and its player's fleet. */
  predicate LogOk(t: Tag, sent: seq<Msg>, f: seq<Placement>) {
    && (t == PlaceP1 ==> sent == Opening([])[..2])
    && (t == PlaceWaiting ==> sent == Opening([])[..3])
    && (Started(t) ==>
          && |sent| >= OPENING && sent[..OPENING] == Opening(f)
          && forall k :: OPENING <= k < |sent| ==> BattleMsg(sent[k]))
  }

  ghost predicate HostSide(h: HostState) {
    && Inv(h) && !h.single && h.connected && InSession(Active(h))
    && LogOk(Active(h), h.sent, FleetOf(h.p1))
  }

  /** The placements that the client has announced, and those that the host has read. */
  ghost predicate Mirrored(h: HostState, c: ClientState, read: nat) {
    && read <= |c.sent|
    && StandardFleet(FleetOf(c.p2))
    && Placing(c.sent) == Announced(FleetOf(c.p2), |c.p2.ships| == NUM_SHIPS)
    && Placing(c.sent[..read]) == Announced(FleetOf(h.p2), Started(Active(h)))
    && forall m :: m in c.sent && m.AttackMsg? ==> InGrid(Cell(m.col, m.row))
  }

  /** States that are announced in a session. */
  predicate Announceable(t: Tag) {
    t != MainMenu && t != Instructions && t != Exit && t != Paused
  }

  /** The client is where the messages it has heard put it. */
  ghost predicate Follows(c: ClientState, heard: seq<Msg>) {
    var n := NetOf(heard, BoardOf(FleetOf(c.p2), {}));
    && c.p1 == n.p1 && c.p2 == n.p2 && Announceable(n.last)
    && TagFollows(c.tag, c.prev, n.last, |c.p2.ships|)
    && CursorsOk(n.last, |c.p2.ships|, c.data)
    && FullGrid(n.p1.grid) && FullGrid(n.p2.grid)
    && (c.p2.ships == [] || |heard| >= 3)
  }

  ghost predicate Linked(h: HostState, c: ClientState, heard: nat, read: nat) {
    && HostSide(h)
    && Mirrored(h, c, read)
    && heard <= |h.sent| && Follows(c, h.sent[..heard])
  }

  ghost predicate Together(s: Pair) {
    Linked(s.h, s.c, s.heard, s.read)
  }

  /** The host has just answered the client's greeting; the logs begin with this game. */
  ghost predicate Start(s: Pair) {
    && Inv(s.h) && !s.h.single && s.h.connected && s.h.tag == PlaceP1
    && s.h.p1 == s.h.p2 == InitialBoard() && s.h.sent == Opening([])[..2]
    && s.c.tag == WaitingConnect && s.c.p1 == s.c.p2 == InitialBoard() && s.c.sent == []
    && s.heard == s.read == 0 && s.on1 == s.on2 == Shots([], [])
  }

  lemma StartTogether(s: Pair)
    requires Start(s)
    ensures Together(s)
  {
    InitialIsBoardOf();
    assert FleetOf(s.c.p2) == [] && FleetOf(s.h.p2) == [] && FleetOf(s.h.p1) == [];
    assert s.h.sent[..s.heard] == [] && s.c.sent[..s.read] == [];
    assert ShipMsgs([]) == [];
  }

  // ---------------------------------------------------------------------------------------------
  // Messages
  // ---------------------------------------------------------------------------------------------

  /** The packed byte of a placement is read back as it was: for every position on the grid and every
      type index below 8. */
  lemma ShipRoundTrip(p: Placement)
    requires InGrid(Cell(p.col, p.row)) && 0 <= p.size < 256 && 0 <= p.typeIdx < 8
    ensures ShipOf(ShipMsg(p)) == p
  {
    assert ShipMsg(p).typeOrient == p.typeIdx * 2 + if p.orient == Horizontal then 0 else 1;
  }

  /** A placement that was received is the encoding of the ship that it is read as exactly if the upper four bits of
      its packed byte are zero: the reader ignores them. */
  lemma ShipReadExactly(m: Msg)
    requires m.ShipPlace?
    ensures 0 <= ShipOf(m).typeIdx < 8
    ensures ShipMsg(ShipOf(m)) == m <==> m.typeOrient < 16
  {
    assert ShipMsg(ShipOf(m)).typeOrient == m.typeOrient / 2 % 8 * 2 + m.typeOrient % 2;
  }

  lemma StandardShip(f: seq<Placement>, i: nat)
    requires StandardFleet(f) && i < |f|
    ensures ShipOf(ShipMsg(f[i])) == f[i]
  {
    assert InBounds(f[i]);
    ShipRoundTrip(f[i]);
  }

  lemma AnnouncedKinds(f: seq<Placement>, a: bool)
    ensures |Announced(f, a)| == |f| + if a then 1 else 0
    ensures forall i :: 0 <= i < |Announced(f, a)| ==> (Announced(f, a)[i].ShipPlace? <==> i < |f|)
  {
  }

  /** A fleet that was announced to its end is not announced further. */
  lemma AnnouncedPrefix(f: seq<Placement>, a: bool, g: seq<Placement>, b: bool)
    requires Announced(f, a) <= Announced(g, b)
    ensures a ==> b && |f| == |g|
    ensures |f| <= |g| && forall i :: 0 <= i < |f| ==> ShipMsg(f[i]) == ShipMsg(g[i])
  {
    AnnouncedKinds(f, a);
    AnnouncedKinds(g, b);
    var s, t := Announced(f, a), Announced(g, b);
    assert |g| < |s| ==> s[|g|] == t[|g|];
    assert a ==> s[|f|] == t[|f|];
    assert forall i :: 0 <= i < |f| ==> Announced(f, a)[i] == ShipMsg(f[i]) && Announced(g, b)[i] == ShipMsg(g[i]);
  }

  lemma {:induction false} PlacingMore(ms: seq<Msg>, m: Msg)
    ensures Placing(ms + [m]) == Placing(ms) + if m.ShipPlace? || m.DonePlacing? then [m] else []
  {
    assert (ms + [m])[..|ms|] == ms;
  }

  lemma {:induction false} PlacingPrefix(ms: seq<Msg>, k: nat)
    requires k <= |ms|
    ensures Placing(ms[..k]) <= Placing(ms)
    decreases |ms| - k
  {
    if k < |ms| {
      PlacingPrefix(ms, k + 1);
      assert ms[..k + 1] == ms[..k] + [ms[k]];
      PlacingMore(ms[..k], ms[k]);
    } else {
      assert ms[..k] == ms;
    }
  }

  // ---------------------------------------------------------------------------------------------
  // What the opening amounts to
  // ---------------------------------------------------------------------------------------------

  /** The next ship of a standard fleet fits the board that holds the ones before it. */
  lemma NextShip(f: seq<Placement>, n: nat)
    requires StandardFleet(f) && n < |f|
    ensures CanPlace(BoardOf(f[..n], {}), f[n]) && LegalFleet(f[..n])
    ensures PlaceShip(BoardOf(f[..n], {}), f[n]) == BoardOf(f[..n + 1], {})
  {
    PrefixIsLegal(f, n);
    forall c: Cell | Contains(f[n], c)
      ensures InGrid(c) && !Occupied(f[..n], c)
    {
      if i :| 0 <= i < n && Contains(f[..n][i], c) { OwnerUnique(f, i, n, c); }
      assert InBounds(f[n]);
    }
    PlaceRefines(f[..n], {}, f[n]);
    assert f[..n] + [f[n]] == f[..n + 1];
  }

  lemma OpeningAt(f: seq<Placement>, k: nat)
    requires k < |Opening(f)|
    ensures Opening(f)[k] ==
            if k == 0 then HelloAck
            else if k == 1 then State(TagByte(PlaceP1))
            else if k == 2 then State(TagByte(PlaceP2))
            else if k < 3 + |f| then ShipMsg(f[k - 3])
            else if k == 3 + |f| then State(TagByte(Counting))
            else Countdown(COUNTDOWN_START)
    ensures Opening(f)[..k + 1] == Opening(f)[..k] + [Opening(f)[k]]
  {
  }

  /** One more message of the opening. */
  lemma OpeningStep(f: seq<Placement>, own: BoardState, k: nat)
    requires StandardFleet(f) && k < if |f| == NUM_SHIPS then OPENING else 3
    ensures |Opening(f)| == 5 + |f|
    ensures NetOf(Opening(f)[..k + 1], own) == NetStep(NetOf(Opening(f)[..k], own), Opening(f)[k])
    ensures k <= 2 ==> Opening(f)[k] == [HelloAck, State(TagByte(PlaceP1)), State(TagByte(PlaceP2))][k]
    ensures 3 <= k < 8 ==> Opening(f)[k].ShipPlace? && ShipOf(Opening(f)[k]) == f[k - 3]
    ensures k >= 8 ==> Opening(f)[k] == [State(TagByte(Counting)), Countdown(COUNTDOWN_START)][k - 8]
  {
    OpeningAt(f, k);
    if 3 <= k < 8 { StandardShip(f, k - 3); }
    var before, m := Opening(f)[..k], Opening(f)[k];
    hide NetOf, NetStep, TagByte, ShipMsg, ShipOf;
    NetMore(before, m, own);
  }

  /** A client that has heard the first `k` messages of the opening: it has player 1's first `k - 3`
      ships, however long its player takes to place its own. */
  lemma {:induction false} OpeningNet(f: seq<Placement>, own: BoardState, k: nat)
    requires StandardFleet(f) && k <= if |f| == NUM_SHIPS then OPENING else 3
    ensures |Opening(f)| == 5 + |f|
    ensures var n := if k <= 3 then 0 else if k >= 8 then NUM_SHIPS else k - 3;
            NetOf(Opening(f)[..k], own) ==
            Net(if k < 2 then WaitingConnect else if k == 2 then PlaceP1 else if k < 9 then PlaceP2 else Counting,
                BoardOf(f[..n], {}), own)
  {
    InitialIsBoardOf();
    assert f[..0] == [] && (|f| == NUM_SHIPS ==> f[..NUM_SHIPS] == f);
    if k > 0 {
      OpeningNet(f, own, k - 1);
      OpeningStep(f, own, k - 1);
      if 3 < k <= 8 { NextShip(f, k - 4); }
      hide Opening, StandardFleet;
    }
  }
}
