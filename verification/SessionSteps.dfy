/** Every step of a session keeps the two machines together, up to the battle. */
module SessionSteps {
  import opened Boards
  import opened Protocol
  import opened Explosion
  import opened Host
  import opened HostControl
  import opened HostSteps
  import opened Replica
  import opened Client
  import opened Session

  // ---------------------------------------------------------------------------------------------
  // The client's player
  // ---------------------------------------------------------------------------------------------

  /** A message that places no ship; a shot is at the grid. */
  predicate Plain(m: Msg) {
    !m.ShipPlace? && !m.DonePlacing? && (m.AttackMsg? ==> InGrid(Cell(m.col, m.row)))
  }

  predicate SentAtMostOne(was: seq<Msg>, now: seq<Msg>) {
    now == was || (|now| == |was| + 1 && now[..|was|] == was && Plain(now[|was|]))
  }

  /** The tags after input: as before, or a pause begins, or it ends. */
  predicate TagMoves(t: Tag, prev: Tag, t': Tag, prev': Tag) {
    || (t' == t && prev' == prev)
    || (t' == Paused && prev' == t && (t == PlaceP2 || t == TurnP2))
    || (t == Paused && t' == prev)
  }

  predicate WordsMove(t: Tag, d: Words, d': Words) {
    && (PlacingWords(d) && t != TurnP2 ==> PlacingWords(d') && d'.w1 == d.w1)
    && (InGrid(Cell(d.w1, d.w2)) && t != PlaceP2 ==> InGrid(Cell(d'.w1, d'.w2)))
  }

  /** Input that places no ship. */
  predicate QuietAct(c: ClientState, r: ClientState) {
    && r.p1 == c.p1 && r.p2 == c.p2
    && SentAtMostOne(c.sent, r.sent)
    && TagMoves(c.tag, c.prev, r.tag, r.prev)
    && WordsMove(c.tag, c.data, r.data)
  }

  /** Enter or a click that places a ship; the cursor may have moved with the same packet. */
  ghost predicate CommitAct(c: ClientState, r: ClientState, d: Words) {
    && c.tag == PlaceP2 && d.w1 == c.data.w1 && 0 <= d.w1 < NUM_SHIPS && FullGrid(c.p2.grid)
    && WordsMove(PlaceP2, c.data, d) && CanPlace(c.p2, Wanted(d))
    && r == ClientCommit(c.(data := d))
  }

  /** States of the session. */
  predicate Playing(t: Tag) {
    t != MainMenu && t != Instructions && t != Exit
  }

  lemma FireIsQuiet(c: ClientState, x: Cell)
    requires c.tag == TurnP2 && InGrid(x) && FullGrid(c.p1.grid)
    ensures QuietAct(c, ClientFire(c, x))
  {
  }

  lemma CommitOrNothing(c: ClientState, d: Words)
    requires c.tag == PlaceP2 && d.w1 == c.data.w1 && 0 <= d.w1 < NUM_SHIPS && FullGrid(c.p2.grid)
    requires WordsMove(PlaceP2, c.data, d)
    ensures var r := ClientCommit(c.(data := d)); QuietAct(c, r) || CommitAct(c, r, d)
  {
  }

  lemma KeyActs(c: ClientState, code: KeyCode, make: bool, raw: byte)
    requires ClientSafe(c) && Playing(c.tag)
    requires c.tag == TurnP2 ==> InGrid(Cell(c.data.w1, c.data.w2))
    ensures var r := ClientKey(c, code, make, raw);
            r.tag == MainMenu || QuietAct(c, r) || CommitAct(c, r, c.data)
  {
    if c.tag == PlaceP2 { PlaceKeyActs(c, code, make, raw); }
    else if c.tag == TurnP2 { TurnKeyActs(c, code, make, raw); }
    else { OtherKeyActs(c, code, make, raw); }
    hide ClientKey, QuietAct, CommitAct, ClientSafe;
  }

  lemma PlaceKeyActs(c: ClientState, code: KeyCode, make: bool, raw: byte)
    requires ClientSafe(c) && c.tag == PlaceP2
    ensures var r := ClientKey(c, code, make, raw); QuietAct(c, r) || CommitAct(c, r, c.data)
  {
    CommitOrNothing(c, c.data);
    hide ClientCommit, ClientFire, ClientMenu, CommitAct, InitialBoard, IsExploding;
  }

  lemma TurnKeyActs(c: ClientState, code: KeyCode, make: bool, raw: byte)
    requires ClientSafe(c) && c.tag == TurnP2
    ensures QuietAct(c, ClientKey(c, code, make, raw))
  {
    FireIsQuiet(c, Cell(c.data.w1, c.data.w2));
    hide ClientCommit, ClientFire, ClientMenu, InitialBoard, IsExploding;
  }

  lemma OtherKeyActs(c: ClientState, code: KeyCode, make: bool, raw: byte)
    requires ClientSafe(c) && Playing(c.tag) && c.tag != PlaceP2 && c.tag != TurnP2
    ensures var r := ClientKey(c, code, make, raw); r.tag == MainMenu || QuietAct(c, r)
  {
    hide ClientCommit, ClientFire, ClientMenu, CommitAct, InitialBoard, IsExploding;
  }

  lemma MouseActs(c: ClientState, m: MouseEvent, packet: Msg)
    requires ClientSafe(c) && Playing(c.tag) && MouseOk(m) && packet.Mouse?
    ensures var r := ClientMouse(c, m, packet);
            QuietAct(c, r) || exists d :: CommitAct(c, r, d)
  {
    var over := m.moved && m.over.Some?;
    if c.tag == PlaceP2 {
      var d := if over then c.data.(w3 := m.over.value.col, w4 := m.over.value.row) else c.data;
      CommitOrNothing(c, d);
      hide ClientCommit, CommitAct;
      assert c.(data := c.data) == c;
    } else if c.tag == TurnP2 {
      var d := if over then c.data.(w1 := m.over.value.col, w2 := m.over.value.row) else c.data;
      FireIsQuiet(c.(data := d), Cell(d.w1, d.w2));
    }
    hide ClientCommit, ClientMenu, CommitAct;
  }

  lemma TickActs(c: ClientState, beat: bool)
    ensures QuietAct(c, ClientTick(c, beat))
  {
    hide Animate, AsByte;
  }

  /** Input either places a ship or leaves the boards alone. */
  lemma InputActs(c: ClientState, i: Input)
    requires ClientSafe(c) && InputOk(i) && Playing(c.tag)
    ensures var r := Act(c, i);
            r.tag == MainMenu || QuietAct(c, r) || exists d :: CommitAct(c, r, d)
  {
    hide ClientKey, ClientMouse, ClientTick, QuietAct, CommitAct;
    match i
    case Elapse(beat) => TickActs(c, beat);
    case KeyInput(code, make, raw) => KeyActs(c, code, make, raw);
    case MouseInput(m, packet) => MouseActs(c, m, packet);
  }

  lemma QuietFollows(c: ClientState, r: ClientState, heard: seq<Msg>)
    requires Follows(c, heard) && QuietAct(c, r)
    ensures Follows(r, heard)
  {
    hide NetOf, FullGrid, BoardOf;
  }

  lemma QuietMirrored(h: HostState, c: ClientState, r: ClientState, read: nat)
    requires Mirrored(h, c, read) && QuietAct(c, r)
    ensures Mirrored(h, r, read)
  {
    assert r.sent[..read] == c.sent[..read];
    if r.sent != c.sent {
      assert r.sent == c.sent + [r.sent[|c.sent|]];
      PlacingMore(c.sent, r.sent[|c.sent|]);
    }
    hide Placing;
  }

  // ---------------------------------------------------------------------------------------------
  // The client places a ship
  // ---------------------------------------------------------------------------------------------

  /** As long as the client has ships left to place the host has read no end of placing. */
  lemma NotStarted(s: Pair)
    requires Together(s) && |s.c.p2.ships| < NUM_SHIPS
    ensures !Started(Active(s.h)) && |s.h.sent| <= 3
  {
    PlacingPrefix(s.c.sent, s.read);
    AnnouncedPrefix(FleetOf(s.h.p2), Started(Active(s.h)), FleetOf(s.c.p2), |s.c.p2.ships| == NUM_SHIPS);
  }

  lemma FirstThree(own: BoardState, j: nat)
    requires j <= 3
    ensures |Opening([])| == 5
    ensures NetOf(Opening([])[..j], own) ==
            Net(if j < 2 then WaitingConnect else if j == 2 then PlaceP1 else PlaceP2, InitialBoard(), own)
  {
    var none: seq<Placement> := [];
    InitialIsBoardOf();
    assert StandardFleet(none) && none[..0] == none;
    OpeningNet(none, own, j);
  }

  lemma ShortLog(h: HostState)
    requires HostSide(h) && !Started(Active(h))
    ensures |Opening([])| == 5 && 2 <= |h.sent| <= 3 && h.sent == Opening([])[..|h.sent|]
    ensures |h.sent| == 3 ==> h.tag == PlaceWaiting
  {
    assert |Opening([])| == 5;
    hide Inv, Opening;
  }

  lemma LastHeard(c: ClientState, heard: seq<Msg>)
    requires Follows(c, heard) && c.tag == PlaceP2
    ensures NetOf(heard, BoardOf(FleetOf(c.p2), {})).last == PlaceP2 && |c.p2.ships| < NUM_SHIPS
  {
    hide NetOf, BoardOf, FleetOf;
  }

  lemma LinkedParts(s: Pair)
    requires Together(s)
    ensures HostSide(s.h) && Mirrored(s.h, s.c, s.read) && s.heard <= |s.h.sent| && Follows(s.c, s.h.sent[..s.heard])
  {
  }

  /** The client places ships after hearing the first three messages, which are all there are. */
  lemma PlacingAfterThree(s: Pair)
    requires Together(s) && s.c.tag == PlaceP2
    ensures |s.c.p2.ships| < NUM_SHIPS && s.heard == 3 && s.h.sent == Opening([])[..3] && s.h.tag == PlaceWaiting
    ensures forall own :: NetOf(s.h.sent[..3], own) == Net(PlaceP2, InitialBoard(), own)
  {
    hide Linked, HostSide, Mirrored, Follows, NetOf, Opening, BoardOf, FleetOf, InitialBoard;
    LinkedParts(s);
    LastHeard(s.c, s.h.sent[..s.heard]);
    NotStarted(s);
    ShortLog(s.h);
    assert s.h.sent[..s.heard] == Opening([])[..s.heard];
    FirstThree(BoardOf(FleetOf(s.c.p2), {}), s.heard);
    assert s.h.sent[..3] == Opening([])[..3];
    forall own
      ensures NetOf(Opening([])[..3], own) == Net(PlaceP2, InitialBoard(), own)
    {
      FirstThree(own, 3);
    }
  }

  lemma FleetGrows(b: BoardState, p: Placement)
    ensures FleetOf(PlaceShip(b, p)) == FleetOf(b) + [p]
  {
  }

  /** The next ship of the client extends its fleet by a legal placement. */
  lemma CommitFleet(c: ClientState, d: Words)
    requires StandardFleet(FleetOf(c.p2)) && c.p2 == BoardOf(FleetOf(c.p2), {}) && |c.p2.ships| < NUM_SHIPS
    requires FullGrid(c.p2.grid) && d.w1 == |c.p2.ships| && CanPlace(c.p2, Wanted(d))
    ensures var p2 := PlaceShip(c.p2, Wanted(d));
            && FleetOf(p2) == FleetOf(c.p2) + [Wanted(d)] && StandardFleet(FleetOf(p2))
            && p2 == BoardOf(FleetOf(p2), {}) && |p2.ships| == |c.p2.ships| + 1 && FullGrid(p2.grid)
  {
    var f, p := FleetOf(c.p2), Wanted(d);
    SameSize(c.p2);
    assert p.size == SHIP_SIZES[|f|] && p.typeIdx == |f|;
    FleetGrows(c.p2, p);
    hide Wanted, FleetOf;
    PlaceRefines(f, {}, p);
    StandardOneMore(f, p);
    hide BoardOf, PlaceShip, CanPlace, StandardFleet;
    SameSize(PlaceShip(c.p2, p));
    GrownGrid(f + [p]);
  }

  lemma SameSize(b: BoardState)
    ensures |FleetOf(b)| == |b.ships|
  {
  }

  lemma GrownGrid(f: seq<Placement>)
    ensures FullGrid(BoardOf(f, {}).grid)
  {
  }

  lemma StandardOneMore(f: seq<Placement>, p: Placement)
    requires StandardFleet(f) && |f| < NUM_SHIPS && LegalFleet(f + [p]) && p.size == SHIP_SIZES[|f|] && p.typeIdx == |f|
    ensures StandardFleet(f + [p])
  {
    hide LegalFleet;
  }

  lemma AnnounceOneMore(f: seq<Placement>, p: Placement, done: bool)
    ensures Announced(f + [p], done) == Announced(f, false) + [ShipMsg(p)] + if done then [DonePlacing] else []
  {
    assert ShipMsgs(f + [p]) == ShipMsgs(f) + [ShipMsg(p)];
  }

  lemma CommitMirrored(h: HostState, c: ClientState, r: ClientState, read: nat, p: Placement)
    requires Mirrored(h, c, read) && |c.p2.ships| < NUM_SHIPS
    requires FleetOf(r.p2) == FleetOf(c.p2) + [p] && StandardFleet(FleetOf(r.p2)) && |r.p2.ships| == |c.p2.ships| + 1
    requires r.sent == c.sent + if |r.p2.ships| == NUM_SHIPS then [ShipMsg(p), DonePlacing] else [ShipMsg(p)]
    ensures Mirrored(h, r, read)
  {
    var done := |r.p2.ships| == NUM_SHIPS;
    PlacingMore(c.sent, ShipMsg(p));
    if done {
      assert r.sent == (c.sent + [ShipMsg(p)]) + [DonePlacing];
      PlacingMore(c.sent + [ShipMsg(p)], DonePlacing);
    }
    AnnounceOneMore(FleetOf(c.p2), p, done);
    assert r.sent[..read] == c.sent[..read];
    hide Placing, Announced, StandardFleet;
  }

  lemma CommitFollows(c: ClientState, r: ClientState, heard: seq<Msg>, d: Words, own: BoardState)
    requires Follows(c, heard) && CommitAct(c, r, d) && |c.p2.ships| < NUM_SHIPS
    requires |heard| >= 3 && own == r.p2 == BoardOf(FleetOf(r.p2), {}) && FullGrid(own.grid)
    requires NetOf(heard, BoardOf(FleetOf(c.p2), {})) == Net(PlaceP2, c.p1, c.p2)
    requires NetOf(heard, own) == Net(PlaceP2, c.p1, own)
    ensures Follows(r, heard)
  {
    hide NetOf, FullGrid, BoardOf;
  }

  /** A ship placed by the client keeps the machines together. */
  lemma CommitKeeps(s: Pair, r: ClientState, d: Words)
    requires Together(s) && CommitAct(s.c, r, d)
    ensures Together(s.(c := r))
  {
    var c := s.c;
    PlacingAfterThree(s);
    assert s.h.sent[..s.heard] == s.h.sent[..3];
    var n := NetOf(s.h.sent[..3], BoardOf(FleetOf(c.p2), {}));
    assert n == Net(PlaceP2, c.p1, c.p2);
    CommitFleet(c, d);
    var p2 := PlaceShip(c.p2, Wanted(d));
    assert r.p2 == p2;
    CommitMirrored(s.h, c, r, s.read, Wanted(d));
    CommitFollows(c, r, s.h.sent[..3], d, p2);
  }

  lemma ClientIsSafe(c: ClientState, heard: seq<Msg>)
    requires Follows(c, heard)
    ensures ClientSafe(c) && Playing(c.tag)
  {
    hide NetOf, BoardOf;
  }

  /** Input on the client. */
  lemma ClientStep(s: Pair, i: Input)
    requires Together(s) && InputOk(i)
    ensures ClientSafe(s.c)
    ensures Act(s.c, i).tag != MainMenu ==> Together(s.(c := Act(s.c, i)))
  {
    ClientIsSafe(s.c, s.h.sent[..s.heard]);
    InputActs(s.c, i);
    var r := Act(s.c, i);
    hide Act, QuietAct, CommitAct, Mirrored, Follows, HostSide;
    if QuietAct(s.c, r) {
      QuietFollows(s.c, r, s.h.sent[..s.heard]);
      QuietMirrored(s.h, s.c, r, s.read);
    } else if d :| CommitAct(s.c, r, d) {
      CommitKeeps(s, r, d);
    }
  }

  // ---------------------------------------------------------------------------------------------
  // The client hears a message
  // ---------------------------------------------------------------------------------------------

  /** Messages that a client in a session can take. */
  predicate Sensible(m: Msg, placed: nat, theirs: nat) {
    match m
    case State(t) => Announceable(TagOf(t)) && (TagOf(t) == PlaceP2 ==> placed == 0)
    case ShipPlace(_, _, _, _) => theirs < NUM_SHIPS
    case AttackMsg(col, row, _) => InGrid(Cell(col, row))
    case _ => true
  }

  lemma FleetKept(r: BoardState, x: Cell, result: byte)
    requires x in r.grid
    ensures FleetOf(Reported(r, x, result)) == FleetOf(r)
  {
  }

  lemma SameFleetSameSize(b: BoardState, r: BoardState)
    requires FleetOf(r) == FleetOf(b)
    ensures |r.ships| == |b.ships|
  {
    assert |FleetOf(b)| == |b.ships|;
  }

  /** The client is where the messages put it. */
  ghost predicate AtNet(c: ClientState, n: Net, placed: nat) {
    && c.p1 == n.p1 && c.p2 == n.p2 && FullGrid(n.p1.grid) && FullGrid(n.p2.grid) && Announceable(n.last)
    && TagFollows(c.tag, c.prev, n.last, placed) && CursorsOk(n.last, placed, c.data)
  }

  /** Client and messages go the same way. */
  lemma HearIsNetStep(c: ClientState, n: Net, m: Msg)
    requires AtNet(c, n, |c.p2.ships|) && Sensible(m, |c.p2.ships|, |c.p1.ships|)
    ensures m.AttackMsg? ==> Cell(m.col, m.row) in Target(c).grid
    ensures var r, n' := Hear(c, m), NetStep(n, m);
            && AtNet(r, n', |c.p2.ships|)
            && FleetOf(r.p2) == FleetOf(c.p2) && |r.p2.ships| == |c.p2.ships|
            && r.sent == c.sent
  {
    assert c.tag == TurnP1 <==> n.last == TurnP1;
    if m.AttackMsg? {
      AttackIsNetStep(c, n, m);
    } else if m.State? {
      StateIsNetStep(c, n, m);
    } else {
      OtherIsNetStep(c, n, m);
    }
    hide Hear, NetStep, AtNet, FleetOf, Sensible;
  }

  lemma AttackIsNetStep(c: ClientState, n: Net, m: Msg)
    requires AtNet(c, n, |c.p2.ships|) && m.AttackMsg? && InGrid(Cell(m.col, m.row)) && (c.tag == TurnP1 <==> n.last == TurnP1)
    ensures Cell(m.col, m.row) in Target(c).grid
    ensures var r, n' := Hear(c, m), NetStep(n, m);
            && AtNet(r, n', |c.p2.ships|)
            && FleetOf(r.p2) == FleetOf(c.p2) && |r.p2.ships| == |c.p2.ships|
            && r.sent == c.sent
  {
    var x := Cell(m.col, m.row);
    FleetKept(Target(c), x, m.result);
    SameFleetSameSize(Target(c), Reported(Target(c), x, m.result));
    hide Reported, FleetOf;
  }

  lemma StateIsNetStep(c: ClientState, n: Net, m: Msg)
    requires AtNet(c, n, |c.p2.ships|) && m.State? && Sensible(m, |c.p2.ships|, |c.p1.ships|)
    ensures var r, n' := Hear(c, m), NetStep(n, m);
            AtNet(r, n', |c.p2.ships|) && r.p2 == c.p2 && r.sent == c.sent
  {
    hide FullGrid, TagOf;
  }

  lemma OtherIsNetStep(c: ClientState, n: Net, m: Msg)
    requires AtNet(c, n, |c.p2.ships|) && Sensible(m, |c.p2.ships|, |c.p1.ships|) && !m.State? && !m.AttackMsg?
    ensures var r, n' := Hear(c, m), NetStep(n, m);
            AtNet(r, n', |c.p2.ships|) && r.p2 == c.p2 && r.sent == c.sent
  {
    hide TagFollows;
  }

  lemma OpeningIsSensible(f: seq<Placement>, k: nat, placed: nat, theirs: nat)
    requires k < |Opening(f)| && (k < 3 ==> placed == 0) && (3 <= k < 3 + |f| ==> theirs < NUM_SHIPS)
    ensures Sensible(Opening(f)[k], placed, theirs)
  {
    assert 3 <= k < 3 + |f| ==> Opening(f)[k] == ShipMsg(f[k - 3]);
  }

  /** Every message of the host finds the client ready for it. */
  lemma NextIsSensible(t: Tag, sent: seq<Msg>, f: seq<Placement>, c: ClientState, heard: nat)
    requires InSession(t) && LogOk(t, sent, f) && (Started(t) ==> StandardFleet(f) && |f| == NUM_SHIPS)
    requires heard < |sent| && Follows(c, sent[..heard])
    ensures Sensible(sent[heard], |c.p2.ships|, |c.p1.ships|)
  {
    var own := BoardOf(FleetOf(c.p2), {});
    assert c.p1 == NetOf(sent[..heard], own).p1 && (heard < 3 ==> c.p2.ships == []);
    hide Follows;
    if !Started(t) {
      assert sent[heard] == Opening([])[heard];
      OpeningIsSensible([], heard, |c.p2.ships|, |c.p1.ships|);
    } else if heard < OPENING {
      assert sent[heard] == sent[..OPENING][heard] && sent[..heard] == sent[..OPENING][..heard];
      hide Opening, BoardOf, NetOf;
      OpeningNet(f, own, heard);
      if 3 <= heard < 8 { PrefixSize(f, heard - 3); }
      OpeningIsSensible(f, heard, |c.p2.ships|, |c.p1.ships|);
    } else {
      assert BattleMsg(sent[heard]);
    }
  }

  lemma FullFleets(h: HostState)
    requires Inv(h) && Started(Active(h))
    ensures FullFleet(FleetOf(h.p1)) && FullFleet(FleetOf(h.p2))
  {
    assert |FleetOf(h.p1)| == |h.p1.ships| && |FleetOf(h.p2)| == |h.p2.ships|;
  }

  lemma PrefixSize(f: seq<Placement>, n: nat)
    requires n <= |f|
    ensures |BoardOf(f[..n], {}).ships| == n
  {
  }

  lemma HearFollows(c: ClientState, heard: seq<Msg>, m: Msg)
    requires Follows(c, heard) && Sensible(m, |c.p2.ships|, |c.p1.ships|)
    ensures m.AttackMsg? ==> Cell(m.col, m.row) in Target(c).grid
    ensures Follows(Hear(c, m), heard + [m])
    ensures FleetOf(Hear(c, m).p2) == FleetOf(c.p2) && Hear(c, m).sent == c.sent
    ensures |Hear(c, m).p2.ships| == |c.p2.ships|
  {
    var own := BoardOf(FleetOf(c.p2), {});
    NetMore(heard, m, own);
    assert AtNet(c, NetOf(heard, own), |c.p2.ships|);
    HearIsNetStep(c, NetOf(heard, own), m);
    hide NetOf, NetStep, Hear, Sensible, TagFollows, CursorsOk;
  }

  lemma HearMirrored(h: HostState, c: ClientState, r: ClientState, read: nat)
    requires Mirrored(h, c, read) && r.sent == c.sent && FleetOf(r.p2) == FleetOf(c.p2) && |r.p2.ships| == |c.p2.ships|
    ensures Mirrored(h, r, read)
  {
    hide Placing, Announced, StandardFleet;
  }

  lemma HearAfter(s: Pair)
    requires s.heard < |s.h.sent|
    requires var m := s.h.sent[s.heard]; m.AttackMsg? ==> Cell(m.col, m.row) in Target(s.c).grid
    ensures Defined(s, ClientHears)
    ensures After(s, ClientHears) == s.(c := Hear(s.c, s.h.sent[s.heard]), heard := s.heard + 1)
  {
    hide Hear;
  }

  lemma NextIsReady(s: Pair)
    requires Together(s) && s.heard < |s.h.sent|
    ensures Sensible(s.h.sent[s.heard], |s.c.p2.ships|, |s.c.p1.ships|)
    ensures HostSide(s.h) && Mirrored(s.h, s.c, s.read) && Follows(s.c, s.h.sent[..s.heard])
  {
    if Started(Active(s.h)) { FullFleets(s.h); }
    hide Sensible, Follows, Inv, LogOk, Mirrored;
    NextIsSensible(Active(s.h), s.h.sent, FleetOf(s.h.p1), s.c, s.heard);
  }

  lemma HeardTogether(s: Pair, r: ClientState)
    requires s.heard < |s.h.sent| && HostSide(s.h) && Mirrored(s.h, r, s.read)
    requires Follows(r, s.h.sent[..s.heard] + [s.h.sent[s.heard]])
    ensures Together(s.(c := r, heard := s.heard + 1))
  {
    hide HostSide, Mirrored, Follows;
    assert s.h.sent[..s.heard] + [s.h.sent[s.heard]] == s.h.sent[..s.heard + 1];
  }

  /** A message heard. */
  lemma HearStep(s: Pair)
    requires Together(s) && s.heard < |s.h.sent|
    ensures Defined(s, ClientHears)
    ensures Together(After(s, ClientHears))
  {
    hide Linked, HostSide, Mirrored, Follows, Hear, Sensible, After, Defined, FleetOf;
    var m := s.h.sent[s.heard];
    NextIsReady(s);
    HearFollows(s.c, s.h.sent[..s.heard], m);
    HearAfter(s);
    var r := Hear(s.c, m);
    HearMirrored(s.h, s.c, r, s.read);
    HeardTogether(s, r);
  }

  // ---------------------------------------------------------------------------------------------
  // The host reads a message
  // ---------------------------------------------------------------------------------------------

  lemma ReadPrefix(c: ClientState, read: nat, f: seq<Placement>, a: bool, m: Msg)
    requires read < |c.sent| && m == c.sent[read] && (m.ShipPlace? || m.DonePlacing?)
    requires Placing(c.sent[..read]) == Announced(f, a)
    requires Placing(c.sent) == Announced(FleetOf(c.p2), |c.p2.ships| == NUM_SHIPS)
    ensures !a && Announced(f, a) + [m] <= Announced(FleetOf(c.p2), |c.p2.ships| == NUM_SHIPS)
  {
    assert c.sent[..read + 1] == c.sent[..read] + [m];
    PlacingMore(c.sent[..read], m);
    PlacingPrefix(c.sent, read + 1);
    var g, b := FleetOf(c.p2), |c.p2.ships| == NUM_SHIPS;
    AnnouncedKinds(f, a);
    AnnouncedKinds(g, b);
    if a {
      assert Announced(f, a) <= Announced(g, b);
      AnnouncedPrefix(f, a, g, b);
    }
  }

  /** A placement that the host reads is the client's next ship, and fits. */
  lemma ShipRead(s: Pair)
    requires Together(s) && s.read < |s.c.sent| && s.c.sent[s.read].ShipPlace?
    ensures var m, n := s.c.sent[s.read], |s.h.p2.ships|;
            && n < |s.c.p2.ships| && ShipOf(m) == FleetOf(s.c.p2)[n] && FleetOf(s.h.p2) == FleetOf(s.c.p2)[..n]
            && !Started(Active(s.h))
  {
    var m := s.c.sent[s.read];
    var f, g := FleetOf(s.h.p2), FleetOf(s.c.p2);
    var a, b := Started(Active(s.h)), |s.c.p2.ships| == NUM_SHIPS;
    ReadPrefix(s.c, s.read, f, a, m);
    assert |f| == |s.h.p2.ships|;
    NextRead(f, g, b, m);
    hide Linked, Announced;
  }

  lemma NextRead(f: seq<Placement>, g: seq<Placement>, b: bool, m: Msg)
    requires StandardFleet(f) && StandardFleet(g) && m.ShipPlace?
    requires Announced(f, false) + [m] <= Announced(g, b)
    ensures |f| < |g| && ShipOf(m) == g[|f|] && f == g[..|f|]
  {
    AnnouncedKinds(f, false);
    AnnouncedKinds(g, b);
    assert Announced(g, b)[|f|] == (Announced(f, false) + [m])[|f|] == m;
    assert Announced(g, b)[|f|] == ShipMsg(g[|f|]);
    StandardShip(g, |f|);
    forall i | 0 <= i < |f|
      ensures f[i] == g[i]
    {
      assert Announced(g, b)[i] == (Announced(f, false) + [m])[i];
      assert Announced(g, b)[i] == ShipMsg(g[i]) && Announced(f, false)[i] == ShipMsg(f[i]);
      StandardShip(f, i);
      StandardShip(g, i);
    }
  }
}
