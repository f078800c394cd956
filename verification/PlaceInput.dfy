/** Placing ships by keyboard and mouse: which cells of the board a press of Enter or a click fills, on the
    host and on the client. */
module PlaceInput {
  import opened Boards
  import opened Protocol
  import opened Host
  import opened HostControl
  import opened HostSteps
  import opened HostRuns
  import opened Client
  import opened SessionRuns

  /** The cell is covered by the ship that is being placed: as many cells as ship `w1` has, from the cursor to
      the right if `w2` is 0, else downwards. */
  predicate Under(d: Words, c: Cell)
    requires 0 <= d.w1 < NUM_SHIPS
  {
    if d.w2 == 0 then c.row == d.w4 && 0 <= c.col - d.w3 < SHIP_SIZES[d.w1]
    else c.col == d.w3 && 0 <= c.row - d.w4 < SHIP_SIZES[d.w1]
  }

  /** All of them are on the grid and free. */
  ghost predicate RoomFor(b: BoardState, d: Words)
    requires 0 <= d.w1 < NUM_SHIPS
  {
    forall c: Cell :: Under(d, c) ==> InGrid(c) && c in b.grid && b.grid[c] == Empty
  }

  /** They have turned from free to ship, nothing else has changed, and the table has one more ship. */
  ghost predicate OneShipMore(b: BoardState, r: BoardState, d: Words)
    requires 0 <= d.w1 < NUM_SHIPS
  {
    && r.grid.Keys == b.grid.Keys
    && (forall c :: c in b.grid ==> if Under(d, c) then b.grid[c] == Empty && r.grid[c] == Ship else r.grid[c] == b.grid[c])
    && |r.ships| == |b.ships| + 1 && r.ships[..|b.ships|] == b.ships && r.shipsSunk == b.shipsSunk
  }

  /** The words after a ship that was not the last: the next ship, the same orientation, the cursor home. */
  function NextWords(d: Words): Words {
    Words(d.w0, d.w1 + 1, d.w2, 0, 0)
  }

  /** The cursor has followed the mouse. */
  function Steered(d: Words, m: MouseEvent): Words {
    if m.moved && m.over.Some? then Words(d.w0, d.w1, d.w2, m.over.value.col, m.over.value.row) else d
  }

  // ---------------------------------------------------------------------------------------------
  // The ship
  // ---------------------------------------------------------------------------------------------

  lemma RoomMeans(b: BoardState, d: Words)
    requires 0 <= d.w1 < NUM_SHIPS && FullGrid(b.grid)
    ensures CanPlace(b, Wanted(d)) <==> RoomFor(b, d)
  {
    InBoundsMeans(Wanted(d));
    assert forall c: Cell :: Contains(Wanted(d), c) <==> Under(d, c);
    hide Wanted, InBounds;
  }

  lemma PlacedMeans(b: BoardState, d: Words)
    requires 0 <= d.w1 < NUM_SHIPS && FullGrid(b.grid) && RoomFor(b, d)
    ensures OneShipMore(b, PlaceShip(b, Wanted(d)), d)
  {
    assert forall c: Cell :: Contains(Wanted(d), c) <==> Under(d, c);
    hide Wanted;
  }

  lemma RoomAtCursor(b: BoardState, d: Words)
    requires 0 <= d.w1 < NUM_SHIPS && RoomFor(b, d)
    ensures InGrid(Cell(d.w3, d.w4))
  {
    assert Under(d, Cell(d.w3, d.w4));
  }

  // ---------------------------------------------------------------------------------------------
  // The host
  // ---------------------------------------------------------------------------------------------

  /** Player 1 places a ship with the words `d`: it lies where they say if there is room, and the game asks for
      the next ship, or for player 2's; otherwise nothing happens. */
  ghost predicate PlacedByP1(h: HostState, r: HostState, d: Words)
    requires 0 <= d.w1 < NUM_SHIPS
  {
    if !RoomFor(h.p1, d) then r == h.(data := d)
    else
      && OneShipMore(h.p1, r.p1, d) && r.p2 == h.p2 && r.expl == h.expl && r.bot == h.bot && r.single == h.single
      && if |h.p1.ships| + 1 < NUM_SHIPS then r.tag == h.tag && r.data == NextWords(d) && r.sent == h.sent
         else if h.single then r.tag == PlaceP2 && r.botTimer == 0 && r.data == Words(d.w0, 0, 0, 0, 0) && r.sent == h.sent
         else r.tag == PlaceWaiting && r.data == Words(d.w0, 0, 0, 0, 0) && r.sent == h.sent + [State(TagByte(PlaceP2))]
  }

  lemma CommitPlaces(h: HostState)
    requires h.tag == PlaceP1 && 0 <= h.data.w1 < NUM_SHIPS && FullGrid(h.p1.grid)
    ensures PlacedByP1(h, CommitShip(h), h.data)
  {
    RoomMeans(h.p1, h.data);
    if RoomFor(h.p1, h.data) { PlacedMeans(h.p1, h.data); }
    hide Wanted, CanPlace, PlaceShip, RoomFor, OneShipMore;
  }

  /** Enter while player 1 places ships. */
  lemma EnterPlaces(h: HostState)
    requires CursorSafe(h) && h.tag == PlaceP1
    ensures PlacedByP1(h, HandleKey(h, KeyEnter, true), h.data)
  {
    hide PlacedByP1, CommitShip;
    CommitPlaces(h);
  }

  /** A mouse packet while player 1 places ships: the cursor follows the mouse, and a click places the ship there. */
  lemma ClickPlaces(h: HostState, m: MouseEvent)
    requires CursorSafe(h) && MouseOk(m) && h.tag == PlaceP1
    ensures var r, d := HandleMouse(h, m), Steered(h.data, m);
            if m.clicked then PlacedByP1(h, r, d) else r == h.(data := d)
  {
    hide CommitShip, PlacedByP1;
    var d := Steered(h.data, m);
    CommitPlaces(h.(data := d));
    SteeredFirst(h, CommitShip(h.(data := d)), d);
  }

  lemma SteeredFirst(h: HostState, r: HostState, d: Words)
    requires 0 <= d.w1 < NUM_SHIPS && PlacedByP1(h.(data := d), r, d)
    ensures PlacedByP1(h, r, d)
  {
    hide RoomFor, OneShipMore;
  }

  /** Enter while the bot is to place its ships: the same on the bot's board. */
  lemma EnterPlacesForBot(h: HostState)
    requires CursorSafe(h) && h.tag == PlaceP2
    ensures var r, d := HandleKey(h, KeyEnter, true), h.data;
            if !RoomFor(h.p2, d) then r == h
            else
              && OneShipMore(h.p2, r.p2, d) && r.p1 == h.p1
              && if |h.p2.ships| + 1 < NUM_SHIPS then r.tag == PlaceP2 && r.data == NextWords(d) && r.sent == h.sent
                 else r.tag == PlaceWaiting && r.data == d && r.sent == h.sent + [DonePlacing]
  {
    RoomMeans(h.p2, h.data);
    if RoomFor(h.p2, h.data) { PlacedMeans(h.p2, h.data); }
    hide Wanted, CanPlace, PlaceShip, RoomFor, OneShipMore;
  }

  // ---------------------------------------------------------------------------------------------
  // The client
  // ---------------------------------------------------------------------------------------------

  /** The client's player places a ship with the words `d`, and the host is told cell, size, type and orientation,
      and after the fifth ship that there are no more. */
  ghost predicate PlacedByP2(c: ClientState, r: ClientState, d: Words)
    requires 0 <= d.w1 < NUM_SHIPS
  {
    if !RoomFor(c.p2, d) then r == c.(data := d)
    else
      && InGrid(Cell(d.w3, d.w4))
      && OneShipMore(c.p2, r.p2, d) && r.p1 == c.p1 && r.expl == c.expl
      && var m := ShipPlace(d.w3, d.w4, SHIP_SIZES[d.w1], 2 * d.w1 + if d.w2 == 0 then 0 else 1);
         if |c.p2.ships| + 1 < NUM_SHIPS then r.tag == c.tag && r.data == NextWords(d) && r.sent == c.sent + [m]
         else r.tag == PlaceWaiting && r.sent == c.sent + [m, DonePlacing]
  }

  lemma WantedMsg(d: Words)
    requires 0 <= d.w1 < NUM_SHIPS && InGrid(Cell(d.w3, d.w4))
    ensures ShipMsg(Wanted(d)) == ShipPlace(d.w3, d.w4, SHIP_SIZES[d.w1], 2 * d.w1 + if d.w2 == 0 then 0 else 1)
  {
  }

  lemma ClientCommitPlaces(c: ClientState)
    requires c.tag == PlaceP2 && 0 <= c.data.w1 < NUM_SHIPS && FullGrid(c.p2.grid)
    ensures PlacedByP2(c, ClientCommit(c), c.data)
  {
    RoomMeans(c.p2, c.data);
    if RoomFor(c.p2, c.data) {
      PlacedMeans(c.p2, c.data);
      RoomAtCursor(c.p2, c.data);
      WantedMsg(c.data);
    }
    hide Wanted, CanPlace, PlaceShip, RoomFor, OneShipMore, ShipMsg;
  }

  lemma ClientSteeredFirst(c: ClientState, r: ClientState, d: Words)
    requires 0 <= d.w1 < NUM_SHIPS && PlacedByP2(c.(data := d), r, d)
    ensures PlacedByP2(c, r, d)
  {
    hide RoomFor, OneShipMore;
  }

  /** Enter on the client. */
  lemma ClientEnterPlaces(c: ClientState, raw: byte)
    requires ClientSafe(c) && c.tag == PlaceP2
    ensures PlacedByP2(c, ClientKey(c, KeyEnter, true, raw), c.data)
  {
    hide ClientCommit, PlacedByP2;
    ClientCommitPlaces(c);
  }

  /** A mouse packet on the client. */
  lemma ClientClickPlaces(c: ClientState, m: MouseEvent, packet: Msg)
    requires ClientSafe(c) && MouseOk(m) && c.tag == PlaceP2
    ensures var r, d := ClientMouse(c, m, packet), Steered(c.data, m);
            if m.clicked then PlacedByP2(c, r, d) else r == c.(data := d)
  {
    hide ClientCommit, PlacedByP2;
    var d := Steered(c.data, m);
    ClientCommitPlaces(c.(data := d));
    ClientSteeredFirst(c, ClientCommit(c.(data := d)), d);
  }

  // ---------------------------------------------------------------------------------------------
  // Turning the ship and moving the cursor
  // ---------------------------------------------------------------------------------------------

  /** The cell beside `x`, with row 0 on top. */
  function Beside(x: Cell, code: KeyCode): Cell {
    match code
    case KeyUp => Cell(x.col, x.row - 1)
    case KeyDown => Cell(x.col, x.row + 1)
    case KeyLeft => Cell(x.col - 1, x.row)
    case KeyRight => Cell(x.col + 1, x.row)
    case _ => x
  }

  /** The cursor goes one cell in the direction of an arrow key and stays on the grid. */
  function CursorAfter(x: Cell, code: KeyCode): Cell {
    if InGrid(Beside(x, code)) then Beside(x, code) else x
  }

  predicate Steers(code: KeyCode) {
    code == KeyUp || code == KeyDown || code == KeyLeft || code == KeyRight
  }

  /** In the place states R turns the ship and moves nothing, the arrow keys move the cursor and turn nothing. */
  predicate SteeredByKey(d: Words, r: Words, code: KeyCode) {
    r == if code == KeyR then d.(w2 := 1 - d.w2)
         else if Steers(code) then var x := CursorAfter(Cell(d.w3, d.w4), code); d.(w3 := x.col, w4 := x.row)
         else d
  }

  lemma PlaceKeysSteer(d: Words, code: KeyCode)
    requires PlacingWords(d)
    ensures SteeredByKey(d, MovePlaceCursor(d, code), code)
  {
  }

  lemma KeysSteerShip(h: HostState, code: KeyCode)
    requires CursorSafe(h) && (h.tag == PlaceP1 || h.tag == PlaceP2) && PlacingWords(h.data) && code != KeyEnter
    ensures var r := HandleKey(h, code, true); SteeredByKey(h.data, r.data, code) && r == h.(data := r.data)
  {
    PlaceKeysSteer(h.data, code);
    hide CommitShip, CommitForBot, MovePlaceCursor, SteeredByKey;
  }

  lemma ClientKeysSteerShip(c: ClientState, code: KeyCode, raw: byte)
    requires ClientSafe(c) && c.tag == PlaceP2 && PlacingWords(c.data) && code != KeyEnter
    ensures var r := ClientKey(c, code, true, raw); SteeredByKey(c.data, r.data, code) && r == c.(data := r.data)
  {
    PlaceKeysSteer(c.data, code);
    hide ClientCommit, MovePlaceCursor, SteeredByKey;
  }

  // ---------------------------------------------------------------------------------------------
  // Nothing else places a ship
  // ---------------------------------------------------------------------------------------------

  /** The words with which an event would place a ship of player 1. */
  function PlacingWith(h: HostState, e: Event): Option<Words> {
    match e
    case KeyEvent(KeyEnter, true) => Some(h.data)
    case MouseMove(m) => if m.clicked then Some(Steered(h.data, m)) else None
    case _ => None
  }

  lemma OtherEventsPlaceNothing(h: HostState, e: Event)
    requires Inv(h) && Enabled(h, e) && h.tag == PlaceP1 && PlacingWith(h, e).None?
    ensures Apply(h, e).p1 == h.p1
  {
    hide Inv, Tick, HandleKey, HandleMouse, HandleMsg, CursorSafe, FairDraws, MsgOk, PlacesForBot;
    InputSafe(h);
    match e
    case TickEvent(pick, fleet) => TickPlacesNothing(h, pick, fleet);
    case KeyEvent(code, make) => KeyPlacesNothing(h, code, make);
    case MouseMove(m) => ClickPlaces(h, m);
    case Incoming(msg) => MsgKeeps(h, msg); MsgPlacesNothing(h, msg);
  }

  lemma MsgPlacesNothing(h: HostState, m: Msg)
    requires h.tag == PlaceP1
    ensures HandleMsg(h, m).p1 == h.p1
  {
  }

  lemma TickPlacesNothing(h: HostState, pick: Cell, fleet: seq<Placement>)
    requires Inv(h) && FairDraws(h, pick, fleet) && h.tag == PlaceP1
    ensures Tick(h, pick, fleet).p1 == h.p1
  {
    BeforeBotKeeps(h);
    var b := BeforeBot(h);
    BotAims(b, pick, fleet);
    QuietStages(h);
    TickWithoutBot(h, pick, fleet, b);
    hide GoodBoard, BotKnows, BeforeBot, Control, Tick;
  }

  lemma KeyPlacesNothing(h: HostState, code: KeyCode, make: bool)
    requires CursorSafe(h) && h.tag == PlaceP1 && !(make && code == KeyEnter)
    ensures HandleKey(h, code, make).p1 == h.p1
  {
    hide CommitShip, MovePlaceCursor;
  }

  /** Every event while player 1 places ships: the board changes exactly if it is Enter or a click with room for
      the ship, and then by the ship that the words describe. */
  lemma ShipIsPlacedExactly(h: HostState, e: Event)
    requires Inv(h) && Enabled(h, e) && h.tag == PlaceP1
    ensures var d, r := PlacingWith(h, e), Apply(h, e);
            && (d.Some? ==> d.value.w1 == |h.p1.ships| < NUM_SHIPS)
            && (r.p1 != h.p1 <==> d.Some? && RoomFor(h.p1, d.value))
            && (r.p1 != h.p1 ==> OneShipMore(h.p1, r.p1, d.value))
  {
    hide RoomFor, OneShipMore;
    InputSafe(h);
    NextIndex(h);
    var r := Apply(h, e);
    match PlacingWith(h, e)
    case None => OtherEventsPlaceNothing(h, e);
    case Some(d) => CommitsWith(h, e, r, d); MoreIsDifferent(h, r, d);
  }

  lemma NextIndex(h: HostState)
    requires Inv(h) && h.tag == PlaceP1
    ensures h.data.w1 == |h.p1.ships| < NUM_SHIPS
  {
  }

  lemma CommitsWith(h: HostState, e: Event, r: HostState, d: Words)
    requires Inv(h) && Enabled(h, e) && h.tag == PlaceP1 && r == Apply(h, e) && PlacingWith(h, e) == Some(d)
    requires h.data.w1 == |h.p1.ships| < NUM_SHIPS
    ensures d.w1 == h.data.w1 && PlacedByP1(h, r, d)
  {
    hide Inv, PlacedByP1, HandleKey, HandleMouse, CursorSafe;
    InputSafe(h);
    match e
    case KeyEvent(code, make) => EnterPlaces(h);
    case MouseMove(m) => ClickPlaces(h, m);
  }

  lemma MoreIsDifferent(h: HostState, r: HostState, d: Words)
    requires 0 <= d.w1 < NUM_SHIPS && PlacedByP1(h, r, d)
    ensures r.p1 != h.p1 <==> RoomFor(h.p1, d)
    ensures RoomFor(h.p1, d) ==> OneShipMore(h.p1, r.p1, d)
  {
    hide RoomFor;
  }
}
