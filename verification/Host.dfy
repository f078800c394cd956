/** The host's game state machine (controller/game.h, controller/game.c) as functions on its state. */
module Host {
  import opened Boards
  import opened Protocol
  import opened Explosion
  import H = Hunt

  const TICKS_PER_SEC := 30
  const COUNTDOWN_START: byte := 5
  const POST_ATTACK_WAIT_TICKS := 60

  datatype Tag =
    | MainMenu | Instructions | WaitingConnect | PlaceP1 | HandoverP2 | PlaceP2 | HandoverP1
    | PlaceWaiting | Counting | TurnP1 | TurnP2 | Paused | GameOver | Exit

  /** The value of the enumeration constant, as it is sent. */
  function TagByte(t: Tag): byte {
    match t
    case MainMenu => 0
    case Instructions => 1
    case WaitingConnect => 2
    case PlaceP1 => 3
    case HandoverP2 => 4
    case PlaceP2 => 5
    case HandoverP1 => 6
    case PlaceWaiting => 7
    case Counting => 8
    case TurnP1 => 9
    case TurnP2 => 10
    case Paused => 11
    case GameOver => 12
    case Exit => 13
  }

  /** The union `g.data` as the five words it overlays: w0 is `selected`, `player` and `winner`; in the
      place states w1 to w4 are ship index, orientation, cursor column and row; in the turn states w1
      and w2 are cursor column and row. */
  datatype Words = Words(w0: int, w1: int, w2: int, w3: int, w4: int)

  datatype HostState = HostState(
    tag: Tag, prev: Tag, over: bool,
    connected: bool, remoteReady: bool, single: bool,
    p1: BoardState, p2: BoardState,
    botTimer: byte, cdTicks: nat, cdSeconds: byte,
    data: Words, remote: Cell,
    postWait: bool, postTicks: byte, cursorTick: byte,
    expl: ExplState, bot: H.BotState,
    sent: seq<Msg>)  // everything handed to the UART so far

  // ---------------------------------------------------------------------------------------------
  // Shared helpers
  // ---------------------------------------------------------------------------------------------

  function AsByte(x: int): byte {
    x % 256
  }

  /** `transition`. */
  function Transition(h: HostState, next: Tag): HostState {
    h.(prev := h.tag, tag := next)
  }

  /** The sends that are guarded by `!g.is_single_player`. */
  function IfMulti(single: bool, ms: seq<Msg>): seq<Msg> {
    if single then [] else ms
  }

  /** The result code that the host reads off the board. */
  function ResultOf(b: BoardState, c: Cell): byte
    requires c in b.grid
  {
    if b.grid[c] == Miss then ATTACK_MISS else if b.grid[c] == Sunk then ATTACK_SUNK else ATTACK_HIT
  }

  predicate InTurn(h: HostState) {
    h.tag == TurnP1 || h.tag == TurnP2
  }

  /** The board that is under attack in a turn. */
  function EnemyBoard(h: HostState): BoardState {
    if h.tag == TurnP1 then h.p2 else h.p1
  }

  // ---------------------------------------------------------------------------------------------
  // The timer
  // ---------------------------------------------------------------------------------------------

  /** Neither board, nor the bot, nor the mode, nor the link is touched. */
  predicate SameArena(h: HostState, r: HostState) {
    r.p1 == h.p1 && r.p2 == h.p2 && r.bot == h.bot && r.single == h.single && r.over == h.over && r.connected == h.connected
  }

  function TickCountdown(h: HostState): (r: HostState)
    ensures SameArena(h, r) && r.expl == h.expl
  {
    if h.tag != Counting then h
    else if h.cdTicks + 1 < TICKS_PER_SEC then h.(cdTicks := h.cdTicks + 1)
    else
      var s := AsByte(h.cdSeconds - 1);
      if s == 0 then
        h.(cdTicks := 0, cdSeconds := s, data := h.data.(w0 := 1, w1 := 0, w2 := 0), tag := TurnP1, prev := h.tag,
           sent := h.sent + IfMulti(h.single, [State(TagByte(TurnP1))]))
      else h.(cdTicks := 0, cdSeconds := s, sent := h.sent + IfMulti(h.single, [Countdown(s)]))
  }

  predicate CanResolve(h: HostState) {
    InTurn(h) && !h.postWait && h.expl.finished
  }

  /** The report of the shot that was shown. */
  function Report(h: HostState): Msg
    requires h.expl.at in EnemyBoard(h).grid
  {
    AttackMsg(AsByte(h.expl.at.col), AsByte(h.expl.at.row), ResultOf(EnemyBoard(h), h.expl.at))
  }

  /** Reads the result of a finished explosion: game over, or the turn ends on a miss. */
  function TickResolve(h: HostState): (r: HostState)
    requires CanResolve(h) ==> h.expl.at in EnemyBoard(h).grid
    ensures SameArena(h, r) && r.expl == h.expl.(finished := r.expl.finished)
  {
    if !CanResolve(h) then h
    else
      var read := h.expl.(finished := false);
      if AllSunk(EnemyBoard(h)) then
        var winner: byte := if h.tag == TurnP1 then 1 else 2;
        h.(expl := read, data := h.data.(w0 := winner), tag := GameOver, prev := h.tag,
           sent := h.sent + IfMulti(h.single, [Report(h), Winner(winner), State(TagByte(GameOver))]))
      else if Report(h).result == ATTACK_MISS then
        h.(expl := read, postWait := true, postTicks := 0, sent := h.sent + IfMulti(h.single, [Report(h)]))
      else h.(expl := read, sent := h.sent + IfMulti(h.single, [Report(h)]))
  }

  function TickPostAttack(h: HostState): (r: HostState)
    ensures SameArena(h, r) && r.expl == h.expl
  {
    if !h.postWait then h
    else if AsByte(h.postTicks + 1) < POST_ATTACK_WAIT_TICKS then h.(postTicks := AsByte(h.postTicks + 1))
    else
      var next := if h.tag == TurnP1 then HandoverP2 else HandoverP1;
      h.(postWait := false, postTicks := 0, cdTicks := 0, data := h.data.(w0 := if h.tag == TurnP1 then 2 else 1),
         tag := next, prev := h.tag, sent := h.sent + IfMulti(h.single, [State(TagByte(next))]))
  }

  function TickHandover(h: HostState): (r: HostState)
    ensures SameArena(h, r) && r.expl == h.expl
  {
    if h.tag != HandoverP1 && h.tag != HandoverP2 then h
    else if h.cdTicks + 1 < TICKS_PER_SEC then h.(cdTicks := h.cdTicks + 1)
    else
      var next := if h.tag == HandoverP1 then TurnP1 else TurnP2;
      h.(cdTicks := 0, data := h.data.(w1 := 0, w2 := 0), tag := next, prev := h.tag,
         sent := h.sent + IfMulti(h.single, [State(TagByte(next))]))
  }

  function TickCursor(h: HostState): (r: HostState)
    ensures SameArena(h, r) && r.expl == h.expl
  {
    if h.cursorTick + 1 < 2 then h.(cursorTick := h.cursorTick + 1)
    else
      h.(cursorTick := 0,
         sent := h.sent + if h.tag == TurnP1 then IfMulti(h.single, [Cursor(AsByte(h.data.w1), AsByte(h.data.w2))]) else [])
  }

  predicate BotReady(h: HostState) {
    h.single && h.tag == TurnP2 && !IsExploding(h.expl) && !h.postWait
  }

  predicate BotFires(h: HostState) {
    BotReady(h) && AsByte(h.botTimer + 1) >= TICKS_PER_SEC
  }

  predicate BotPlaces(h: HostState) {
    h.single && h.tag == PlaceP2 && AsByte(h.botTimer + 1) >= TICKS_PER_SEC * 2
  }

  /** The bot's shot; `pick` is the cell that a random draw would end with. */
  function BotShot(h: HostState, pick: Cell): HostState
    requires forall x :: x in h.p1.grid ==> InGrid(x)
    requires H.Choose(h.bot, h.p1.grid, pick).curr in h.p1.grid
  {
    var fired := H.Choose(h.bot, h.p1.grid, pick);
    var p1 := Attack(h.p1, fired.curr);
    var hit, sunk := H.ReadsHit(p1, fired.curr), H.ReadsSunk(p1, fired.curr);
    h.(p1 := p1, bot := H.Register(fired, hit, sunk), expl := StartExplosion(h.expl, fired.curr, hit), botTimer := 0)
  }

  /** The bot's part of the tick; `fleet` is where its random draws would place its ships. */
  ghost function TickBot(h: HostState, pick: Cell, fleet: seq<Placement>): HostState
    requires BotFires(h) ==> (forall x :: x in h.p1.grid ==> InGrid(x)) &&
                             H.Choose(h.bot, h.p1.grid, pick).curr in h.p1.grid
  {
    if BotPlaces(h) then
      h.(botTimer := AsByte(h.botTimer + 1), p2 := BoardOf(fleet, {}), cdSeconds := COUNTDOWN_START, cdTicks := 0,
         tag := Counting, prev := h.tag)
    else if BotFires(h) then BotShot(h, pick)
    else if BotReady(h) || (h.single && h.tag == PlaceP2) then h.(botTimer := AsByte(h.botTimer + 1))
    else h
  }

  // ---------------------------------------------------------------------------------------------
  // Keyboard and mouse
  // ---------------------------------------------------------------------------------------------

  datatype KeyCode = KeyUp | KeyDown | KeyLeft | KeyRight | KeyR | KeyEnter | KeySpace | KeyEsc | OtherKey

  function Decrease(x: int): int {
    if x > 0 then x - 1 else 0
  }

  function Increase(x: int, max: int): int {
    if x < max then x + 1 else max
  }

  /** `orient ^= 1`. */
  function Flip(x: int): int {
    if x % 2 == 0 then x + 1 else x - 1
  }

  function OrientOf(x: int): Orientation {
    if x == 0 then Horizontal else Vertical
  }

  /** A new game: boards, explosion and bot reset, placement cursor home. */
  ghost function NewGame(h: HostState, single: bool): HostState {
    h.(p1 := InitialBoard(), p2 := InitialBoard(), expl := ResetExplosion(), bot := H.ResetBot(),
       single := single, data := Words(1, 0, 0, 0, 0),
       connected := h.connected && single, remoteReady := h.remoteReady && single,
       tag := if single then PlaceP1 else WaitingConnect, prev := h.tag)
  }

  /** A choice in the main menu. */
  ghost function MenuChoice(h: HostState, item: int): (r: HostState)
    ensures r.tag == h.tag || (r.tag == PlaceP1 && r.single) || (r.tag == WaitingConnect && !r.single) || r.tag == Instructions
  {
    if item == 0 then NewGame(h, true)
    else if item == 1 then NewGame(h, false)
    else if item == 2 then Transition(h, Instructions)
    else if item == 3 then h.(over := true)
    else h
  }

  /** The placement that Enter or a click commits. */
  function Wanted(d: Words): Placement
    requires 0 <= d.w1 < NUM_SHIPS
  {
    Placement(d.w3, d.w4, SHIP_SIZES[d.w1], d.w1, OrientOf(d.w2))
  }

  /** Enter or a click while player 1 places ships. */
  ghost function CommitShip(h: HostState): (r: HostState)
    requires h.tag == PlaceP1 && 0 <= h.data.w1 < NUM_SHIPS && FullGrid(h.p1.grid)
    ensures r.tag == h.tag || r.tag == if h.single then PlaceP2 else PlaceWaiting
  {
    var d := h.data;
    if !CanPlace(h.p1, Wanted(d)) then h
    else
      var p1 := PlaceShip(h.p1, Wanted(d));
      if |p1.ships| < NUM_SHIPS then h.(p1 := p1, data := d.(w1 := d.w1 + 1, w3 := 0, w4 := 0))
      else if h.single then
        h.(p1 := p1, data := Words(d.w0, 0, 0, 0, 0), botTimer := 0, tag := PlaceP2, prev := h.tag)
      else
        h.(p1 := p1, data := Words(d.w0, 0, 0, 0, 0), tag := PlaceWaiting, prev := h.tag,
           sent := h.sent + [State(TagByte(PlaceP2))])
  }

  /** Enter while the bot is to place its ships: the keyboard code has no role guard here, and places a ship
      of player 1's choice on the bot's board. */
  ghost function CommitForBot(h: HostState): (r: HostState)
    requires h.tag == PlaceP2 && 0 <= h.data.w1 < NUM_SHIPS && FullGrid(h.p2.grid)
    ensures !CanPlace(h.p2, Wanted(h.data)) ==> r == h
    ensures r.tag == h.tag || r.tag == PlaceWaiting
  {
    var d := h.data;
    if !CanPlace(h.p2, Wanted(d)) then h
    else
      var p2 := PlaceShip(h.p2, Wanted(d));
      if |p2.ships| < NUM_SHIPS then h.(p2 := p2, data := d.(w1 := d.w1 + 1, w3 := 0, w4 := 0))
      else h.(p2 := p2, tag := PlaceWaiting, prev := h.tag, sent := h.sent + [DonePlacing])
  }

  /** Enter, Space or a click in player 1's turn. */
  function FireAt(h: HostState, c: Cell): (r: HostState)
    requires c in h.p2.grid
    ensures r.tag == h.tag
  {
    if Attacked(h.p2.grid[c]) then h
    else
      var p2 := Attack(h.p2, c);
      h.(p2 := p2, expl := StartExplosion(h.expl, c, H.ReadsHit(p2, c)))
  }

  /** Input is ignored while a shot is shown. */
  predicate InputBlocked(h: HostState) {
    IsExploding(h.expl) || h.postWait
  }

  function MovePlaceCursor(d: Words, code: KeyCode): Words {
    match code
    case KeyUp => d.(w4 := Decrease(d.w4))
    case KeyDown => d.(w4 := Increase(d.w4, ROWS - 1))
    case KeyLeft => d.(w3 := Decrease(d.w3))
    case KeyRight => d.(w3 := Increase(d.w3, COLS - 1))
    case KeyR => d.(w2 := Flip(d.w2))
    case _ => d
  }

  function MoveTurnCursor(d: Words, code: KeyCode): Words {
    match code
    case KeyUp => d.(w2 := Decrease(d.w2))
    case KeyDown => d.(w2 := Increase(d.w2, ROWS - 1))
    case KeyLeft => d.(w1 := Decrease(d.w1))
    case KeyRight => d.(w1 := Increase(d.w1, COLS - 1))
    case _ => d
  }

  /** What the words of the union must satisfy for the keyboard and mouse code to stay within its arrays. */
  ghost predicate CursorSafe(h: HostState) {
    && (h.tag == PlaceP1 ==> 0 <= h.data.w1 < NUM_SHIPS && FullGrid(h.p1.grid))
    && (h.tag == PlaceP2 ==> 0 <= h.data.w1 < NUM_SHIPS && FullGrid(h.p2.grid))
    && (h.tag == TurnP1 ==> InGrid(Cell(h.data.w1, h.data.w2)) && FullGrid(h.p2.grid))
  }

  /** `game_handle_keyboard` on the host. */
  ghost function HandleKey(h: HostState, code: KeyCode, make: bool): HostState
    requires CursorSafe(h)
  {
    match h.tag
    case MainMenu =>
      if make && code == KeyUp then h.(data := h.data.(w0 := (h.data.w0 + 3) % 4))
      else if make && code == KeyDown then h.(data := h.data.(w0 := (h.data.w0 + 1) % 4))
      else if !make && code == KeyEsc then h.(over := true)
      else if make && code == KeyEnter then MenuChoice(h, h.data.w0)
      else h
    case Instructions =>
      if (make && code == KeyEnter) || (!make && code == KeyEsc) then Transition(h, MainMenu) else h
    case PlaceP1 =>
      if make && code == KeyEnter then CommitShip(h)
      else if make then h.(data := MovePlaceCursor(h.data, code))
      else if code == KeyEsc then Transition(h, Paused)
      else h
    case PlaceP2 =>
      if make && code == KeyEnter then CommitForBot(h)
      else if make then h.(data := MovePlaceCursor(h.data, code))
      else if code == KeyEsc then Transition(h, Paused)
      else h
    case TurnP1 =>
      if InputBlocked(h) then h
      else if make && (code == KeyEnter || code == KeySpace) then FireAt(h, Cell(h.data.w1, h.data.w2))
      else if make then h.(data := MoveTurnCursor(h.data, code))
      else if code == KeyEsc then Transition(h, Paused)
      else h
    case Paused =>
      if make && (code == KeyUp || code == KeyDown) then h.(data := h.data.(w0 := (h.data.w0 + 1) % 2))
      else if make && code == KeyEnter then
        if h.data.w0 == 0 then Transition(h, h.prev) else if h.data.w0 == 1 then h.(over := true) else h
      else if !make && code == KeyEsc then Transition(h, h.prev)
      else h
    case GameOver =>
      if make && code == KeyEnter then
        h.(p1 := InitialBoard(), p2 := InitialBoard(), expl := ResetExplosion(), data := h.data.(w0 := 0),
           tag := MainMenu, prev := h.tag, sent := h.sent + [State(TagByte(MainMenu))])
      else if !make && code == KeyEsc then h.(over := true)
      else h
    case _ => h
  }

  /** A mouse packet: edge flags, the grid cell and the menu item under the mouse. */
  datatype MouseEvent = MouseEvent(moved: bool, clicked: bool, over: Option<Cell>, item: Option<int>)

  /** `game_handle_mouse` on the host. */
  ghost function HandleMouse(h: HostState, m: MouseEvent): HostState
    requires CursorSafe(h) && (m.over.Some? ==> InGrid(m.over.value))
  {
    match h.tag
    case MainMenu =>
      var h' := if m.moved && m.item.Some? then h.(data := h.data.(w0 := m.item.value)) else h;
      if m.clicked && m.item.Some? then MenuChoice(h', m.item.value) else h'
    case Instructions =>
      if m.clicked then Transition(h, MainMenu) else h
    case PlaceP1 =>
      var h' := if m.moved && m.over.Some? then h.(data := h.data.(w3 := m.over.value.col, w4 := m.over.value.row)) else h;
      if m.clicked then CommitShip(h') else h'
    case TurnP1 =>
      if InputBlocked(h) then h
      else
        var h' := if m.moved && m.over.Some? then h.(data := h.data.(w1 := m.over.value.col, w2 := m.over.value.row)) else h;
        if m.clicked then FireAt(h', Cell(h'.data.w1, h'.data.w2)) else h'
    case Paused =>
      var h' := if m.moved && m.item.Some? then h.(data := h.data.(w0 := m.item.value)) else h;
      if m.clicked && m.item == Some(0) then Transition(h', h.prev)
      else if m.clicked && m.item == Some(1) then h'.(over := true)
      else h'
    case _ => h
  }

  // ---------------------------------------------------------------------------------------------
  // Messages from the client
  // ---------------------------------------------------------------------------------------------

  /** `proto_send_ship_place`: type index and orientation share a byte. */
  function ShipMsg(p: Placement): Msg {
    ShipPlace(AsByte(p.col), AsByte(p.row), AsByte(p.size),
              AsByte(p.typeIdx * 2 + if p.orient == Horizontal then 0 else 1))
  }

  /** The receiving side's reading of that message. */
  function ShipOf(m: Msg): Placement
    requires m.ShipPlace?
  {
    Placement(m.col, m.row, m.size, m.typeOrient / 2 % 8, OrientOf(m.typeOrient % 2))
  }

  function FleetMsgs(ships: seq<ShipRec>): seq<Msg> {
    seq(|ships|, i requires 0 <= i < |ships| => ShipMsg(ships[i].at))
  }

  /** `game_handle_serial_msg` on the host. A forwarded key has no effect: the host's keyboard code does
      nothing in `TurnP2`. */
  function HandleMsg(h: HostState, m: Msg): HostState
    requires m.AttackMsg? && h.tag == TurnP2 ==> Cell(m.col, m.row) in h.p1.grid
  {
    match m
    case Hello =>
      if h.connected then h
      else if h.tag == WaitingConnect then
        h.(connected := true, tag := PlaceP1, prev := h.tag, sent := h.sent + [HelloAck, State(TagByte(PlaceP1))])
      else h.(connected := true, remoteReady := true, sent := h.sent + [HelloAck])
    case DonePlacing =>
      if h.tag != PlaceWaiting then h
      else
        h.(cdSeconds := COUNTDOWN_START, cdTicks := 0, tag := Counting, prev := h.tag,
           sent := h.sent + FleetMsgs(h.p1.ships) + [State(TagByte(Counting)), Countdown(COUNTDOWN_START)])
    case ShipPlace(_, _, _, _) => h.(p2 := PlaceShip(h.p2, ShipOf(m)))
    case AttackMsg(c, r, _) =>
      if h.tag != TurnP2 || Attacked(h.p1.grid[Cell(c, r)]) then h
      else
        var p1 := Attack(h.p1, Cell(c, r));
        h.(p1 := p1, expl := StartExplosion(h.expl, Cell(c, r), H.ReadsHit(p1, Cell(c, r))))
    case Cursor(c, r) => h.(remote := Cell(SignedByte(c), SignedByte(r)))
    case ClientQuit => h.(over := true)
    case _ => h
  }

  function SignedByte(b: byte): int {
    if b < 128 then b else b - 256
  }
}
