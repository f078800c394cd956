/** The client's half of controller/game.c as functions on its state: it plays no rules, it sends its
    player's input and shows what the host reports. */
module Client {
  import opened Boards
  import opened Protocol
  import opened Explosion
  import opened Host
  import opened Replica

  /** The variables that the client's code uses. */
  datatype ClientState = ClientState(
    tag: Tag, prev: Tag, over: bool, connected: bool,
    p1: BoardState, p2: BoardState, cdSeconds: byte,
    data: Words, remote: Cell, cursorTick: byte, expl: ExplState,
    sent: seq<Msg>)

  /** The enumeration constant that was sent; the host sends no other byte. */
  function TagOf(b: byte): (t: Tag)
    ensures forall u :: TagByte(u) == b ==> t == u
  {
    match b
    case 0 => MainMenu
    case 1 => Instructions
    case 2 => WaitingConnect
    case 3 => PlaceP1
    case 4 => HandoverP2
    case 5 => PlaceP2
    case 6 => HandoverP1
    case 7 => PlaceWaiting
    case 8 => Counting
    case 9 => TurnP1
    case 10 => TurnP2
    case 11 => Paused
    case 12 => GameOver
    case _ => Exit
  }

  function Enter(c: ClientState, next: Tag): ClientState {
    c.(prev := c.tag, tag := next)
  }

  function Send(c: ClientState, m: Msg): ClientState {
    c.(sent := c.sent + [m])
  }

  // ---------------------------------------------------------------------------------------------
  // Messages from the host
  // ---------------------------------------------------------------------------------------------

  /** A new state is announced. */
  ghost function HearState(c: ClientState, next: Tag): ClientState {
    if next == MainMenu && c.tag == WaitingConnect then c
    else if next == Exit then c.(over := true)
    else
      var c' := if next == MainMenu && c.tag == GameOver
                then c.(p1 := InitialBoard(), p2 := InitialBoard(), expl := ResetExplosion()) else c;
      c'.(prev := c.tag, tag := next,
          data := if next == TurnP1 || next == TurnP2 then c.data.(w1 := 0, w2 := 0)
                  else if next == PlaceP2 then Words(c.data.w0, 0, 0, 0, 0) else c.data,
          remote := if next == TurnP1 || next == TurnP2 then Cell(-1, -1) else c.remote)
  }

  /** Reports of player 1's shots are about player 2's board, all others about player 1's. */
  function Target(c: ClientState): BoardState {
    if c.tag == TurnP1 then c.p2 else c.p1
  }

  function HearAttack(c: ClientState, x: Cell, result: byte): ClientState
    requires x in Target(c).grid
  {
    var b := Reported(Target(c), x, result);
    if c.tag == TurnP1
    then c.(p2 := b, expl := StartExplosion(c.expl, x, result == ATTACK_HIT || result == ATTACK_SUNK))
    else c.(p1 := b)
  }

  /** Placements fill player 1's board first. */
  function HearShip(c: ClientState, p: Placement): ClientState {
    if |c.p1.ships| < NUM_SHIPS then c.(p1 := PlaceShip(c.p1, p)) else c.(p2 := PlaceShip(c.p2, p))
  }

  /** `game_handle_serial_msg` on the client. */
  ghost function Hear(c: ClientState, m: Msg): ClientState
    requires m.AttackMsg? ==> Cell(m.col, m.row) in Target(c).grid
  {
    match m
    case HelloAck => c.(connected := true)
    case State(s) => HearState(c, TagOf(s))
    case ShipPlace(_, _, _, _) => HearShip(c, ShipOf(m))
    case AttackMsg(col, row, result) => HearAttack(c, Cell(col, row), result)
    case Cursor(col, row) => c.(remote := Cell(SignedByte(col), SignedByte(row)))
    case Countdown(s) => c.(cdSeconds := s)
    case Winner(w) => c.(data := c.data.(w0 := w))
    case _ => c
  }

  // ---------------------------------------------------------------------------------------------
  // The client's own player
  // ---------------------------------------------------------------------------------------------

  /** What happens on the client besides messages. `beat` says whether the timer's count is a multiple
      of 30; `raw` is the scan code, and `packet` the mouse bytes, as they would be forwarded. */
  datatype Input =
    | Elapse(beat: bool)
    | KeyInput(code: KeyCode, make: bool, raw: byte)
    | MouseInput(m: MouseEvent, packet: Msg)

  /** States in which the client handles its player's input itself. */
  predicate Owns(t: Tag) {
    t == PlaceP2 || t == TurnP2 || t == Paused || t == MainMenu || t == Instructions || t == GameOver || t == WaitingConnect
  }

  /** `game_handle_timer` on the client, `update_animations`, and the greeting of `handle_timer`. */
  function ClientTick(c: ClientState, beat: bool): ClientState {
    var full := c.cursorTick + 1 >= 2;
    c.(cursorTick := if full then 0 else c.cursorTick + 1,
       expl := Animate(c.expl),
       sent := c.sent
               + (if full && c.tag == TurnP2 then [Cursor(AsByte(c.data.w1), AsByte(c.data.w2))] else [])
               + if beat && c.tag == WaitingConnect then [Hello] else [])
  }

  /** Enter or a click while the client's player places ships. */
  ghost function ClientCommit(c: ClientState): ClientState
    requires 0 <= c.data.w1 < NUM_SHIPS && FullGrid(c.p2.grid)
  {
    var p := Wanted(c.data);
    if !CanPlace(c.p2, p) then c
    else
      var p2 := PlaceShip(c.p2, p);
      if |p2.ships| < NUM_SHIPS
      then c.(p2 := p2, data := c.data.(w1 := c.data.w1 + 1, w3 := 0, w4 := 0), sent := c.sent + [ShipMsg(p)])
      else c.(p2 := p2, tag := PlaceWaiting, prev := c.tag, sent := c.sent + [ShipMsg(p), DonePlacing])
  }

  /** Enter, Space or a click in the client's turn: the shot is only announced. */
  function ClientFire(c: ClientState, x: Cell): ClientState
    requires x in c.p1.grid
  {
    if Attacked(c.p1.grid[x]) then c
    else c.(expl := StartExplosion(c.expl, x, false), sent := c.sent + [AttackMsg(AsByte(x.col), AsByte(x.row), 0)])
  }

  function Quit(c: ClientState): ClientState {
    c.(over := true, sent := c.sent + [ClientQuit])
  }

  ghost function ClientMenu(c: ClientState, item: int): ClientState {
    if item == 1 then
      c.(p1 := InitialBoard(), p2 := InitialBoard(), expl := ResetExplosion(), data := Words(1, 0, 0, 0, 0),
         connected := false, tag := WaitingConnect, prev := c.tag)
    else if item == 2 then Enter(c, Instructions)
    else if item == 3 then Quit(c)
    else c
  }

  ghost predicate ClientSafe(c: ClientState) {
    && (c.tag == PlaceP2 ==> 0 <= c.data.w1 < NUM_SHIPS && FullGrid(c.p2.grid))
    && (c.tag == TurnP2 ==> InGrid(Cell(c.data.w1, c.data.w2)) && FullGrid(c.p1.grid))
  }

  /** `game_handle_keyboard` on the client. */
  ghost function ClientKey(c: ClientState, code: KeyCode, make: bool, raw: byte): ClientState
    requires ClientSafe(c)
  {
    if !Owns(c.tag) then if c.connected then Send(c, Key(raw)) else c
    else
      match c.tag
      case Paused =>
        if make && (code == KeyUp || code == KeyDown) then c.(data := c.data.(w0 := (c.data.w0 + 1) % 2))
        else if make && code == KeyEnter then if c.data.w0 == 0 then Enter(c, c.prev) else Quit(c)
        else if !make && code == KeyEsc then Enter(c, c.prev)
        else c
      case MainMenu =>
        if make && code == KeyUp then c.(data := c.data.(w0 := (c.data.w0 + 3) % 4))
        else if make && code == KeyDown then c.(data := c.data.(w0 := (c.data.w0 + 1) % 4))
        else if !make && code == KeyEsc then Quit(c)
        else if make && code == KeyEnter then ClientMenu(c, c.data.w0)
        else c
      case Instructions =>
        if (make && code == KeyEnter) || (!make && code == KeyEsc) then Enter(c, MainMenu) else c
      case PlaceP2 =>
        if make && code == KeyEnter then ClientCommit(c)
        else if make then c.(data := MovePlaceCursor(c.data, code))
        else if code == KeyEsc then Enter(c, Paused)
        else c
      case TurnP2 =>
        if IsExploding(c.expl) then c
        else if make && (code == KeyEnter || code == KeySpace) then ClientFire(c, Cell(c.data.w1, c.data.w2))
        else if make then c.(data := MoveTurnCursor(c.data, code))
        else if code == KeyEsc then Enter(c, Paused)
        else c
      case GameOver =>
        if make && code == KeyEnter then
          c.(p1 := InitialBoard(), p2 := InitialBoard(), expl := ResetExplosion(), data := c.data.(w0 := 0),
             tag := MainMenu, prev := c.tag, sent := c.sent + [State(TagByte(MainMenu))])
        else if !make && code == KeyEsc then c.(over := true)
        else c
      case _ => c
  }

  /** `game_handle_mouse` on the client. */
  ghost function ClientMouse(c: ClientState, m: MouseEvent, packet: Msg): ClientState
    requires ClientSafe(c) && (m.over.Some? ==> InGrid(m.over.value))
  {
    if !Owns(c.tag) then if c.connected && (m.moved || m.clicked) then Send(c, packet) else c
    else
      match c.tag
      case Paused =>
        var c' := if m.moved && m.item.Some? then c.(data := c.data.(w0 := m.item.value)) else c;
        if m.clicked && m.item.Some? then if m.item.value == 0 then Enter(c', c.prev) else Quit(c') else c'
      case MainMenu =>
        var c' := if m.moved && m.item.Some? then c.(data := c.data.(w0 := m.item.value)) else c;
        if m.clicked && m.item.Some? then ClientMenu(c', m.item.value) else c'
      case Instructions => if m.clicked then Enter(c, MainMenu) else c
      case PlaceP2 =>
        var c' := if m.moved && m.over.Some? then c.(data := c.data.(w3 := m.over.value.col, w4 := m.over.value.row)) else c;
        if m.clicked then ClientCommit(c') else c'
      case TurnP2 =>
        if IsExploding(c.expl) then c
        else
          var c' := if m.moved && m.over.Some? then c.(data := c.data.(w1 := m.over.value.col, w2 := m.over.value.row)) else c;
          if m.clicked then ClientFire(c', Cell(c'.data.w1, c'.data.w2)) else c'
      case _ => c
  }

  predicate InputOk(i: Input) {
    i.MouseInput? ==> (i.m.over.Some? ==> InGrid(i.m.over.value)) && i.packet.Mouse?
  }

  ghost function Act(c: ClientState, i: Input): ClientState
    requires ClientSafe(c) && InputOk(i)
  {
    match i
    case Elapse(beat) => ClientTick(c, beat)
    case KeyInput(code, make, raw) => ClientKey(c, code, make, raw)
    case MouseInput(m, packet) => ClientMouse(c, m, packet)
  }
}
