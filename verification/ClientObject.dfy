/** The client as it runs: the same record of variables, updated by its own player's input and by the
    host's messages. Each handler computes the step function of module `Client`. */
module ClientObject {
  import opened Boards
  import opened BoardObject
  import opened Protocol
  import opened Explosion
  import opened Host
  import opened Replica
  import opened Client

  method MarkCell(b: Board, c: Cell, s: CellState)
    requires b.Valid() && InGrid(c)
    modifies b.grid
    ensures b.Valid() && b.View() == old(b.View()).(grid := old(b.View()).grid[c := s])
  {
    ghost var before := b.View();
    b.grid[c.row, c.col] := s;
    assert b.Cells() == before.grid[c := s];
  }

  /** The client's side of `MSG_ATTACK` on the board that the report is about. */
  method ApplyReport(b: Board, c: Cell, result: byte)
    requires b.Valid() && InGrid(c)
    modifies b, b.grid, b.ships
    ensures b.Valid() && b.View() == Reported(old(b.View()), c, result)
  {
    hide Board.Cells, SinkShip;
    if result == ATTACK_MISS {
      MarkCell(b, c, Miss);
    } else if result == ATTACK_HIT {
      MarkCell(b, c, Hit);
    } else if result == ATTACK_SUNK {
      MarkCell(b, c, Sunk);
      b.shipsSunk := b.shipsSunk + 1;
      MarkSunk(b, c);
    }
  }

  /** The loop that finds the ship and marks all of it. */
  method MarkSunk(b: Board, c: Cell)
    requires b.Valid()
    modifies b.grid, b.ships
    ensures b.Valid()
    ensures b.View() == match FindAfloat(old(b.View()).ships, c, 0)
                        case None => old(b.View())
                        case Some(i) => SinkShip(old(b.View()), i)
  {
    ghost var before := b.View();
    var i := 0;
    while i < b.shipsPlaced
      invariant i <= b.shipsPlaced && b.Valid() && b.View() == before
      invariant FindAfloat(before.ships, c, 0) == FindAfloat(before.ships, c, i)
    {
      var s := b.ships[i];
      if !s.sunk && Contains(s.at, c) {
        b.ships[i] := ShipRec(s.at, s.at.size, true);
        assert b.ships[..b.shipsPlaced] == before.ships[i := b.ships[i]];
        b.PaintShip(s.at, Sunk);
        return;
      }
      i := i + 1;
    }
  }

  /** What the client's code does in a pause, by keyboard and by mouse. */
  lemma PausedKeyIs(c: ClientState, code: KeyCode, make: bool, raw: byte)
    requires c.tag == Paused
    ensures ClientSafe(c)
    ensures ClientKey(c, code, make, raw) ==
            if make && (code == KeyUp || code == KeyDown) then c.(data := c.data.(w0 := (c.data.w0 + 1) % 2))
            else if make && code == KeyEnter then if c.data.w0 == 0 then Enter(c, c.prev) else Quit(c)
            else if !make && code == KeyEsc then Enter(c, c.prev) else c
  {
  }

  lemma PausedMouseIs(c: ClientState, m: MouseEvent, packet: Msg)
    requires c.tag == Paused && (m.over.Some? ==> InGrid(m.over.value))
    ensures ClientSafe(c)
    ensures var c' := if m.moved && m.item.Some? then c.(data := c.data.(w0 := m.item.value)) else c;
            ClientMouse(c, m, packet) ==
            if m.clicked && m.item.Some? then if m.item.value == 0 then Enter(c', c.prev) else Quit(c') else c'
  {
  }

  /** The client's cursors follow the mouse. */
  function MouseInTurnWords(d: Words, m: MouseEvent): Words {
    if m.moved && m.over.Some? then d.(w1 := m.over.value.col, w2 := m.over.value.row) else d
  }

  function MouseInPlaceWords(d: Words, m: MouseEvent): Words {
    if m.moved && m.over.Some? then d.(w3 := m.over.value.col, w4 := m.over.value.row) else d
  }

  lemma TurnMouseIs(c: ClientState, m: MouseEvent, packet: Msg)
    requires c.tag == TurnP2 && ClientSafe(c) && (m.over.Some? ==> InGrid(m.over.value))
    ensures var c' := c.(data := MouseInTurnWords(c.data, m));
            && Cell(c'.data.w1, c'.data.w2) in c'.p1.grid && InGrid(Cell(c'.data.w1, c'.data.w2))
            && ClientMouse(c, m, packet) ==
               if IsExploding(c.expl) then c else if m.clicked then ClientFire(c', Cell(c'.data.w1, c'.data.w2)) else c'
  {
    hide ClientFire, IsExploding;
  }

  lemma PlaceMouseIs(c: ClientState, m: MouseEvent, packet: Msg)
    requires c.tag == PlaceP2 && ClientSafe(c) && (m.over.Some? ==> InGrid(m.over.value))
    ensures var c' := c.(data := MouseInPlaceWords(c.data, m));
            ClientMouse(c, m, packet) == if m.clicked then ClientCommit(c') else c'
  {
    hide ClientCommit;
  }

  class Terminal {
    var tag: Tag
    var prev: Tag
    var over: bool
    var connected: bool
    const p1: Board
    const p2: Board
    var cdSeconds: byte
    var data: Words
    var remote: Cell
    var cursorTick: byte
    const expl: Renderer
    var sent: seq<Msg>

    ghost predicate Valid()
      reads this, p1, p2, p1.ships, p2.ships
    {
      && p1 != p2 && p1.grid != p2.grid && p1.ships != p2.ships
      && p1.Valid() && p2.Valid()
    }

    ghost function View(): ClientState
      requires Valid()
      reads this, p1, p2, p1.grid, p2.grid, p1.ships, p2.ships, expl
    {
      ClientState(tag, prev, over, connected, p1.View(), p2.View(), cdSeconds, data, remote, cursorTick, expl.View(), sent)
    }

    constructor ()
      ensures Valid() && View().p1 == View().p2 == InitialBoard() && View().expl == ResetExplosion()
      ensures tag == MainMenu && !connected && !over && sent == []
      ensures fresh(p1) && fresh(p1.grid) && fresh(p1.ships) && fresh(p2) && fresh(p2.grid) && fresh(p2.ships) && fresh(expl)
    {
      tag, prev, over, connected := MainMenu, MainMenu, false, false;
      cdSeconds, data, remote, cursorTick := 0, Words(0, 0, 0, 0, 0), Cell(-1, -1), 0;
      sent := [];
      p1 := new Board();
      p2 := new Board();
      expl := new Renderer();
    }

    /** `transition`. */
    method Go(next: Tag)
      modifies this`prev, this`tag
      ensures prev == old(tag) && tag == next
    {
      prev := tag;
      tag := next;
    }

    /** Both boards and the explosion as at the start of a game. */
    method ClearBoards()
      requires Valid()
      modifies p1, p1.grid, p1.ships, p2, p2.grid, p2.ships, expl
      ensures Valid() && View() == old(View()).(p1 := InitialBoard(), p2 := InitialBoard(), expl := ResetExplosion())
    {
      hide InitialBoard, Board.Cells;
      p1.Init();
      p2.Init();
      expl.Reset();
    }

    // -------------------------------------------------------------------------------------------
    // Messages
    // -------------------------------------------------------------------------------------------

    /** What a newly announced state does to the variables of its turn. */
    method Arrive(next: Tag)
      modifies this`prev, this`tag, this`data, this`remote
      ensures prev == old(tag) && tag == next
      ensures data == if next == TurnP1 || next == TurnP2 then old(data).(w1 := 0, w2 := 0)
                      else if next == PlaceP2 then Words(old(data).w0, 0, 0, 0, 0) else old(data)
      ensures remote == if next == TurnP1 || next == TurnP2 then Cell(-1, -1) else old(remote)
    {
      Go(next);
      if tag == TurnP1 || tag == TurnP2 {
        data := data.(w1 := 0, w2 := 0);
        remote := Cell(-1, -1);
      }
      if tag == PlaceP2 {
        data := data.(w1 := 0, w2 := 0, w3 := 0, w4 := 0);
      }
    }

    method StateAnnounced(next: Tag)
      requires Valid()
      modifies this, p1, p1.grid, p1.ships, p2, p2.grid, p2.ships, expl
      ensures Valid() && View() == HearState(old(View()), next)
    {
      Tags();
      hide Valid, View, InitialBoard, ResetExplosion;
      if next == MainMenu && tag == WaitingConnect {
        return;
      }
      if next == Exit {
        Stop();
        return;
      }
      if next == MainMenu && tag == GameOver {
        ClearBoards();
      }
      ArriveAt(next);
    }

    /** `Arrive`, seen as a step of the client. */
    method ArriveAt(next: Tag)
      requires Valid()
      modifies this
      ensures Valid()
      ensures var c := old(View());
              View() == c.(prev := c.tag, tag := next,
                           data := if next == TurnP1 || next == TurnP2 then c.data.(w1 := 0, w2 := 0)
                                   else if next == PlaceP2 then Words(c.data.w0, 0, 0, 0, 0) else c.data,
                           remote := if next == TurnP1 || next == TurnP2 then Cell(-1, -1) else c.remote)
    {
      hide Board.View, Board.Valid, Renderer.View;
      Arrive(next);
    }

    lemma Tags()
      requires Valid()
      ensures View().tag == tag && View().prev == prev && View().data == data && View().connected == connected
      ensures IsExploding(View().expl) <==> expl.exploding || expl.waiting
    {
    }

    method Stop()
      requires Valid()
      modifies this
      ensures Valid() && View() == old(View()).(over := true)
    {
      hide Board.View, Board.Valid, Renderer.View;
      over := true;
    }

    method ShipAnnounced(p: Placement)
      requires Valid() && InBounds(p) && (p1.shipsPlaced == NUM_SHIPS ==> p2.shipsPlaced < NUM_SHIPS)
      modifies p1, p1.grid, p1.ships, p2, p2.grid, p2.ships
      ensures Valid() && View() == HearShip(old(View()), p)
    {
      hide PlaceShip;
      if p1.shipsPlaced < NUM_SHIPS {
        p1.Place(p);
      } else {
        p2.Place(p);
      }
    }

    method AttackReported(c: Cell, result: byte)
      requires Valid() && InGrid(c)
      modifies p1, p1.grid, p1.ships, p2, p2.grid, p2.ships, expl
      ensures Valid() && View() == HearAttack(old(View()), c, result)
    {
      hide Reported;
      if tag == TurnP1 {
        ApplyReport(p2, c, result);
        expl.Start(c, result == ATTACK_HIT || result == ATTACK_SUNK);
      } else {
        ApplyReport(p1, c, result);
      }
    }

    /** `game_handle_serial_msg` on the client. */
    method SerialMsg(m: Msg)
      requires Valid() && (m.AttackMsg? ==> InGrid(Cell(m.col, m.row)))
      requires m.ShipPlace? ==> InBounds(ShipOf(m)) && (p1.shipsPlaced == NUM_SHIPS ==> p2.shipsPlaced < NUM_SHIPS)
      modifies this, p1, p1.grid, p1.ships, p2, p2.grid, p2.ships, expl
      ensures Valid()
      ensures m.AttackMsg? ==> Cell(m.col, m.row) in Target(old(View())).grid
      ensures View() == Hear(old(View()), m)
    {
      hide HearState, HearShip, HearAttack, TagOf, Board.View, Board.Valid, Renderer.View;
      match m
      case HelloAck => connected := true;
      case State(s) => StateAnnounced(TagOf(s));
      case ShipPlace(_, _, _, _) => ShipAnnounced(ShipOf(m));
      case AttackMsg(col, row, result) => AttackReported(Cell(col, row), result);
      case Cursor(col, row) => remote := Cell(SignedByte(col), SignedByte(row));
      case Countdown(s) => cdSeconds := s;
      case Winner(w) => data := data.(w0 := w);
      case _ =>
    }

    // -------------------------------------------------------------------------------------------
    // The client's player
    // -------------------------------------------------------------------------------------------

    /** Enter or a click while the player places ships. */
    method Commit()
      requires Valid() && tag == PlaceP2 && 0 <= data.w1 < NUM_SHIPS && InGrid(Cell(data.w3, data.w4))
      requires p2.shipsPlaced < NUM_SHIPS
      modifies this, p2, p2.grid, p2.ships
      ensures Valid() && View() == ClientCommit(old(View()))
    {
      hide Board.Cells, PlaceShip, ShipMsg;
      var p := Placement(data.w3, data.w4, SHIP_SIZES[data.w1], data.w1, OrientOf(data.w2));
      var ok := p2.CanPlaceAt(p);
      if ok {
        p2.Place(p);
        Announce(p, p2.shipsPlaced >= NUM_SHIPS);
      }
    }

    /** A ship was placed; `last` says whether it completes the fleet. */
    method Announce(p: Placement, last: bool)
      modifies this`data, this`tag, this`prev, this`sent
      ensures data == if last then old(data) else old(data).(w1 := old(data).w1 + 1, w3 := 0, w4 := 0)
      ensures tag == (if last then PlaceWaiting else old(tag)) && prev == if last then old(tag) else old(prev)
      ensures sent == old(sent) + if last then [ShipMsg(p), DonePlacing] else [ShipMsg(p)]
    {
      sent := sent + [ShipMsg(p)];
      if last {
        Go(PlaceWaiting);
        sent := sent + [DonePlacing];
      } else {
        data := data.(w1 := data.w1 + 1, w3 := 0, w4 := 0);
      }
    }

    /** Enter, Space or a click in the player's turn. */
    method Fire(c: Cell)
      requires Valid() && InGrid(c)
      modifies this`sent, expl
      ensures Valid() && View() == ClientFire(old(View()), c)
    {
      hide AsByte;
      var done := p1.AlreadyAttacked(c);
      if !done {
        expl.Start(c, false);
        sent := sent + [AttackMsg(AsByte(c.col), AsByte(c.row), 0)];
      }
    }

    // -------------------------------------------------------------------------------------------
    // Keyboard and mouse
    // -------------------------------------------------------------------------------------------

    /** The variables that the code of the states indexes its arrays with are in range. */
    ghost predicate Safe()
      requires Valid()
      reads this, p1, p2, p1.ships, p2.ships
    {
      && (tag == PlaceP2 ==> 0 <= data.w1 < NUM_SHIPS && InGrid(Cell(data.w3, data.w4)) && p2.shipsPlaced < NUM_SHIPS)
      && (tag == TurnP2 ==> InGrid(Cell(data.w1, data.w2)))
    }

    lemma SafeIsSafe()
      requires Valid() && Safe()
      ensures ClientSafe(View())
    {
    }

    method Tell(m: Msg)
      requires Valid()
      modifies this
      ensures Valid() && View() == Send(old(View()), m)
    {
      hide Board.View, Board.Valid, Renderer.View;
      sent := sent + [m];
    }

    /** `transition`, seen as a step of the client. */
    method Switch(next: Tag)
      requires Valid()
      modifies this
      ensures Valid() && View() == Client.Enter(old(View()), next)
    {
      hide Board.View, Board.Valid, Renderer.View;
      Go(next);
    }

    /** The host is told, and the program ends. */
    method Leave()
      requires Valid()
      modifies this
      ensures Valid() && View() == Quit(old(View()))
    {
      hide Board.View, Board.Valid, Renderer.View;
      sent := sent + [ClientQuit];
      over := true;
    }

    /** New words in the union. */
    method SetWords(d: Words)
      requires Valid()
      modifies this
      ensures Valid() && View() == old(View()).(data := d) && data == d && tag == old(tag) && prev == old(prev)
    {
      hide Board.View, Board.Valid, Renderer.View;
      data := d;
    }

    /** The variables of a new game against the host. */
    method AwaitHost()
      requires Valid()
      modifies this
      ensures Valid()
      ensures View() == old(View()).(data := Words(1, 0, 0, 0, 0), connected := false, tag := WaitingConnect, prev := old(tag))
    {
      hide Board.View, Board.Valid, Renderer.View;
      connected := false;
      data := Words(1, 0, 0, 0, 0);
      Go(WaitingConnect);
    }

    method Choose(item: int)
      requires Valid()
      modifies this, p1, p1.grid, p1.ships, p2, p2.grid, p2.ships, expl
      ensures Valid() && View() == ClientMenu(old(View()), item)
    {
      Tags();
      hide Valid, View, InitialBoard, ResetExplosion, Client.Enter, Quit;
      if item == 1 {
        ClearBoards();
        AwaitHost();
      } else if item == 2 {
        Switch(Instructions);
      } else if item == 3 {
        Leave();
      }
    }

    method KeyInPause(code: KeyCode, make: bool, raw: byte)
      requires Valid() && tag == Paused
      modifies this
      ensures Valid() && View() == ClientKey(old(View()), code, make, raw)
    {
      Tags();
      PausedKeyIs(View(), code, make, raw);
      hide Valid, View, ClientKey, ClientSafe, Client.Enter, Quit;
      if make && (code == KeyUp || code == KeyDown) {
        SetWords(data.(w0 := (data.w0 + 1) % 2));
      }
      if make && code == KeyEnter {
        if data.w0 == 0 {
          Switch(prev);
        } else {
          Leave();
        }
      }
      if !make && code == KeyEsc {
        Switch(prev);
      }
    }

    method KeyInMenu(code: KeyCode, make: bool, raw: byte)
      requires Valid() && tag == MainMenu
      modifies this, p1, p1.grid, p1.ships, p2, p2.grid, p2.ships, expl
      ensures Valid() && View() == ClientKey(old(View()), code, make, raw)
    {
      Tags();
      hide Valid, View, ClientMenu, ClientCommit, ClientFire, Quit, InitialBoard;
      if make && code == KeyUp {
        SetWords(data.(w0 := (data.w0 + 3) % 4));
      } else if make && code == KeyDown {
        SetWords(data.(w0 := (data.w0 + 1) % 4));
      } else if !make && code == KeyEsc {
        Leave();
      } else if make && code == KeyEnter {
        Choose(data.w0);
      }
    }

    method KeyInPlace(code: KeyCode, make: bool, raw: byte)
      requires Valid() && Safe() && tag == PlaceP2 && ClientSafe(View())
      modifies this, p2, p2.grid, p2.ships
      ensures Valid() && View() == ClientKey(old(View()), code, make, raw)
    {
      Tags();
      hide Valid, View, ClientMenu, ClientCommit, ClientFire, Quit, InitialBoard, MovePlaceCursor, MoveTurnCursor, Client.Enter;
      if make && code == KeyEnter {
        Commit();
      } else if make {
        SteerShip(code);
      } else if code == KeyEsc {
        Switch(Paused);
      }
    }

    /** The arrow keys and R. */
    method SteerShip(code: KeyCode)
      requires Valid()
      modifies this
      ensures Valid() && View() == old(View()).(data := MovePlaceCursor(old(View()).data, code))
    {
      Tags();
      hide Valid, View;
      if code == KeyUp {
        SetWords(data.(w4 := if data.w4 > 0 then data.w4 - 1 else 0));
      } else if code == KeyDown {
        SetWords(data.(w4 := if data.w4 < ROWS - 1 then data.w4 + 1 else ROWS - 1));
      } else if code == KeyLeft {
        SetWords(data.(w3 := if data.w3 > 0 then data.w3 - 1 else 0));
      } else if code == KeyRight {
        SetWords(data.(w3 := if data.w3 < COLS - 1 then data.w3 + 1 else COLS - 1));
      }
      if code == KeyR {
        SetWords(data.(w2 := Flip(data.w2)));
      }
    }

    method SteerCursor(code: KeyCode)
      requires Valid()
      modifies this
      ensures Valid() && View() == old(View()).(data := MoveTurnCursor(old(View()).data, code))
    {
      Tags();
      hide Valid, View;
      if code == KeyUp {
        SetWords(data.(w2 := if data.w2 > 0 then data.w2 - 1 else 0));
      }
      if code == KeyDown {
        SetWords(data.(w2 := if data.w2 < ROWS - 1 then data.w2 + 1 else ROWS - 1));
      }
      if code == KeyLeft {
        SetWords(data.(w1 := if data.w1 > 0 then data.w1 - 1 else 0));
      }
      if code == KeyRight {
        SetWords(data.(w1 := if data.w1 < COLS - 1 then data.w1 + 1 else COLS - 1));
      }
    }

    method KeyInTurn(code: KeyCode, make: bool, raw: byte)
      requires Valid() && Safe() && tag == TurnP2 && ClientSafe(View())
      modifies this, expl
      ensures Valid() && View() == ClientKey(old(View()), code, make, raw)
    {
      Tags();
      hide Valid, View, ClientMenu, ClientCommit, ClientFire, Quit, InitialBoard, MovePlaceCursor, MoveTurnCursor, Client.Enter;
      if expl.exploding || expl.waiting {
        return;
      }
      if make && (code == KeyEnter || code == KeySpace) {
        Fire(Cell(data.w1, data.w2));
      } else if make {
        SteerCursor(code);
      } else if code == KeyEsc {
        Switch(Paused);
      }
    }

    /** The end of a game is left. */
    method BackToMenu()
      requires Valid()
      modifies this
      ensures Valid()
      ensures View() == old(View()).(data := old(View()).data.(w0 := 0), tag := MainMenu, prev := old(View()).tag,
                                     sent := old(View()).sent + [State(TagByte(MainMenu))])
    {
      hide Board.View, Board.Valid, Renderer.View;
      data := data.(w0 := 0);
      Go(MainMenu);
      sent := sent + [State(TagByte(MainMenu))];
    }

    method KeyAtEnd(code: KeyCode, make: bool, raw: byte)
      requires Valid() && tag == GameOver
      modifies this, p1, p1.grid, p1.ships, p2, p2.grid, p2.ships, expl
      ensures Valid() && View() == ClientKey(old(View()), code, make, raw)
    {
      Tags();
      hide Valid, View, ClientMenu, ClientCommit, ClientFire, Quit, InitialBoard, ResetExplosion;
      if make && code == KeyEnter {
        ClearBoards();
        BackToMenu();
      }
      if !make && code == KeyEsc {
        Stop();
      }
    }

    /** `game_handle_keyboard` on the client. */
    method Keyboard(code: KeyCode, make: bool, raw: byte)
      requires Valid() && Safe()
      modifies this, p1, p1.grid, p1.ships, p2, p2.grid, p2.ships, expl
      ensures Valid() && ClientSafe(old(View())) && View() == ClientKey(old(View()), code, make, raw)
    {
      Tags();
      SafeIsSafe();
      hide Valid, View, Safe, ClientSafe, ClientMenu, ClientCommit, ClientFire, InitialBoard, MovePlaceCursor, MoveTurnCursor, IsExploding;
      if !Owns(tag) {
        if !connected {
          return;
        }
        Tell(Key(raw));
        return;
      }
      match tag
      case Paused => KeyInPause(code, make, raw);
      case MainMenu => KeyInMenu(code, make, raw);
      case Instructions =>
        if (make && code == KeyEnter) || (!make && code == KeyEsc) {
          Switch(MainMenu);
        }
      case PlaceP2 => KeyInPlace(code, make, raw);
      case TurnP2 => KeyInTurn(code, make, raw);
      case GameOver => KeyAtEnd(code, make, raw);
      case _ =>
    }

    method MouseInPause(m: MouseEvent, packet: Msg)
      requires Valid() && tag == Paused && (m.over.Some? ==> InGrid(m.over.value))
      modifies this
      ensures Valid() && View() == ClientMouse(old(View()), m, packet)
    {
      Tags();
      PausedMouseIs(View(), m, packet);
      hide Valid, View, ClientMouse, ClientSafe, Client.Enter, Quit;
      if m.moved && m.item.Some? && m.item.value != data.w0 {
        SetWords(data.(w0 := m.item.value));
      }
      if m.clicked && m.item.Some? {
        if m.item.value == 0 {
          Switch(prev);
        } else {
          Leave();
        }
      }
    }

    method MouseInMenu(m: MouseEvent, packet: Msg)
      requires Valid() && tag == MainMenu && (m.over.Some? ==> InGrid(m.over.value))
      modifies this, p1, p1.grid, p1.ships, p2, p2.grid, p2.ships, expl
      ensures Valid() && View() == ClientMouse(old(View()), m, packet)
    {
      Tags();
      hide Valid, View, ClientMenu, ClientCommit, ClientFire, InitialBoard;
      if m.moved && m.item.Some? && m.item.value != data.w0 {
        SetWords(data.(w0 := m.item.value));
      }
      if m.clicked && m.item.Some? {
        Choose(m.item.value);
      }
    }

    method MouseInPlace(m: MouseEvent, packet: Msg)
      requires Valid() && Safe() && tag == PlaceP2 && ClientSafe(View()) && (m.over.Some? ==> InGrid(m.over.value))
      modifies this, p2, p2.grid, p2.ships
      ensures Valid() && View() == ClientMouse(old(View()), m, packet)
    {
      Tags();
      PlaceMouseIs(View(), m, packet);
      hide View, Valid, ClientCommit, ClientMouse, ClientSafe;
      if m.moved && m.over.Some? {
        SetWords(data.(w3 := m.over.value.col, w4 := m.over.value.row));
      }
      if m.clicked {
        Commit();
      }
    }

    method MouseInTurn(m: MouseEvent, packet: Msg)
      requires Valid() && Safe() && tag == TurnP2 && ClientSafe(View()) && (m.over.Some? ==> InGrid(m.over.value))
      modifies this, expl
      ensures Valid() && View() == ClientMouse(old(View()), m, packet)
    {
      Tags();
      TurnMouseIs(View(), m, packet);
      hide Valid, View, ClientFire, ClientMouse, ClientSafe, IsExploding;
      if expl.exploding || expl.waiting {
        return;
      }
      if m.moved && m.over.Some? {
        SetWords(data.(w1 := m.over.value.col, w2 := m.over.value.row));
      }
      if m.clicked {
        Fire(Cell(data.w1, data.w2));
      }
    }

    /** `game_handle_mouse` on the client. */
    method MousePacket(m: MouseEvent, packet: Msg)
      requires Valid() && Safe() && (m.over.Some? ==> InGrid(m.over.value))
      modifies this, p1, p1.grid, p1.ships, p2, p2.grid, p2.ships, expl
      ensures Valid() && ClientSafe(old(View())) && View() == ClientMouse(old(View()), m, packet)
    {
      Tags();
      SafeIsSafe();
      hide Valid, View, Safe, ClientSafe, ClientMenu, ClientCommit, ClientFire, IsExploding;
      if !Owns(tag) {
        if !connected {
          return;
        }
        if m.moved || m.clicked {
          Tell(packet);
        }
        return;
      }
      match tag
      case Paused => MouseInPause(m, packet);
      case MainMenu => MouseInMenu(m, packet);
      case Instructions =>
        if m.clicked {
          Switch(MainMenu);
        }
      case PlaceP2 => MouseInPlace(m, packet);
      case TurnP2 => MouseInTurn(m, packet);
      case _ =>
    }

    /** The client's part of the timer: cursor, animation, greeting. */
    method Timer(beat: bool)
      requires Valid() && cursorTick < 2
      modifies this, expl
      ensures Valid() && View() == ClientTick(old(View()), beat)
    {
      hide Board.View, Board.Valid, AsByte, Animate;
      SendCursor();
      expl.Update();
      if beat && tag == WaitingConnect {
        sent := sent + [Hello];
      }
    }

    method SendCursor()
      requires cursorTick < 2
      modifies this`cursorTick, this`sent
      ensures cursorTick == if old(cursorTick) + 1 >= 2 then 0 else old(cursorTick) + 1
      ensures sent == old(sent) + if old(cursorTick) + 1 >= 2 && tag == TurnP2
                                  then [Cursor(AsByte(data.w1), AsByte(data.w2))] else []
    {
      cursorTick := cursorTick + 1;
      if cursorTick >= 2 {
        cursorTick := 0;
        if tag == TurnP2 {
          sent := sent + [Cursor(AsByte(data.w1), AsByte(data.w2))];
        }
      }
    }
  }
}
