/** What keys, mouse packets and announced states mean on the client, outside the placing of ships. */
module ClientInput {
  import opened Boards
  import opened Protocol
  import opened Explosion
  import opened Host
  import opened HostSteps
  import opened Client
  import opened PlaceInput
  import opened HostInput
  import R = Rays

  // ---------------------------------------------------------------------------------------------
  // Shots
  // ---------------------------------------------------------------------------------------------

  /** The cell under the client's cursor, after it has followed the mouse. */
  function ClientAim(c: ClientState, i: Input): Cell {
    if i.MouseInput? && i.m.moved && i.m.over.Some? then i.m.over.value else Cell(c.data.w1, c.data.w2)
  }

  /** In its own turn, with no shot shown: Enter, Space or a click, with the cursor at a cell that is not known to be
      attacked. */
  predicate Shoots(c: ClientState, i: Input) {
    && c.tag == TurnP2 && !IsExploding(c.expl)
    && (match i
        case KeyInput(code, make, _) => make && (code == KeyEnter || code == KeySpace)
        case MouseInput(m, _) => m.clicked
        case Elapse(_) => false)
    && R.IsFresh(c.p1.grid, ClientAim(c, i))
  }

  /** The shot is sent with column and row of that cell, and shown there; nothing is known about its result, so no
      board changes. */
  predicate ShotAnnounced(c: ClientState, r: ClientState, x: Cell) {
    && InGrid(x) && 0 <= x.col < 256 && 0 <= x.row < 256
    && r.sent == c.sent + [AttackMsg(x.col, x.row, 0)]
    && r.expl.exploding && r.expl.at == x && !r.expl.isHit && r.expl.ticks == 0
    && r.p1 == c.p1 && r.p2 == c.p2 && r.tag == TurnP2 && Cell(r.data.w1, r.data.w2) == x
  }

  /** No message that was added is a shot. */
  predicate NoShotAdded(was: seq<Msg>, now: seq<Msg>) {
    was <= now && forall k :: |was| <= k < |now| ==> !now[k].AttackMsg?
  }

  lemma FireAnnounces(c: ClientState, x: Cell)
    requires c.tag == TurnP2 && InGrid(x) && x in c.p1.grid && Cell(c.data.w1, c.data.w2) == x
    ensures var r := ClientFire(c, x); if R.IsFresh(c.p1.grid, x) then ShotAnnounced(c, r, x) else r == c
  {
    assert AsByte(x.col) == x.col && AsByte(x.row) == x.row;
  }

  lemma TurnKeyShoots(c: ClientState, code: KeyCode, make: bool, raw: byte)
    requires ClientSafe(c) && c.tag == TurnP2
    ensures var r, i := ClientKey(c, code, make, raw), KeyInput(code, make, raw);
            if Shoots(c, i) then ShotAnnounced(c, r, ClientAim(c, i)) else r.sent == c.sent && r.expl == c.expl
  {
    FireAnnounces(c, Cell(c.data.w1, c.data.w2));
    hide ClientFire, MoveTurnCursor, ShotAnnounced, IsExploding;
  }

  lemma TurnMouseShoots(c: ClientState, m: MouseEvent, packet: Msg)
    requires ClientSafe(c) && MouseOk(m) && c.tag == TurnP2
    ensures var r, i := ClientMouse(c, m, packet), MouseInput(m, packet);
            if Shoots(c, i) then ShotAnnounced(c, r, ClientAim(c, i)) else r.sent == c.sent && r.expl == c.expl
  {
    var x := ClientAim(c, MouseInput(m, packet));
    var c' := c.(data := c.data.(w1 := x.col, w2 := x.row));
    FireAnnounces(c', x);
    hide ClientFire, IsExploding;
  }

  lemma OtherInputSendsNoShot(c: ClientState, i: Input)
    requires ClientSafe(c) && InputOk(i) && (c.tag != TurnP2 || i.Elapse?)
    ensures NoShotAdded(c.sent, Act(c, i).sent)
  {
    hide ClientKey, ClientMouse, ClientTick, ClientSafe;
    match i
    case Elapse(beat) => TickSendsNoShot(c, beat);
    case KeyInput(code, make, raw) => KeySendsNoShot(c, code, make, raw);
    case MouseInput(m, packet) => MouseSendsNoShot(c, m, packet);
  }

  lemma TickSendsNoShot(c: ClientState, beat: bool)
    ensures NoShotAdded(c.sent, ClientTick(c, beat).sent)
  {
    hide Animate, AsByte;
  }

  lemma CommitSendsNoShot(c: ClientState)
    requires 0 <= c.data.w1 < NUM_SHIPS && FullGrid(c.p2.grid)
    ensures NoShotAdded(c.sent, ClientCommit(c).sent)
  {
    hide PlaceShip, CanPlace, Wanted;
  }

  lemma MenuSendsNoShot(c: ClientState, item: int)
    ensures NoShotAdded(c.sent, ClientMenu(c, item).sent)
  {
    hide InitialBoard;
  }

  lemma KeySendsNoShot(c: ClientState, code: KeyCode, make: bool, raw: byte)
    requires ClientSafe(c) && c.tag != TurnP2
    ensures NoShotAdded(c.sent, ClientKey(c, code, make, raw).sent)
  {
    if c.tag == PlaceP2 { CommitSendsNoShot(c); }
    MenuSendsNoShot(c, c.data.w0);
    hide ClientCommit, ClientMenu, ClientFire, InitialBoard, MovePlaceCursor, IsExploding;
  }

  lemma MouseSendsNoShot(c: ClientState, m: MouseEvent, packet: Msg)
    requires ClientSafe(c) && MouseOk(m) && packet.Mouse? && c.tag != TurnP2
    ensures NoShotAdded(c.sent, ClientMouse(c, m, packet).sent)
  {
    if c.tag == PlaceP2 { CommitSendsNoShot(c.(data := Steered(c.data, m))); }
    if m.item.Some? {
      MenuSendsNoShot(if m.moved then c.(data := c.data.(w0 := m.item.value)) else c, m.item.value);
    }
    hide ClientCommit, ClientMenu, ClientFire;
  }

  /** The client's player shoots exactly at the cell under the cursor, and only in its own turn, at a cell that it
      does not know to be attacked, while no earlier shot is shown. */
  lemma ClientShootsExactly(c: ClientState, i: Input)
    requires ClientSafe(c) && InputOk(i)
    ensures var r := Act(c, i);
            && (Shoots(c, i) ==> ShotAnnounced(c, r, ClientAim(c, i)))
            && (!Shoots(c, i) ==> NoShotAdded(c.sent, r.sent))
            && (!Shoots(c, i) && c.tag == TurnP2 && !i.Elapse? ==> r.sent == c.sent && r.expl == c.expl)
  {
    if c.tag == TurnP2 && !i.Elapse? {
      hide ClientKey, ClientMouse, ShotAnnounced, IsExploding, ClientSafe;
      match i
      case KeyInput(code, make, raw) => TurnKeyShoots(c, code, make, raw);
      case MouseInput(m, packet) => TurnMouseShoots(c, m, packet);
    } else {
      OtherInputSendsNoShot(c, i);
      hide Act, ShotAnnounced, IsExploding;
    }
  }

  // ---------------------------------------------------------------------------------------------
  // The cursor in the client's turn
  // ---------------------------------------------------------------------------------------------

  lemma ClientKeysSteerCursor(c: ClientState, code: KeyCode, raw: byte)
    requires ClientSafe(c) && c.tag == TurnP2 && !IsExploding(c.expl) && code != KeyEnter && code != KeySpace
    ensures var r := ClientKey(c, code, true, raw); CursorSteered(c.data, r.data, code) && r == c.(data := r.data)
  {
    TurnKeysSteer(c.data, code);
    hide ClientFire, MoveTurnCursor, CursorSteered;
  }

  lemma MouseSteersClient(c: ClientState, m: MouseEvent, packet: Msg)
    requires ClientSafe(c) && MouseOk(m) && c.tag == TurnP2 && !IsExploding(c.expl) && !m.clicked
    ensures var r, x := ClientMouse(c, m, packet), ClientAim(c, MouseInput(m, packet));
            r == c.(data := c.data.(w1 := x.col, w2 := x.row))
  {
    hide ClientFire;
  }

  // ---------------------------------------------------------------------------------------------
  // Menus, pause and the end
  // ---------------------------------------------------------------------------------------------

  /** The items of the client's main menu: a game alone is the host's, a game waits for the host, the instructions,
      and the end, of which the host is told. */
  ghost predicate ClientItemChosen(c: ClientState, r: ClientState, item: int) {
    if item == 1 then
      && r.tag == WaitingConnect && !r.connected && r.p1 == BoardOf([], {}) && r.p2 == BoardOf([], {})
      && !Unresolved(r.expl) && r.sent == c.sent && r.over == c.over
    else if item == 2 then r == c.(tag := Instructions, prev := c.tag)
    else if item == 3 then r == c.(over := true, sent := c.sent + [ClientQuit])
    else r == c
  }

  lemma ClientItemsDo(c: ClientState, item: int)
    ensures ClientItemChosen(c, ClientMenu(c, item), item)
  {
    InitialIsBoardOf();
    hide InitialBoard, BoardOf;
  }

  lemma ClientMenuByKey(c: ClientState, code: KeyCode, make: bool, raw: byte)
    requires ClientSafe(c) && c.tag == MainMenu && 0 <= c.data.w0 < 4
    ensures var r := ClientKey(c, code, make, raw);
            && (make && code == KeyUp ==> r == c.(data := c.data.(w0 := if c.data.w0 == 0 then 3 else c.data.w0 - 1)))
            && (make && code == KeyDown ==> r == c.(data := c.data.(w0 := if c.data.w0 == 3 then 0 else c.data.w0 + 1)))
            && (make && code == KeyEnter ==> ClientItemChosen(c, r, c.data.w0))
            && (!make && code == KeyEsc ==> r == c.(over := true, sent := c.sent + [ClientQuit]))
  {
    ClientItemsDo(c, c.data.w0);
    hide ClientMenu, ClientItemChosen;
  }

  lemma ClientMenuByMouse(c: ClientState, m: MouseEvent, packet: Msg)
    requires ClientSafe(c) && MouseOk(m) && c.tag == MainMenu
    ensures var r := ClientMouse(c, m, packet);
            var c' := if m.moved && m.item.Some? then c.(data := c.data.(w0 := m.item.value)) else c;
            if m.clicked && m.item.Some? then ClientItemChosen(c', r, m.item.value) else r == c'
  {
    var c' := if m.moved && m.item.Some? then c.(data := c.data.(w0 := m.item.value)) else c;
    if m.item.Some? { ClientItemsDo(c', m.item.value); }
    hide ClientMenu, ClientItemChosen;
  }

  /** Escape pauses while the client's player places ships or is in turn with no shot shown, and Escape, or Enter with
      the first item, leads back to where the game was. */
  lemma ClientPausesAndResumes(c: ClientState, raw: byte, raw': byte)
    requires ClientSafe(c) && (c.tag == PlaceP2 || (c.tag == TurnP2 && !IsExploding(c.expl)))
    ensures var p := ClientKey(c, KeyEsc, false, raw);
            && p == c.(tag := Paused, prev := c.tag) && ClientSafe(p)
            && ClientKey(p, KeyEsc, false, raw') == c.(prev := Paused)
            && ClientKey(p, KeyEnter, true, raw') ==
               if c.data.w0 == 0 then c.(prev := Paused) else p.(over := true, sent := p.sent + [ClientQuit])
  {
    hide ClientCommit, ClientFire, MovePlaceCursor, MoveTurnCursor;
  }

  /** The pause by mouse: the item under a moving mouse is selected, the first one resumes, the other leaves. */
  lemma ClientPauseByMouse(c: ClientState, m: MouseEvent, packet: Msg)
    requires ClientSafe(c) && MouseOk(m) && c.tag == Paused
    ensures var r := ClientMouse(c, m, packet);
            var w := if m.moved && m.item.Some? then m.item.value else c.data.w0;
            && r.data == c.data.(w0 := w)
            && (m.clicked && m.item == Some(0) ==> r.tag == c.prev && r.sent == c.sent && r.over == c.over)
            && (m.clicked && m.item.Some? && m.item != Some(0) ==> r.tag == Paused && r.sent == c.sent + [ClientQuit] && r.over)
            && (!m.clicked || m.item.None? ==> r == c.(data := r.data))
  {
  }

  /** The instructions are left by Enter, Escape or a click. */
  lemma ClientLeavesInstructions(c: ClientState, raw: byte)
    requires ClientSafe(c) && c.tag == Instructions
    ensures ClientKey(c, KeyEnter, true, raw).tag == ClientKey(c, KeyEsc, false, raw).tag == MainMenu
    ensures forall m: MouseEvent, packet: Msg :: MouseOk(m) && m.clicked ==> ClientMouse(c, m, packet).tag == MainMenu
  {
  }

  /** After the game: Enter leads to the menu with both boards empty, and Escape leaves without telling the host. */
  lemma ClientAfterTheGame(c: ClientState, raw: byte)
    requires ClientSafe(c) && c.tag == GameOver
    ensures var r := ClientKey(c, KeyEnter, true, raw);
            && r.tag == MainMenu && r.data.w0 == 0 && r.p1 == BoardOf([], {}) && r.p2 == BoardOf([], {}) && !Unresolved(r.expl)
            && r.sent == c.sent + [State(TagByte(MainMenu))]
    ensures ClientKey(c, KeyEsc, false, raw) == c.(over := true)
  {
    InitialIsBoardOf();
    hide InitialBoard, BoardOf, TagByte;
  }

  /** In all other states the client's keys and packets are the host's business: they are forwarded as they are, once
      the host has answered. */
  lemma ElsewhereInputIsForwarded(c: ClientState, i: Input)
    requires ClientSafe(c) && InputOk(i) && !i.Elapse?
    requires c.tag == PlaceP1 || c.tag == PlaceWaiting || c.tag == Counting || c.tag == TurnP1
             || c.tag == HandoverP1 || c.tag == HandoverP2
    ensures var r := Act(c, i);
            r == c.(sent := c.sent + if !c.connected then []
                                     else if i.KeyInput? then [Key(i.raw)]
                                     else if i.m.moved || i.m.clicked then [i.packet] else [])
  {
    assert c.sent + [] == c.sent;
  }

  // ---------------------------------------------------------------------------------------------
  // Ticks and announced states
  // ---------------------------------------------------------------------------------------------

  /** Every second tick in its turn the client tells where its cursor is; while it waits for the host it sends a
      greeting every thirtieth tick. Nothing else is sent by the clock. */
  lemma ClockTells(c: ClientState, beat: bool)
    requires ClientSafe(c) && c.cursorTick < 2
    ensures var r := ClientTick(c, beat);
            && (c.cursorTick == 0 ==> r.cursorTick == 1) && (c.cursorTick == 1 ==> r.cursorTick == 0)
            && (c.tag == TurnP2 ==> r.sent == c.sent + if c.cursorTick == 1 then [Cursor(c.data.w1, c.data.w2)] else [])
            && (c.tag == WaitingConnect ==> r.sent == c.sent + if beat then [Hello] else [])
            && (c.tag != TurnP2 && c.tag != WaitingConnect ==> r.sent == c.sent)
  {
    hide Animate, FullGrid;
    assert c.sent + [] + [] == c.sent && c.sent + [] == c.sent;
  }

  /** What the client does when a state is announced: a turn begins with the cursor home and the other cursor hidden,
      placing begins with the first ship, and the menu after a game with empty boards; a client that waits for the next
      game does not let itself be called back to the menu. */
  lemma AnnouncedStateBegins(c: ClientState, next: Tag)
    requires next != Exit
    ensures var r := Hear(c, State(TagByte(next)));
            && (next == TurnP1 || next == TurnP2 ==>
                  r.tag == next && r.data.w1 == 0 && r.data.w2 == 0 && r.remote == Cell(-1, -1))
            && (next == PlaceP2 ==> r.tag == PlaceP2 && r.data == Words(c.data.w0, 0, 0, 0, 0))
            && (next == MainMenu && c.tag == WaitingConnect ==> r == c)
            && (next == MainMenu && c.tag == GameOver ==>
                  r.tag == MainMenu && r.p1 == BoardOf([], {}) && r.p2 == BoardOf([], {}) && !Unresolved(r.expl))
            && (next == GameOver ==> r == c.(tag := GameOver, prev := c.tag))
    ensures Hear(c, State(TagByte(Exit))) == c.(over := true)
    ensures Hear(c, HelloAck) == c.(connected := true)
  {
    InitialIsBoardOf();
    hide InitialBoard, BoardOf;
  }
}
