/** A pause is transparent: whatever happens while the host is paused, the game resumes where it was. */
module HostPause {
  import opened Boards
  import opened Protocol
  import opened Explosion
  import opened Host
  import opened HostControl
  import opened HostSteps
  import opened HostRuns

  /** Two states of the same game: only the state tags, the first word of the union (the menu choice),
      the cursor's send clock, the link and the exit flag may differ. */
  predicate SameGame(h: HostState, r: HostState) {
    r == h.(tag := r.tag, prev := r.prev, data := h.data.(w0 := r.data.w0), cursorTick := r.cursorTick,
            over := r.over, connected := r.connected, remoteReady := r.remoteReady, remote := r.remote, sent := r.sent)
  }

  lemma StagesInPause(h: HostState)
    requires Control(h) && h.tag == Paused
    ensures TickCountdown(h) == h && TickResolve(h) == h && TickPostAttack(h) == h && TickHandover(h) == h
    ensures Animate(h.expl) == h.expl
  {
  }

  lemma TickInPause(h: HostState, pick: Cell, fleet: seq<Placement>)
    requires Inv(h) && FairDraws(h, pick, fleet) && h.tag == Paused
    ensures var r := Tick(h, pick, fleet); SameGame(h, r) && r.tag == Paused && r.prev == h.prev && r.data == h.data
  {
    hide GoodBoard, BotKnows, Animate, Tick, TickCursor, BeforeBot, FairDraws, SameGame;
    var b := TickCursor(h);
    QuietBeforeBot(h);
    StagesInPause(h);
    CursorInPause(h);
    TickWithoutBot(h, pick, fleet, b);
    hide Control;
  }

  lemma CursorInPause(h: HostState)
    requires h.tag == Paused
    ensures var b := TickCursor(h); SameGame(h, b) && b.tag == Paused && b.prev == h.prev && b.data == h.data && b.expl == h.expl
  {
  }

  lemma QuietBeforeBot(h: HostState)
    requires Control(h) && h.tag == Paused
    ensures BeforeBot(h) == TickCursor(h)
  {
    StagesInPause(h);
    hide Control, TickCountdown, TickResolve, TickPostAttack, TickHandover, Animate;
  }

  /** The other item of the pause menu, and what its items do. */
  function OtherItemOf(h: HostState): HostState {
    h.(data := h.data.(w0 := (h.data.w0 + 1) % 2))
  }

  function ChosenInPause(h: HostState): HostState {
    if h.data.w0 == 0 then Transition(h, h.prev) else if h.data.w0 == 1 then h.(over := true) else h
  }

  /** What the keyboard code does in a pause. */
  lemma PauseKeyIs(h: HostState, code: KeyCode, make: bool)
    requires h.tag == Paused
    ensures CursorSafe(h)
    ensures HandleKey(h, code, make) ==
            if make && (code == KeyUp || code == KeyDown) then OtherItemOf(h)
            else if make && code == KeyEnter then ChosenInPause(h)
            else if !make && code == KeyEsc then Transition(h, h.prev) else h
  {
    hide MenuChoice, CommitShip, CommitForBot, FireAt, InitialBoard;
  }

  /** And the mouse code. */
  lemma PauseMouseIs(h: HostState, m: MouseEvent)
    requires h.tag == Paused && MouseOk(m)
    ensures CursorSafe(h)
    ensures var h' := if m.moved && m.item.Some? then h.(data := h.data.(w0 := m.item.value)) else h;
            HandleMouse(h, m) ==
            if m.clicked && m.item == Some(0) then Transition(h', h.prev)
            else if m.clicked && m.item == Some(1) then h'.(over := true) else h'
  {
    hide MenuChoice, CommitShip, FireAt;
  }

  lemma KeyInPause(h: HostState, code: KeyCode, make: bool)
    requires CursorSafe(h) && h.tag == Paused
    ensures var r := HandleKey(h, code, make);
            SameGame(h, r) && ((r.tag == Paused && r.prev == h.prev) || (r.tag == h.prev && r.prev == Paused))
  {
    hide HandleKey, SameGame, Transition, CursorSafe;
    PauseKeyIs(h, code, make);
    MenuMoved(h, h, h.data.w0);
    MenuMoved(h, h.(data := h.data.(w0 := (h.data.w0 + 1) % 2)), (h.data.w0 + 1) % 2);
  }

  lemma MouseInPause(h: HostState, m: MouseEvent)
    requires CursorSafe(h) && MouseOk(m) && h.tag == Paused
    ensures var r := HandleMouse(h, m);
            SameGame(h, r) && ((r.tag == Paused && r.prev == h.prev) || (r.tag == h.prev && r.prev == Paused))
  {
    hide HandleMouse, SameGame, Transition, CursorSafe;
    PauseMouseIs(h, m);
    var h' := if m.moved && m.item.Some? then h.(data := h.data.(w0 := m.item.value)) else h;
    MenuMoved(h, h', h'.data.w0);
  }

  /** The menu choice, the tags and the exit flag do not belong to the game. */
  lemma MenuMoved(h: HostState, h': HostState, w: int)
    requires h' == h.(data := h.data.(w0 := w)) && h.tag == Paused
    ensures SameGame(h, h') && SameGame(h, h'.(over := true))
    ensures var r := Transition(h', h.prev); SameGame(h, r) && r.tag == h.prev && r.prev == Paused
  {
  }

  lemma MsgInPause(h: HostState, m: Msg)
    requires MsgOk(h, m) && h.tag == Paused
    ensures var r := HandleMsg(h, m); SameGame(h, r) && r.tag == Paused && r.prev == h.prev && r.data == h.data
  {
  }

  /** In a pause the clock and the link change neither the tags nor the union, and the players' input at
      most the menu choice, until it resumes the interrupted state. */
  lemma StepInPause(h: HostState, e: Event)
    requires Inv(h) && Enabled(h, e) && h.tag == Paused
    ensures var r := Apply(h, e);
            && SameGame(h, r)
            && ((r.tag == Paused && r.prev == h.prev) || (r.tag == h.prev && r.prev == Paused))
            && (e.TickEvent? || e.Incoming? ==> r.tag == Paused && r.data == h.data)
  {
    InputSafe(h);
    hide Inv, Tick, HandleKey, HandleMouse, HandleMsg, CursorSafe;
    match e
    case TickEvent(pick, fleet) => TickInPause(h, pick, fleet);
    case KeyEvent(code, make) => KeyInPause(h, code, make);
    case MouseMove(m) => MouseInPause(h, m);
    case Incoming(msg) => MsgKeeps(h, msg); MsgInPause(h, msg);
  }

  lemma KeyPauses(h: HostState, code: KeyCode, make: bool)
    requires CursorSafe(h) && h.tag != Paused
    requires HandleKey(h, code, make).tag == Paused
    ensures HandleKey(h, code, make) == Transition(h, Paused) && code == KeyEsc && !make
  {
    hide MenuChoice, CommitShip, CommitForBot, FireAt, MovePlaceCursor, MoveTurnCursor, InitialBoard, FullGrid, InputBlocked, CursorSafe, ResetExplosion, TagByte;
  }

  lemma MouseNeverPauses(h: HostState, m: MouseEvent)
    requires CursorSafe(h) && MouseOk(m) && h.tag != Paused
    ensures HandleMouse(h, m).tag != Paused
  {
    hide MenuChoice, CommitShip, FireAt;
  }

  lemma MsgNeverPauses(h: HostState, m: Msg)
    requires m.AttackMsg? && h.tag == TurnP2 ==> Cell(m.col, m.row) in h.p1.grid
    requires h.tag != Paused
    ensures HandleMsg(h, m).tag != Paused
  {
    hide Attack, PlaceShip, FleetMsgs, ShipOf;
  }

  lemma TickNeverPauses(h: HostState, pick: Cell, fleet: seq<Placement>)
    requires Inv(h) && FairDraws(h, pick, fleet) && h.tag != Paused
    ensures Tick(h, pick, fleet).tag != Paused
  {
    if InTurn(h) { TurnTickFlows(h); } else { QuietTickFlows(h); }
    TagAfterBot(h, pick, fleet, BeforeBot(h));
    hide Inv, Tick, BeforeBot;
  }

  /** Only the Escape key pauses, and it does nothing else. */
  lemma OnlyEscapePauses(h: HostState, e: Event)
    requires Inv(h) && Enabled(h, e) && h.tag != Paused && Apply(h, e).tag == Paused
    ensures Apply(h, e) == Transition(h, Paused) && e == KeyEvent(KeyEsc, false)
  {
    InputSafe(h);
    hide Inv, Tick, HandleKey, HandleMouse, HandleMsg, CursorSafe;
    match e
    case TickEvent(pick, fleet) => TickNeverPauses(h, pick, fleet);
    case KeyEvent(code, make) => KeyPauses(h, code, make);
    case MouseMove(m) => MouseNeverPauses(h, m);
    case Incoming(msg) => MsgKeeps(h, msg); MsgNeverPauses(h, msg);
  }

  // ---------------------------------------------------------------------------------------------
  // Runs
  // ---------------------------------------------------------------------------------------------

  /** From `k` on the host is paused for the next `m` states. */
  predicate PausedFor(run: seq<HostState>, k: nat, m: nat)
    requires k + m < |run|
  {
    forall j :: k < j <= k + m ==> run[j].tag == Paused
  }

  lemma {:induction false} StillPaused(run: seq<HostState>, es: seq<Event>, k: nat, m: nat)
    requires IsRun(run, es) && k + m <= |es| && 0 < m && run[k].tag != Paused && PausedFor(run, k, m)
    ensures SameGame(run[k], run[k + m]) && run[k + m].prev == run[k].tag
  {
    hide Inv, Init, Enabled, Apply, Steps;
    var j := k + m - 1;
    StepInRun(run, es, j);
    assert run[j + 1].tag == Paused;
    if m == 1 {
      OnlyEscapePauses(run[k], es[k]);
    } else {
      StillPaused(run, es, k, m - 1);
      StepInPause(run[j], es[j]);
      PausedOnce(run[j]);
    }
  }

  lemma PausedOnce(h: HostState)
    requires Inv(h) && h.tag == Paused
    ensures h.prev != Paused
  {
    NeverPausedTwice(h);
  }

  lemma NeverPausedTwice(h: HostState)
    requires Control(h)
    ensures h.tag == Paused ==> h.prev != Paused
  {
  }

  /** However long a pause lasts and whatever happens in it, the state that is resumed is the state that
      was left: the same phase, boards, bot, clocks and pending explosion, and the same ship index,
      orientation and cursors in the union. */
  lemma PauseIsTransparent(run: seq<HostState>, es: seq<Event>, k: nat, m: nat)
    requires IsRun(run, es) && k + m + 1 <= |es| && 0 < m
    requires run[k].tag != Paused && PausedFor(run, k, m) && run[k + m + 1].tag != Paused
    ensures var left, back := run[k], run[k + m + 1];
            && back.tag == left.tag && SameGame(left, back)
            && back.data.w1 == left.data.w1 && back.data.w2 == left.data.w2
            && back.data.w3 == left.data.w3 && back.data.w4 == left.data.w4
  {
    hide Inv, Init, Enabled, Apply, Steps;
    StillPaused(run, es, k, m);
    StepInRun(run, es, k + m);
    assert run[k + m].tag == Paused;
    StepInPause(run[k + m], es[k + m]);
  }
}
