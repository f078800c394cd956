/** The control part of the host's invariant: which phase allows what. None of it looks inside a fleet. */
module HostControl {
  import opened Boards
  import opened Protocol
  import opened Explosion
  import opened Host
  import H = Hunt

  /** The state the game is in, seen through a pause. */
  function Active(h: HostState): Tag {
    if h.tag == Paused then h.prev else h.tag
  }

  predicate Unshot(b: BoardState) {
    ShotsOf(b) == {}
  }

  predicate PlacingWords(d: Words) {
    && 0 <= d.w1 < NUM_SHIPS && 0 <= d.w2 < 2 && InGrid(Cell(d.w3, d.w4))
  }

  predicate ClocksOk(t: Tag, botTimer: byte, cdTicks: nat, cdSeconds: byte, postTicks: byte) {
    && botTimer <= 2 * TICKS_PER_SEC && cdTicks < TICKS_PER_SEC && postTicks < POST_ATTACK_WAIT_TICKS
    && (t == Counting ==> 1 <= cdSeconds <= COUNTDOWN_START)
    && (t == PlaceP2 ==> botTimer < 2 * TICKS_PER_SEC)
  }

  predicate Battle(t: Tag) {
    t == TurnP1 || t == TurnP2 || t == HandoverP1 || t == HandoverP2 || t == GameOver
  }

  /** What each phase requires of the fleets' sizes and of the union. */
  predicate PhaseOk(t: Tag, single: bool, n1: nat, n2: nat, d: Words) {
    && t != Exit && t != Paused
    && (t == WaitingConnect ==> !single && n1 == n2 == 0 && d.w1 == 0 && PlacingWords(d))
    && (t == PlaceP1 ==> n1 == d.w1 && n2 == 0 && PlacingWords(d))
    && (t == PlaceP2 ==> single && n1 == NUM_SHIPS && n2 == 0 && d.w1 == 0 && PlacingWords(d))
    && (t == PlaceWaiting ==> !single && n1 == NUM_SHIPS && n2 <= NUM_SHIPS)
    && (t == Counting || Battle(t) ==> n1 == n2 == NUM_SHIPS)
    && (t == TurnP1 ==> InGrid(Cell(d.w1, d.w2)))
  }

  predicate Peaceful(t: Tag) {
    t == WaitingConnect || t == PlaceP1 || t == PlaceP2 || t == PlaceWaiting || t == Counting
  }

  /** Before the battle no cell was shot and the bot is at rest; it stays at rest against a client. */
  predicate PeaceOk(t: Tag, single: bool, unshot: bool, mode: H.Mode) {
    && (Peaceful(t) ==> unshot && mode == H.Random)
    && (!single && Battle(t) ==> mode == H.Random)
  }

  /** The host pauses only where its keyboard code allows it. */
  predicate PauseOk(tag: Tag, prev: Tag, blocked: bool) {
    tag == Paused ==> prev == PlaceP1 || prev == PlaceP2 || (prev == TurnP1 && !blocked)
  }

  function ActiveEnemy(h: HostState): BoardState {
    if Active(h) == TurnP1 then h.p2 else h.p1
  }

  /** The shot whose explosion is shown, or whose pause runs, is a shot at the opponent's board. */
  predicate ShotOk(t: Tag, enemy: BoardState, e: ExplState, postWait: bool) {
    Unresolved(e) || postWait ==>
      && (t == TurnP1 || t == TurnP2)
      && InGrid(e.at) && e.at in enemy.grid && Attacked(enemy.grid[e.at])
      && (e.isHit <==> H.ReadsHit(enemy, e.at))
  }

  /** The pause after an attack follows a miss and runs with no shot pending. */
  predicate PostWaitOk(tag: Tag, postWait: bool, e: ExplState, enemySunk: bool) {
    postWait ==> (tag == TurnP1 || tag == TurnP2) && !Unresolved(e) && !e.isHit && !enemySunk
  }

  /** The winner is right, and a sunk fleet is announced or about to be. */
  predicate OutcomeOk(tag: Tag, active: Tag, sunk1: bool, sunk2: bool, pending: bool, w0: int) {
    && (sunk1 ==> (tag == GameOver && w0 == 2) || (tag == TurnP2 && pending))
    && (sunk2 ==> (tag == GameOver && w0 == 1) || (active == TurnP1 && pending))
    && (tag == GameOver ==> (w0 == 1 && sunk2 && !sunk1) || (w0 == 2 && sunk1 && !sunk2))
  }

  predicate Control(h: HostState) {
    && Paced(h.expl) && h.cursorTick < 2
    && ClocksOk(Active(h), h.botTimer, h.cdTicks, h.cdSeconds, h.postTicks)
    && PhaseOk(Active(h), h.single, |h.p1.ships|, |h.p2.ships|, h.data)
    && PeaceOk(Active(h), h.single, Unshot(h.p1) && Unshot(h.p2), h.bot.mode)
    && PauseOk(h.tag, h.prev, InputBlocked(h))
    && ShotOk(Active(h), ActiveEnemy(h), h.expl, h.postWait)
    && PostWaitOk(h.tag, h.postWait, h.expl, AllSunk(ActiveEnemy(h)))
    && OutcomeOk(h.tag, Active(h), AllSunk(h.p1), AllSunk(h.p2), Unresolved(h.expl), h.data.w0)
  }

  /** After the result was read in this tick. */
  predicate Settled(h: HostState) {
    InTurn(h) && !h.postWait ==> !h.expl.finished
  }

  // ---------------------------------------------------------------------------------------------
  // The stages of a tick
  // ---------------------------------------------------------------------------------------------

  /** Neither the clocks nor what was sent matter to the control state. */
  lemma ClocksFree(h: HostState, cd: nat, secs: byte, post: byte, cur: byte, sent: seq<Msg>)
    requires Control(h) && cd < TICKS_PER_SEC && post < POST_ATTACK_WAIT_TICKS && cur < 2
    requires h.tag == Counting ==> 1 <= secs <= COUNTDOWN_START
    ensures var h' := h.(cdTicks := cd, cdSeconds := secs, postTicks := post, cursorTick := cur, sent := sent);
            Control(h') && (Settled(h) ==> Settled(h'))
  {
  }

  /** A turn begins, with the cursor home. */
  lemma TurnBegins(h: HostState, turn: Tag, d: Words, secs: byte, sent: seq<Msg>)
    requires Control(h)
    requires (h.tag == Counting && turn == TurnP1) || (h.tag == HandoverP1 && turn == TurnP1)
             || (h.tag == HandoverP2 && turn == TurnP2)
    requires d.w1 == d.w2 == 0
    ensures var h' := h.(tag := turn, prev := h.tag, cdTicks := 0, cdSeconds := secs, data := d, sent := sent);
            Control(h') && Settled(h')
  {
  }

  lemma TurnEnds(h: HostState, d: Words, sent: seq<Msg>)
    requires Control(h) && h.postWait
    ensures var h' := h.(tag := if h.tag == TurnP1 then HandoverP2 else HandoverP1, prev := h.tag, postWait := false,
                         postTicks := 0, cdTicks := 0, data := d, sent := sent);
            Control(h') && Settled(h')
  {
  }

  lemma BattleEnds(h: HostState, d: Words, sent: seq<Msg>)
    requires Control(h) && CanResolve(h) && AllSunk(EnemyBoard(h))
    requires d.w0 == if h.tag == TurnP1 then 1 else 2
    ensures Control(h.(tag := GameOver, prev := h.tag, expl := h.expl.(finished := false), data := d, sent := sent))
  {
  }

  lemma ShotResolved(h: HostState, miss: bool, post: byte, sent: seq<Msg>)
    requires Control(h) && CanResolve(h) && !AllSunk(EnemyBoard(h))
    requires miss <==> !h.expl.isHit
    requires post < POST_ATTACK_WAIT_TICKS
    ensures var h' := h.(expl := h.expl.(finished := false), postWait := miss, postTicks := post, sent := sent);
            Control(h') && Settled(h')
  {
  }

  lemma CountdownKeeps(h: HostState)
    requires Control(h)
    ensures Control(TickCountdown(h))
  {
    var h' := TickCountdown(h);
    CountdownShape(h);
    assert h.cdTicks < TICKS_PER_SEC && h.postTicks < POST_ATTACK_WAIT_TICKS && h.cursorTick < 2;
    assert h.tag == Counting ==> 1 <= h.cdSeconds <= COUNTDOWN_START;
    hide Control, Settled, TickCountdown, AsByte;
    if h'.tag == h.tag {
      ClocksFree(h, h'.cdTicks, h'.cdSeconds, h.postTicks, h.cursorTick, h'.sent);
    } else {
      TurnBegins(h, TurnP1, h'.data, h'.cdSeconds, h'.sent);
    }
  }

  /** The shape of the state after the countdown stage. */
  lemma CountdownShape(h: HostState)
    ensures var h' := TickCountdown(h);
            if h'.tag == h.tag
            then h' == h.(cdTicks := h'.cdTicks, cdSeconds := h'.cdSeconds, sent := h'.sent)
                 && (h.cdTicks < TICKS_PER_SEC ==> h'.cdTicks < TICKS_PER_SEC)
                 && (h.tag == Counting && 1 <= h.cdSeconds <= COUNTDOWN_START ==> 1 <= h'.cdSeconds <= COUNTDOWN_START)
            else h' == h.(tag := TurnP1, prev := h.tag, cdTicks := 0, cdSeconds := h'.cdSeconds, data := h'.data, sent := h'.sent)
                 && h.tag == Counting && h'.data.w1 == h'.data.w2 == 0
  {
    var s := AsByte(h.cdSeconds - 1);
    assert 1 <= h.cdSeconds ==> s == h.cdSeconds - 1;
    hide IfMulti, AsByte;
    if h.tag == Counting && h.cdTicks + 1 >= TICKS_PER_SEC {
      if s == 0 { assert TickCountdown(h).tag == TurnP1; } else { assert TickCountdown(h).cdSeconds == s; }
    }
  }

  lemma ResolveKeeps(h: HostState)
    requires Control(h)
    ensures CanResolve(h) ==> h.expl.at in EnemyBoard(h).grid
    ensures Control(TickResolve(h)) && Settled(TickResolve(h))
  {
    if CanResolve(h) {
      ReadFacts(h);
      var h' := TickResolve(h);
      hide Control, Settled, TickResolve, AllSunk;
      if AllSunk(EnemyBoard(h)) {
        BattleEnds(h, h'.data, h'.sent);
      } else {
        ShotResolved(h, h'.postWait, h'.postTicks, h'.sent);
      }
    }
  }

  /** The shape of the state after a result was read. */
  lemma ReadFacts(h: HostState)
    requires Control(h) && CanResolve(h)
    ensures h.expl.at in EnemyBoard(h).grid
    ensures var h' := TickResolve(h);
            if AllSunk(EnemyBoard(h))
            then h' == h.(tag := GameOver, prev := h.tag, expl := h.expl.(finished := false), data := h'.data, sent := h'.sent)
                 && (h'.data.w0 == if h.tag == TurnP1 then 1 else 2) && !InTurn(h')
            else h' == h.(expl := h.expl.(finished := false), postWait := h'.postWait, postTicks := h'.postTicks, sent := h'.sent)
                 && (h'.postWait <==> !h.expl.isHit) && h'.postTicks < POST_ATTACK_WAIT_TICKS && (h'.postWait ==> h'.postTicks == 0)
  {
    ReadsMiss(h);
    hide Control, AllSunk;
  }

  lemma ReadsMiss(h: HostState)
    requires Control(h) && CanResolve(h)
    ensures h.expl.at in EnemyBoard(h).grid && h.postTicks < POST_ATTACK_WAIT_TICKS
    ensures Report(h).result == ATTACK_MISS <==> !h.expl.isHit
  {
  }

  lemma PostAttackKeeps(h: HostState)
    requires Control(h) && Settled(h)
    ensures Control(TickPostAttack(h)) && Settled(TickPostAttack(h))
  {
    var h' := TickPostAttack(h);
    if h'.tag == h.tag {
      assert h' == h.(postTicks := h'.postTicks);
      ClocksFree(h, h.cdTicks, h.cdSeconds, h'.postTicks, h.cursorTick, h.sent);
    } else {
      assert h' == h.(tag := if h.tag == TurnP1 then HandoverP2 else HandoverP1, prev := h.tag, postWait := false,
                      postTicks := 0, cdTicks := 0, data := h'.data, sent := h'.sent);
      TurnEnds(h, h'.data, h'.sent);
    }
  }

  lemma HandoverKeeps(h: HostState)
    requires Control(h) && Settled(h)
    ensures Control(TickHandover(h)) && Settled(TickHandover(h))
  {
    var h' := TickHandover(h);
    if h'.tag == h.tag {
      assert h' == h.(cdTicks := h'.cdTicks);
      ClocksFree(h, h'.cdTicks, h.cdSeconds, h.postTicks, h.cursorTick, h.sent);
    } else {
      assert h' == h.(tag := h'.tag, prev := h.tag, cdTicks := 0, data := h'.data, sent := h'.sent);
      TurnBegins(h, h'.tag, h'.data, h.cdSeconds, h'.sent);
    }
  }

  lemma CursorKeeps(h: HostState)
    requires Control(h) && Settled(h)
    ensures Control(TickCursor(h)) && Settled(TickCursor(h))
  {
    var h' := TickCursor(h);
    assert h' == h.(cursorTick := h'.cursorTick, sent := h'.sent);
    ClocksFree(h, h.cdTicks, h.cdSeconds, h.postTicks, h'.cursorTick, h'.sent);
  }

  lemma AnimationKeeps(h: HostState)
    requires Control(h)
    ensures Control(h.(expl := Animate(h.expl)))
  {
    AnimatePaced(h.expl);
  }

  // ---------------------------------------------------------------------------------------------
  // Shots, placements and new games
  // ---------------------------------------------------------------------------------------------

  /** A shot at player 2's board; an earlier result that is still to be read is overwritten. */
  lemma ShotAtP2(h: HostState, p2: BoardState, c: Cell)
    requires Control(h) && h.tag == TurnP1 && !InputBlocked(h)
    requires |p2.ships| == NUM_SHIPS && InGrid(c) && c in p2.grid && Attacked(p2.grid[c])
    ensures Control(h.(p2 := p2, expl := StartExplosion(h.expl, c, H.ReadsHit(p2, c))))
  {
  }

  /** A shot at player 1's board, by the bot or by the client; the client's may overtake an earlier one. */
  lemma ShotAtP1(h: HostState, p1: BoardState, c: Cell, bot: H.BotState, timer: byte)
    requires Control(h) && h.tag == TurnP2 && !h.postWait
    requires |p1.ships| == NUM_SHIPS && InGrid(c) && c in p1.grid && Attacked(p1.grid[c])
    requires (h.single || bot == h.bot) && timer <= 2 * TICKS_PER_SEC
    ensures Control(h.(p1 := p1, expl := StartExplosion(h.expl, c, H.ReadsHit(p1, c)), bot := bot, botTimer := timer))
  {
  }

  /** A ship placed by player 1. */
  lemma ShipPlacedByP1(h: HostState, p1: BoardState, timer: byte, sent: seq<Msg>)
    requires Control(h) && h.tag == PlaceP1
    requires |p1.ships| == |h.p1.ships| + 1 && Unshot(p1) && !AllSunk(p1) && timer < 2 * TICKS_PER_SEC
    ensures |p1.ships| < NUM_SHIPS ==> Control(h.(p1 := p1, data := h.data.(w1 := h.data.w1 + 1, w3 := 0, w4 := 0)))
    ensures |p1.ships| == NUM_SHIPS && h.single ==>
      Control(h.(p1 := p1, data := Words(h.data.w0, 0, 0, 0, 0), tag := PlaceP2, prev := h.tag, botTimer := timer, sent := sent))
    ensures |p1.ships| == NUM_SHIPS && !h.single ==>
      Control(h.(p1 := p1, data := Words(h.data.w0, 0, 0, 0, 0), tag := PlaceWaiting, prev := h.tag, sent := sent))
  {
  }

  /** The countdown begins with both fleets complete. */
  lemma CountingBegins(h: HostState, p2: BoardState, timer: byte, sent: seq<Msg>)
    requires Control(h) && (h.tag == PlaceP2 || h.tag == PlaceWaiting)
    requires |p2.ships| == NUM_SHIPS && Unshot(p2) && !AllSunk(p2) && timer <= 2 * TICKS_PER_SEC
    ensures Control(h.(p2 := p2, tag := Counting, prev := h.tag, cdSeconds := COUNTDOWN_START, cdTicks := 0,
                       botTimer := timer, sent := sent))
  {
  }

  /** A ship placed by the client. */
  lemma ShipPlacedByP2(h: HostState, p2: BoardState)
    requires Control(h) && h.tag == PlaceWaiting
    requires |p2.ships| <= NUM_SHIPS && Unshot(p2) && !AllSunk(p2)
    ensures Control(h.(p2 := p2))
  {
  }

  /** Empty boards, nothing shown: the start of a game. */
  lemma GameStarts(h: HostState, b: BoardState, single: bool, conn: bool, ready: bool)
    requires Control(h) && h.tag == MainMenu
    requires |b.ships| == 0 && Unshot(b) && !AllSunk(b)
    ensures Control(h.(p1 := b, p2 := b, expl := ResetExplosion(), bot := H.ResetBot(), single := single,
                       data := Words(1, 0, 0, 0, 0), connected := conn, remoteReady := ready,
                       tag := if single then PlaceP1 else WaitingConnect, prev := h.tag))
  {
  }

  lemma BackToMenu(h: HostState, b: BoardState, d: Words, sent: seq<Msg>)
    requires Control(h) && h.tag == GameOver && !AllSunk(b)
    ensures Control(h.(p1 := b, p2 := b, expl := ResetExplosion(), data := d, tag := MainMenu, prev := h.tag, sent := sent))
  {
  }

  /** Words of the union that the current state does not read, or reads in range. */
  lemma WordsFree(h: HostState, d: Words)
    requires Control(h) && h.tag != GameOver
    requires PhaseOk(Active(h), h.single, |h.p1.ships|, |h.p2.ships|, d)
    ensures Control(h.(data := d))
  {
  }

  lemma PauseKeeps(h: HostState)
    requires Control(h) && (h.tag == PlaceP1 || h.tag == PlaceP2 || (h.tag == TurnP1 && !InputBlocked(h)))
    ensures Control(Transition(h, Paused))
  {
  }

  lemma ResumeKeeps(h: HostState)
    requires Control(h) && h.tag == Paused
    ensures Control(Transition(h, h.prev))
  {
  }
}
