/** A shot of the client that arrives while its own miss is waited out. The host accepts it, its result is read
    in player 1's turn off the wrong board, and the client is told of a hit that never happened. */
module LateShots {
  import opened Boards
  import opened Protocol
  import opened Explosion
  import opened Host
  import opened HostControl
  import opened HostSteps
  import opened HostRuns
  import opened Replica
  import opened Client
  import opened Session
  import opened SessionSteps
  import opened SessionBattle
  import opened SessionRuns
  import opened SessionTheorems
  import H = Hunt
  import R = Rays

  // ---------------------------------------------------------------------------------------------
  // The host's clock outside the invariant
  // ---------------------------------------------------------------------------------------------

  /** A result that is to be read now lies on the grid. */
  predicate CanTick(h: HostState) {
    !h.single && (CanResolve(TickCountdown(h)) ==> TickCountdown(h).expl.at in EnemyBoard(TickCountdown(h)).grid)
  }

  /** `handle_timer` on a host that plays against a client. */
  function TickOn(h: HostState): HostState
    requires CanTick(h)
  {
    var r := TickResolve(TickCountdown(h));
    var b := if r.tag == GameOver && h.tag != GameOver then r else TickCursor(TickHandover(TickPostAttack(r)));
    b.(expl := Animate(b.expl))
  }

  /** In the states of the invariant it is the tick of all runs. */
  lemma TickOnIsTick(h: HostState, pick: Cell, fleet: seq<Placement>)
    requires Inv(h) && FairDraws(h, pick, fleet) && !h.single
    ensures CanTick(h) && TickOn(h) == Tick(h, pick, fleet)
  {
    BeforeBotKeeps(h);
    StagesAre(h);
    var b := BeforeBot(h);
    BotAims(b, pick, fleet);
    BotIdle(b);
    hide Inv, TickCountdown, TickResolve, TickPostAttack, TickHandover, TickCursor, BeforeBot, EndsNow, Animate;
    SameTick(h, pick, fleet, b);
  }

  lemma BotIdle(b: HostState)
    requires !b.single
    ensures !BotReady(b) && !BotFires(b) && !BotPlaces(b)
  {
  }

  lemma SameTick(h: HostState, pick: Cell, fleet: seq<Placement>, b: HostState)
    requires Inv(h) && FairDraws(h, pick, fleet) && b == BeforeBot(h) && !b.single
    ensures Tick(h, pick, fleet) == b.(expl := Animate(b.expl))
  {
    BeforeBotKeeps(h);
    BotAims(b, pick, fleet);
    hide GoodBoard, BotKnows, BeforeBot, Control, Animate;
  }

  /** Nothing but ticks, from `hs[0]` on. */
  predicate TicksOnly(hs: seq<HostState>) {
    forall i :: 0 <= i < |hs| - 1 ==> CanTick(hs[i]) && hs[i + 1] == TickOn(hs[i])
  }

  // ---------------------------------------------------------------------------------------------
  // From the late shot to the report
  // ---------------------------------------------------------------------------------------------

  /** A miss of the client is waited out, and neither board was attacked at `x`. */
  predicate Late(h: HostState, x: Cell) {
    && h.tag == TurnP2 && h.postWait && !h.single
    && InGrid(x) && R.IsFresh(h.p1.grid, x) && R.IsFresh(h.p2.grid, x)
  }

  /** The late shot is shown while the turn passes to player 1. */
  predicate Drifts(h: HostState, x: Cell) {
    && !h.single && Paced(h.expl) && Unresolved(h.expl) && h.expl.at == x
    && InGrid(x) && R.IsFresh(h.p2.grid, x) && !AllSunk(h.p2)
    && match h.tag
       case TurnP2 => h.postWait && h.postTicks < POST_ATTACK_WAIT_TICKS
       case HandoverP1 => !h.postWait && h.cdTicks < TICKS_PER_SEC
       case TurnP1 => !h.postWait
       case _ => false
  }

  /** Ticks until it is player 1's turn. */
  function UntilTurn(h: HostState): int {
    match h.tag
    case TurnP2 => POST_ATTACK_WAIT_TICKS - h.postTicks + TICKS_PER_SEC - 1
    case HandoverP1 => TICKS_PER_SEC - h.cdTicks
    case _ => 0
  }

  /** Ticks until the tick that reads the result. */
  function UntilRead(h: HostState): int
    requires Paced(h.expl)
  {
    if UntilTurn(h) > TicksLeft(h.expl) then UntilTurn(h) else TicksLeft(h.expl)
  }

  lemma LateFacts(h: HostState, x: Cell)
    requires Inv(h) && Late(h, x)
    ensures !AllSunk(h.p2) && !Unresolved(h.expl) && h.postTicks < POST_ATTACK_WAIT_TICKS && x in h.p1.grid
  {
  }

  lemma LateShotDrifts(h: HostState, m: Msg, x: Cell)
    requires Inv(h) && Late(h, x) && m.AttackMsg? && Cell(m.col, m.row) == x
    ensures x in h.p1.grid
    ensures var r := HandleMsg(h, m); Drifts(r, x) && r.sent == h.sent && r.p2 == h.p2 && r.tag == TurnP2
    ensures var r := HandleMsg(h, m); r.p1 == Attack(h.p1, x) && r.connected == h.connected
  {
    hide Inv, Attack, AllSunk;
    LateFacts(h, x);
    StartedShot(h.expl, x, H.ReadsHit(Attack(h.p1, x), x));
    hide StartExplosion, Paced, Unresolved;
  }

  lemma StartedShot(e: ExplState, x: Cell, hit: bool)
    requires !Unresolved(e)
    ensures var e' := StartExplosion(e, x, hit); Paced(e') && Unresolved(e') && e'.at == x
  {
  }

  lemma NotReadYet(h: HostState, x: Cell)
    requires Drifts(h, x) && UntilRead(h) > 0
    ensures CanTick(h) && !CanResolve(h) && TickCountdown(h) == h
  {
  }

  /** The clock stages while the late shot drifts. */
  lemma DriftStages(h: HostState, x: Cell)
    requires Drifts(h, x)
    ensures var p := TickHandover(TickPostAttack(h));
            && SameArena(h, p) && p.expl == h.expl
            && (p.tag == TurnP2 || p.tag == HandoverP1 || p.tag == TurnP1) && Drifts(p, x)
            && UntilTurn(p) == (if UntilTurn(h) > 0 then UntilTurn(h) - 1 else 0)
            && p.cursorTick == h.cursorTick
  {
    hide Paced, Unresolved, AllSunk, R.IsFresh;
    if h.tag == TurnP2 && h.postTicks + 1 < POST_ATTACK_WAIT_TICKS {
      assert TickPostAttack(h) == h.(postTicks := h.postTicks + 1);
    }
  }

  lemma AnimatedDrift(p: HostState, x: Cell)
    requires Drifts(p, x)
    ensures var r := TickCursor(p).(expl := Animate(p.expl));
            && Drifts(r, x) && UntilTurn(r) == UntilTurn(p) && SameArena(p, r)
            && TicksLeft(r.expl) == (if TicksLeft(p.expl) > 0 then TicksLeft(p.expl) - 1 else 0)
  {
    AnimatePaced(p.expl);
    hide Paced, Animate, TicksLeft, AllSunk, R.IsFresh;
  }

  /** A tick brings the reading one tick nearer. */
  lemma DriftTick(h: HostState, x: Cell)
    requires Drifts(h, x) && UntilRead(h) > 0
    ensures CanTick(h)
    ensures var r := TickOn(h); Drifts(r, x) && UntilRead(r) == UntilRead(h) - 1 && SameArena(h, r)
  {
    NotReadYet(h, x);
    DriftStages(h, x);
    var p := TickHandover(TickPostAttack(h));
    AnimatedDrift(p, x);
    hide TickCountdown, TickPostAttack, TickHandover, TickCursor, Animate, TicksLeft, Drifts, CanResolve;
    OneStageTick(h, p);
  }

  lemma OneStageTick(h: HostState, p: HostState)
    requires CanTick(h) && TickCountdown(h) == h && !CanResolve(h) && p == TickHandover(TickPostAttack(h))
    ensures TickOn(h) == TickCursor(p).(expl := Animate(p.expl))
  {
    hide TickPostAttack, TickHandover, TickCursor, Animate;
  }

  /** What such a tick sends: the state that begins with it, and perhaps the cursor. */
  predicate Sends(h: HostState, r: HostState, cursor: seq<Msg>) {
    && r.sent == h.sent + (if r.tag == h.tag then [] else [State(TagByte(r.tag))]) + cursor
    && |cursor| <= 1 && (forall m :: m in cursor ==> m.Cursor?)
    && (r.tag == TurnP1 || r.tag == TurnP2 || r.tag == HandoverP1)
  }

  lemma StageSends(h: HostState, x: Cell)
    requires Drifts(h, x)
    ensures var p := TickHandover(TickPostAttack(h));
            p.sent == h.sent + if p.tag == h.tag then [] else [State(TagByte(p.tag))]
  {
    hide Paced, Unresolved, AllSunk, R.IsFresh;
    if h.tag == TurnP2 && h.postTicks + 1 < POST_ATTACK_WAIT_TICKS {
      assert TickPostAttack(h) == h.(postTicks := h.postTicks + 1);
    }
  }

  lemma CursorSent(p: HostState) returns (cursor: seq<Msg>)
    ensures TickCursor(p).sent == p.sent + cursor && TickCursor(p).tag == p.tag
    ensures |cursor| <= 1 && forall m :: m in cursor ==> m.Cursor?
  {
    cursor := TickCursor(p).sent[|p.sent|..];
    hide AsByte;
  }

  lemma DriftSends(h: HostState, x: Cell) returns (cursor: seq<Msg>)
    requires Drifts(h, x) && UntilRead(h) > 0
    ensures CanTick(h) && Sends(h, TickOn(h), cursor)
  {
    NotReadYet(h, x);
    DriftStages(h, x);
    StageSends(h, x);
    var p := TickHandover(TickPostAttack(h));
    cursor := CursorSent(p);
    hide TickCountdown, TickPostAttack, TickHandover, TickCursor, Animate, TicksLeft, Drifts, CanResolve, TagByte;
    OneStageTick(h, p);
  }

  lemma StateNet(ms: seq<Msg>, t: Tag, own: BoardState)
    ensures NetOf(ms + [State(TagByte(t))], own) == NetOf(ms, own).(last := t)
  {
    NetMore(ms, State(TagByte(t)), own);
    hide NetOf;
  }

  lemma CursorNet(ms: seq<Msg>, cursor: seq<Msg>, own: BoardState)
    requires |cursor| <= 1 && forall m :: m in cursor ==> m.Cursor?
    ensures NetOf(ms + cursor, own) == NetOf(ms, own) && AddsQuietly(ms, ms + cursor)
  {
    hide NetOf;
    if cursor == [] {
      assert ms + cursor == ms;
    } else {
      assert cursor[0] in cursor && cursor == [cursor[0]];
      NetMore(ms, cursor[0], own);
    }
  }

  lemma NewStateSent(ms: seq<Msg>, was: Tag, now: Tag, own: BoardState)
    requires NetOf(ms, own).last == was && (now == TurnP1 || now == TurnP2 || now == HandoverP1)
    ensures var mid := ms + if now == was then [] else [State(TagByte(now))];
            NetOf(mid, own) == NetOf(ms, own).(last := now) && AddsQuietly(ms, mid)
  {
    hide NetOf;
    if now == was { assert ms + [] == ms; } else { StateNet(ms, now, own); }
  }

  /** The messages leave the boards alone and announce the state. */
  lemma SendsNet(h: HostState, r: HostState, cursor: seq<Msg>, own: BoardState)
    requires Sends(h, r, cursor) && NetOf(h.sent, own).last == h.tag
    ensures NetOf(r.sent, own) == NetOf(h.sent, own).(last := r.tag) && AddsQuietly(h.sent, r.sent)
  {
    hide NetOf, AddsQuietly, TagByte;
    var mid := h.sent + if r.tag == h.tag then [] else [State(TagByte(r.tag))];
    NewStateSent(h.sent, h.tag, r.tag, own);
    CursorNet(mid, cursor, own);
    AddsMore(h.sent, mid, mid + cursor);
  }

  // ---------------------------------------------------------------------------------------------
  // The report
  // ---------------------------------------------------------------------------------------------

  /** The result is read off player 2's board, where nothing was shot at: the report is a hit. */
  lemma WrongReport(h: HostState, x: Cell)
    requires Drifts(h, x) && UntilRead(h) == 0
    ensures CanTick(h) && h.tag == TurnP1
    ensures SameArena(h, TickOn(h)) && TickOn(h).tag == TurnP1
    ensures h.sent + [AttackMsg(x.col, x.row, ATTACK_HIT)] <= TickOn(h).sent
    ensures forall k :: |h.sent| < k < |TickOn(h).sent| ==> TickOn(h).sent[k].Cursor?
  {
    assert h.tag == TurnP1 && h.expl.finished && CanResolve(h) && TickCountdown(h) == h;
    assert AsByte(x.col) == x.col && AsByte(x.row) == x.row && Report(h) == AttackMsg(x.col, x.row, ATTACK_HIT);
    var r := TickResolve(h);
    assert r.tag == TurnP1 && !r.postWait && r.sent == h.sent + [Report(h)];
    assert TickHandover(TickPostAttack(r)) == r;
    hide TickResolve, TickHandover, TickPostAttack, TickCountdown, AllSunk, Report, Paced, Animate, Drifts;
    var cursor := CursorSent(r);
  }

  /** Ticks alone lead from a late shot to its reading: `hs` ends with the tick that is to read it. */
  lemma DriftOn(h: HostState, x: Cell, own: BoardState, n: int) returns (hs: seq<HostState>)
    requires Drifts(h, x) && NetOf(h.sent, own).last == h.tag && n == UntilRead(h)
    ensures |hs| >= 1 && |hs| == n + 1 && hs[0] == h && TicksOnly(hs)
    ensures var e := hs[|hs| - 1];
            && Drifts(e, x) && UntilRead(e) == 0 && SameArena(h, e)
            && NetOf(e.sent, own) == NetOf(h.sent, own).(last := e.tag) && AddsQuietly(h.sent, e.sent)
    decreases n
  {
    hide Drifts, TickOn, CanTick, NetOf, AddsQuietly, Paced, TicksLeft, UntilTurn, UntilRead, Sends, TicksOnly;
    if n <= 0 {
      NoTimeLeft(h, x);
      hs := [h];
      NothingAdded(h, own);
    } else {
      DriftTick(h, x);
      var cursor := DriftSends(h, x);
      var r := TickOn(h);
      SendsNet(h, r, cursor, own);
      var rest := DriftOn(r, x, own, n - 1);
      hs := [h] + rest;
      OneMoreTick(h, rest);
      AddsMore(h.sent, r.sent, hs[|hs| - 1].sent);
    }
  }

  lemma DriftIsPaced(h: HostState, x: Cell)
    requires Drifts(h, x)
    ensures Paced(h.expl)
  {
  }

  lemma NoTimeLeft(h: HostState, x: Cell)
    requires Drifts(h, x) && UntilRead(h) <= 0
    ensures UntilRead(h) == 0 && TicksOnly([h])
  {
  }

  lemma NothingAdded(h: HostState, own: BoardState)
    requires NetOf(h.sent, own).last == h.tag
    ensures NetOf(h.sent, own) == NetOf(h.sent, own).(last := h.tag) && AddsQuietly(h.sent, h.sent)
  {
    hide NetOf;
  }

  lemma OneMoreTick(h: HostState, rest: seq<HostState>)
    requires rest != [] && CanTick(h) && rest[0] == TickOn(h) && TicksOnly(rest)
    ensures TicksOnly([h] + rest)
  {
    hide CanTick, TickOn;
    var hs := [h] + rest;
    forall i | 0 <= i < |hs| - 1
      ensures CanTick(hs[i]) && hs[i + 1] == TickOn(hs[i])
    {
      if i > 0 { assert hs[i] == rest[i - 1] && hs[i + 1] == rest[i - 1 + 1]; }
    }
  }

  /** Nothing but ticks after a late shot: there is a tick that reports a hit on player 2's board, in player 1's
      turn, at a cell where nobody shot. */
  lemma LateShotIsMisread(h: HostState, m: Msg, x: Cell, own: BoardState) returns (hs: seq<HostState>)
    requires Inv(h) && Late(h, x) && m.AttackMsg? && Cell(m.col, m.row) == x && NetOf(h.sent, own).last == TurnP2
    ensures x in h.p1.grid
    ensures |hs| >= 2 && hs[0] == HandleMsg(h, m) && TicksOnly(hs)
    ensures var e, r := hs[|hs| - 2], hs[|hs| - 1];
            && e.tag == TurnP1 && SameArena(hs[0], r) && r.tag == TurnP1 && r.p2 == h.p2 && x !in ShotsOf(r.p2)
            && NetOf(e.sent, own) == NetOf(h.sent, own).(last := TurnP1) && AddsQuietly(h.sent, e.sent)
            && e.sent + [AttackMsg(x.col, x.row, ATTACK_HIT)] <= r.sent
            && forall k :: |e.sent| < k < |r.sent| ==> r.sent[k].Cursor?
  {
    hide Inv, HandleMsg, NetOf, Drifts, TickOn, CanTick, AddsQuietly, Late, UntilRead, TicksLeft, Paced;
    LateShotDrifts(h, m, x);
    DriftIsPaced(HandleMsg(h, m), x);
    NotShotAt(h, x);
    var before := DriftOn(HandleMsg(h, m), x, own, UntilRead(HandleMsg(h, m)));
    var e := before[|before| - 1];
    WrongReport(e, x);
    hs := before + [TickOn(e)];
    LastTick(before);
  }

  lemma NotShotAt(h: HostState, x: Cell)
    requires Late(h, x)
    ensures x !in ShotsOf(h.p2)
  {
  }

  lemma LastTick(hs: seq<HostState>)
    requires hs != [] && TicksOnly(hs) && CanTick(hs[|hs| - 1])
    ensures TicksOnly(hs + [TickOn(hs[|hs| - 1])])
  {
    hide CanTick, TickOn;
    var all := hs + [TickOn(hs[|hs| - 1])];
    forall i | 0 <= i < |all| - 1
      ensures CanTick(all[i]) && all[i + 1] == TickOn(all[i])
    {
      if i < |hs| - 1 { assert all[i] == hs[i] && all[i + 1] == hs[i + 1]; }
    }
  }

  // ---------------------------------------------------------------------------------------------
  // What the client makes of it
  // ---------------------------------------------------------------------------------------------

  /** The client has handled the messages `ms`, one after the other. */
  ghost predicate HearsAll(c: ClientState, ms: seq<Msg>, c': ClientState)
    decreases ms
  {
    if ms == [] then c' == c
    else
      && (ms[0].AttackMsg? ==> Cell(ms[0].col, ms[0].row) in Target(c).grid)
      && HearsAll(Hear(c, ms[0]), ms[1..], c')
  }

  /** It can handle the rest of a log, and is then where the messages are. */
  lemma {:induction false} HearsRest(c: ClientState, sent: seq<Msg>, f: seq<Placement>, heard: nat) returns (c': ClientState)
    requires LogOk(TurnP1, sent, f) && FullFleet(f) && heard <= |sent| && Follows(c, sent[..heard])
    ensures HearsAll(c, sent[heard..], c') && Follows(c', sent) && FleetOf(c'.p2) == FleetOf(c.p2)
    decreases |sent| - heard
  {
    hide LogOk, FullFleet, Follows, Hear, Sensible, FleetOf;
    if heard == |sent| {
      assert sent[..heard] == sent && sent[heard..] == [];
      c' := c;
    } else {
      var m := sent[heard];
      NextInLog(c, sent, f, heard);
      HearFollows(c, sent[..heard], m);
      assert sent[..heard] + [m] == sent[..heard + 1];
      c' := HearsRest(Hear(c, m), sent, f, heard + 1);
      assert sent[heard..][0] == m && sent[heard..][1..] == sent[heard + 1..];
    }
  }

  lemma NextInLog(c: ClientState, sent: seq<Msg>, f: seq<Placement>, heard: nat)
    requires LogOk(TurnP1, sent, f) && FullFleet(f) && heard < |sent| && Follows(c, sent[..heard])
    ensures Sensible(sent[heard], |c.p2.ships|, |c.p1.ships|)
  {
    hide Follows, LogOk, Sensible;
    NextIsSensible(TurnP1, sent, f, c, heard);
  }

  /** The report is a message of the battle. */
  lemma WrongLog(sent: seq<Msg>, mid: seq<Msg>, sent': seq<Msg>, f: seq<Placement>, x: Cell)
    requires LogOk(TurnP2, sent, f) && AddsQuietly(sent, mid) && InGrid(x)
    requires mid + [AttackMsg(x.col, x.row, ATTACK_HIT)] <= sent' && forall k :: |mid| < k < |sent'| ==> sent'[k].Cursor?
    ensures LogOk(TurnP1, sent', f) && sent <= sent'
  {
    assert sent'[..OPENING] == sent[..OPENING];
    assert sent'[|mid|] == AttackMsg(x.col, x.row, ATTACK_HIT);
    forall k | OPENING <= k < |sent'|
      ensures BattleMsg(sent'[k])
    {
      if k < |sent| { assert sent'[k] == sent[k]; }
      else if k < |mid| { assert sent'[k] == mid[k]; }
    }
    hide Opening;
  }

  /** The copy of player 2's board shows a hit at `x`. */
  lemma WrongNet(mid: seq<Msg>, sent': seq<Msg>, own: BoardState, x: Cell)
    requires NetOf(mid, own).last == TurnP1 && x in NetOf(mid, own).p2.grid && InGrid(x)
    requires mid + [AttackMsg(x.col, x.row, ATTACK_HIT)] <= sent' && forall k :: |mid| < k < |sent'| ==> sent'[k].Cursor?
    ensures var n := NetOf(sent', own); x in n.p2.grid && n.p2.grid[x] == Hit
  {
    var report := AttackMsg(x.col, x.row, ATTACK_HIT);
    NetMore(mid, report, own);
    assert sent'[..|mid| + 1] == mid + [report];
    hide NetOf;
    SameNetBoards(sent', |mid| + 1, own);
  }

  /** A copy that shows nothing false shows hits only where the host's board was shot at. */
  lemma TrueHit(b: BoardState, r: BoardState, x: Cell)
    requires x in r.grid && r.grid[x] == Hit
    ensures ShowsSome(b, r) ==> x in ShotsOf(b)
  {
    if ShowsSome(b, r) {
      var s: set<Cell> :| s <= ShotsOf(b) && Agree(BoardOf(FleetOf(b), s), r);
      assert StateOf(FleetOf(b), s, x) == Hit && x in s;
    }
  }

  /** The next message of the client is a late shot. */
  ghost predicate LateShot(s: Pair, x: Cell) {
    && Late(s.h, x) && s.read < |s.c.sent|
    && s.c.sent[s.read].AttackMsg? && Cell(s.c.sent[s.read].col, s.c.sent[s.read].row) == x
  }

  /** Without the premise on late shots the client does show something false: the host reads the shot, nothing
      but ticks happen on it until the result is reported, and a client that then hears everything shows a hit on
      its own board where the host's board has taken no shot. */
  lemma LateShotDeceives(s: Pair, x: Cell) returns (hs: seq<HostState>, c': ClientState)
    requires SessionInv(s) && LateShot(s, x)
    ensures x in s.h.p1.grid && s.heard <= |s.h.sent|
    ensures |hs| >= 2 && hs[0] == HandleMsg(s.h, s.c.sent[s.read]) && TicksOnly(hs)
    ensures var h := hs[|hs| - 1];
            && s.h.sent <= h.sent && HearsAll(s.c, h.sent[s.heard..], c')
            && h.p2 == s.h.p2 && x !in ShotsOf(h.p2)
            && x in c'.p2.grid && c'.p2.grid[x] == Hit && !ShowsSome(h.p2, c'.p2)
  {
    hide SessionInv, Linked, HostSide, Mirrored, Inv, Follows, Sync, NetOf, FleetOf, HandleMsg, TicksOnly, Late, LogOk, AddsQuietly, HearsAll, ShowsSome;
    LateParts(s, x);
    var own := Own(s.h);
    hs := LateShotIsMisread(s.h, s.c.sent[s.read], x, own);
    var e, h := hs[|hs| - 2], hs[|hs| - 1];
    WrongLog(s.h.sent, e.sent, h.sent, FleetOf(s.h.p1), x);
    assert h.sent[..s.heard] == s.h.sent[..s.heard];
    c' := HearsRest(s.c, h.sent, FleetOf(s.h.p1), s.heard);
    WrongNet(e.sent, h.sent, own, x);
    FollowsNet(c', h.sent, own);
    TrueHit(h.p2, c'.p2, x);
  }

  lemma FollowsNet(c: ClientState, heard: seq<Msg>, own: BoardState)
    requires Follows(c, heard) && own == BoardOf(FleetOf(c.p2), {})
    ensures c.p2 == NetOf(heard, own).p2
  {
    hide NetOf, BoardOf, FleetOf;
  }

  lemma LateParts(s: Pair, x: Cell)
    requires SessionInv(s) && LateShot(s, x)
    ensures Inv(s.h) && Late(s.h, x) && InGrid(x) && s.heard <= |s.h.sent| && Follows(s.c, s.h.sent[..s.heard])
    ensures NetOf(s.h.sent, Own(s.h)).last == TurnP2 && x in NetOf(s.h.sent, Own(s.h)).p2.grid
    ensures LogOk(TurnP2, s.h.sent, FleetOf(s.h.p1)) && FullFleet(FleetOf(s.h.p1)) && FleetOf(s.c.p2) == FleetOf(s.h.p2)
  {
    FleetRead(s);
    BattleFacts(s);
    LinkedParts(s);
    hide SessionInv, Mirrored, Follows, NetOf, FullFleet, Inv, LogOk;
    TargetGrid(s.h, NetOf(s.h.sent, Own(s.h)), s.on1, s.on2, x);
  }

  lemma TargetGrid(h: HostState, n: Net, on1: Shots, on2: Shots, x: Cell)
    requires Sync(h, n, on1, on2) && InGrid(x)
    ensures x in n.p2.grid
  {
  }
}
