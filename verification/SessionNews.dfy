/** What each machine learns about the other besides ships and shots: the countdown, the cursors, the end of the
    program, and above all who has won. */
module SessionNews {
  import opened Boards
  import opened Protocol
  import opened Explosion
  import opened Host
  import opened HostControl
  import opened HostSteps
  import opened HostRuns
  import opened HostProgress
  import opened Client
  import opened Session
  import opened SessionBattle
  import opened SessionRuns
  import opened SessionTheorems

  // ---------------------------------------------------------------------------------------------
  // News
  // ---------------------------------------------------------------------------------------------

  /** What messages tell: the seconds of the countdown, a winner, and whether the game is over. */
  datatype News = News(seconds: Option<byte>, winner: Option<byte>, over: bool)

  function NewsStep(n: News, m: Msg): News {
    match m
    case Countdown(s) => n.(seconds := Some(s))
    case Winner(w) => n.(winner := Some(w))
    case State(t) => if TagOf(t) == GameOver then n.(over := true) else n
    case _ => n
  }

  function Told(ms: seq<Msg>): News
    decreases ms
  {
    if ms == [] then News(None, None, false) else NewsStep(Told(ms[..|ms| - 1]), ms[|ms| - 1])
  }

  lemma ToldMore(ms: seq<Msg>, m: Msg)
    ensures Told(ms + [m]) == NewsStep(Told(ms), m)
  {
    assert (ms + [m])[..|ms|] == ms;
  }

  /** A message of the game as it goes on. */
  predicate Ordinary(m: Msg) {
    !m.Countdown? && !m.Winner? && (m.State? ==> TagOf(m.state) != GameOver)
  }

  predicate AddsOrdinary(was: seq<Msg>, now: seq<Msg>) {
    was <= now && forall k :: |was| <= k < |now| ==> Ordinary(now[k])
  }

  lemma {:induction false} OrdinaryTellsNothing(was: seq<Msg>, now: seq<Msg>)
    requires AddsOrdinary(was, now)
    ensures Told(now) == Told(was)
    decreases |now|
  {
    if |was| < |now| {
      var n := |now| - 1;
      assert was <= now[..n];
      OrdinaryTellsNothing(was, now[..n]);
    } else {
      assert was == now;
    }
  }

  /** The end is told once and for all. */
  lemma {:induction false} OverStaysTold(ms: seq<Msg>, k: nat)
    requires k <= |ms| && Told(ms[..k]).over
    ensures Told(ms).over
    decreases |ms|
  {
    if k < |ms| {
      var n := |ms| - 1;
      assert ms[..n][..k] == ms[..k];
      OverStaysTold(ms[..n], k);
    } else {
      assert ms[..k] == ms;
    }
  }

  lemma {:induction false} LastIsOver(ms: seq<Msg>, own: BoardState)
    requires NetOf(ms, own).last == GameOver
    ensures Told(ms).over
    decreases |ms|
  {
    if ms != [] {
      var n := |ms| - 1;
      if NetOf(ms[..n], own).last == GameOver { LastIsOver(ms[..n], own); }
    }
  }

  // ---------------------------------------------------------------------------------------------
  // The host's log
  // ---------------------------------------------------------------------------------------------

  /** The last two messages of a game: who has won, and that it is over. */
  predicate EndsWith(sent: seq<Msg>, w: int) {
    var n := |sent|;
    && n >= 2 && 0 <= w < 256 && sent[n - 2] == Winner(w) && sent[n - 1] == State(TagByte(GameOver))
    && Told(sent[..n - 1]).over == false
  }

  /** The host has told the seconds that it counts, and of a winner exactly if the game is over. */
  predicate NewsOk(h: HostState) {
    && (h.tag == Counting ==> Told(h.sent).seconds == Some(h.cdSeconds))
    && (h.tag != GameOver ==> Told(h.sent).winner == None && !Told(h.sent).over)
    && (h.tag == GameOver ==> EndsWith(h.sent, h.data.w0))
  }

  lemma OrdinaryNews(h: HostState, r: HostState)
    requires NewsOk(h) && AddsOrdinary(h.sent, r.sent)
    requires h.tag != GameOver && r.tag != GameOver && (r.tag == Counting ==> h.tag == Counting && r.cdSeconds == h.cdSeconds)
    ensures NewsOk(r)
  {
    OrdinaryTellsNothing(h.sent, r.sent);
    hide AddsOrdinary, Told, EndsWith;
  }

  lemma CountdownNews(h: HostState)
    requires NewsOk(h) && !h.single
    ensures NewsOk(TickCountdown(h))
  {
    var r := TickCountdown(h);
    if r.sent == h.sent + [Countdown(r.cdSeconds)] { ToldMore(h.sent, Countdown(r.cdSeconds)); }
    else if r.sent == h.sent + [State(TagByte(TurnP1))] { ToldMore(h.sent, State(TagByte(TurnP1))); }
    hide Told, EndsWith, AsByte;
  }

  /** The announced winner is the player in turn. */
  lemma EndNews(sent: seq<Msg>, report: Msg, w: byte)
    requires report.AttackMsg? && !Told(sent).over
    ensures EndsWith(sent + [report] + [Winner(w)] + [State(TagByte(GameOver))], w)
  {
    var a := sent + [report];
    var b := a + [Winner(w)];
    var c := b + [State(TagByte(GameOver))];
    ToldMore(sent, report);
    ToldMore(a, Winner(w));
    assert c[..|c| - 1] == b;
    hide Told;
  }

  lemma ReportIsOrdinary(sent: seq<Msg>, report: Msg)
    requires report.AttackMsg?
    ensures AddsOrdinary(sent, sent + [report])
  {
  }

  lemma ResolveNews(h: HostState)
    requires Control(h) && NewsOk(h) && !h.single && (CanResolve(h) ==> InTurn(h))
    ensures CanResolve(h) ==> h.expl.at in EnemyBoard(h).grid
    ensures NewsOk(TickResolve(h))
  {
    if CanResolve(h) {
      ReadFacts(h);
      ResolveSends(h);
      ReportIsShot(h);
      var r := TickResolve(h);
      hide Control, TickResolve, CanResolve, AllSunk, Report, NewsStep, EndsWith, Told;
      if AllSunk(EnemyBoard(h)) {
        EndNews(h.sent, Report(h), if h.tag == TurnP1 then 1 else 2);
      } else {
        ReportIsOrdinary(h.sent, Report(h));
        OrdinaryNews(h, r);
      }
    }
  }

  lemma ReportIsShot(h: HostState)
    requires h.expl.at in EnemyBoard(h).grid
    ensures Report(h).AttackMsg?
  {
  }

  lemma PauseSaysOrdinary(h: HostState)
    requires !h.single
    ensures AddsOrdinary(h.sent, TickPostAttack(h).sent)
  {
    hide AsByte;
  }

  lemma HandoverSaysOrdinary(h: HostState)
    requires !h.single
    ensures AddsOrdinary(h.sent, TickHandover(h).sent)
  {
  }

  lemma CursorSaysOrdinary(h: HostState)
    requires !h.single
    ensures AddsOrdinary(h.sent, TickCursor(h).sent)
  {
    hide AsByte;
  }

  lemma OrdinaryTwice(a: seq<Msg>, b: seq<Msg>, c: seq<Msg>)
    requires AddsOrdinary(a, b) && AddsOrdinary(b, c)
    ensures AddsOrdinary(a, c)
  {
  }

  lemma LateNews(h: HostState)
    requires NewsOk(h) && !h.single && h.tag != GameOver && (h.postWait ==> InTurn(h))
    ensures NewsOk(TickCursor(TickHandover(TickPostAttack(h))))
  {
    var a := TickPostAttack(h);
    var b := TickHandover(a);
    var c := TickCursor(b);
    PauseSaysOrdinary(h);
    HandoverSaysOrdinary(a);
    CursorSaysOrdinary(b);
    OrdinaryTwice(h.sent, a.sent, b.sent);
    OrdinaryTwice(h.sent, b.sent, c.sent);
    LateCounting(h);
    hide TickPostAttack, TickHandover, TickCursor, NewsOk, AddsOrdinary;
    NotOverLater(h);
    OrdinaryNews(h, c);
  }

  lemma LateCounting(h: HostState)
    requires h.postWait ==> InTurn(h)
    ensures var c := TickCursor(TickHandover(TickPostAttack(h)));
            c.tag == Counting ==> h.tag == Counting && c.cdSeconds == h.cdSeconds
  {
    var a := TickPostAttack(h);
    assert a.cdSeconds == h.cdSeconds && (a.tag == Counting ==> h.tag == Counting);
    var b := TickHandover(a);
    assert b.cdSeconds == a.cdSeconds && (b.tag == Counting ==> a.tag == Counting) by { hide TickPostAttack; }
    hide TickPostAttack, TickHandover;
  }

  lemma NothingSaidAtEnd(h: HostState)
    requires Control(h) && h.tag == GameOver
    ensures var b := BeforeBot(h); b.sent == h.sent && b.tag == GameOver && b.data == h.data
  {
    StagesAre(h);
    assert TickCountdown(h) == h && TickResolve(h) == h && TickPostAttack(h) == h && TickHandover(h) == h;
    assert h.sent + [] == h.sent;
    hide Control, TickCountdown, TickResolve, TickPostAttack, TickHandover, BeforeBot;
  }

  lemma PauseInTurn(h: HostState)
    requires Control(h)
    ensures h.postWait ==> InTurn(h)
    ensures CanResolve(h) ==> InTurn(h)
    ensures h.tag != GameOver ==> TickCountdown(h).tag != GameOver
  {
  }

  lemma StagesNews(h: HostState)
    requires Control(h) && NewsOk(h) && !h.single
    ensures NewsOk(BeforeBot(h))
  {
    if h.tag == GameOver {
      NothingSaidAtEnd(h);
      hide BeforeBot, Control, Told;
    } else {
      var a := TickCountdown(h);
      CountdownKeeps(h);
      ResolveKeeps(a);
      StagesAre(h);
      CountdownNews(h);
      PauseInTurn(h);
      assert !a.single;
      hide TickCountdown, TickPostAttack, TickHandover, TickCursor, NewsOk, BeforeBot, EndsNow;
      PauseInTurn(a);
      ResolveNews(a);
      var r := TickResolve(a);
      assert !r.single;
      PauseInTurn(r);
      hide TickResolve, Control, CanResolve;
      if r.tag != GameOver { LateNews(r); }
    }
  }

  lemma TickNews(h: HostState, pick: Cell, fleet: seq<Placement>)
    requires Inv(h) && FairDraws(h, pick, fleet) && NewsOk(h) && !h.single && Started(Active(h))
    ensures NewsOk(Tick(h, pick, fleet))
  {
    assert Control(h);
    hide Inv, Control, BeforeBot, Tick, EndsNow, Animate, Told, EndsWith, FairDraws;
    StagesNews(h);
    BeforeBotKeeps(h);
    TickStaysInBattle(h);
    TickWithoutBot(h, pick, fleet, BeforeBot(h));
  }

  /** After the game input changes nothing but the exit flag, unless it leads to the menu. */
  lemma InputAtEnd(h: HostState, e: Event)
    requires Inv(h) && Enabled(h, e) && !e.TickEvent? && h.tag == GameOver && Apply(h, e).tag != MainMenu
    ensures Apply(h, e).data == h.data && Apply(h, e).cdSeconds == h.cdSeconds
  {
    hide Inv, HandleKey, HandleMouse, HandleMsg, CursorSafe, MsgOk, PlacesForBot;
    InputSafe(h);
    match e
    case KeyEvent(code, make) => KeyAtEndKeeps(h, code, make);
    case MouseMove(m) => MouseAtEnd(h, m);
    case Incoming(msg) => MsgKeeps(h, msg); MsgAtEnd(h, msg);
  }

  lemma KeyAtEndKeeps(h: HostState, code: KeyCode, make: bool)
    requires CursorSafe(h) && h.tag == GameOver && HandleKey(h, code, make).tag != MainMenu
    ensures HandleKey(h, code, make).data == h.data && HandleKey(h, code, make).cdSeconds == h.cdSeconds
  {
    hide InitialBoard;
  }

  lemma MouseAtEnd(h: HostState, m: MouseEvent)
    requires CursorSafe(h) && MouseOk(m) && h.tag == GameOver
    ensures HandleMouse(h, m) == h
  {
  }

  lemma MsgAtEnd(h: HostState, m: Msg)
    requires h.tag == GameOver
    ensures HandleMsg(h, m).data == h.data && HandleMsg(h, m).cdSeconds == h.cdSeconds
  {
    hide PlaceShip, ShipOf;
  }

  lemma InputNews(h: HostState, e: Event)
    requires HostSide(h) && Started(Active(h)) && Enabled(h, e) && !e.TickEvent? && Apply(h, e).tag != MainMenu && NewsOk(h)
    ensures Inv(h) && NewsOk(Apply(h, e))
  {
    LinkedInv(h);
    InputHost(h, e);
    var r := Apply(h, e);
    TagsOfNews(h, r);
    if h.tag == GameOver { InputAtEnd(h, e); }
    if h.tag == Counting { CountingGoesOn(h, e); }
    hide HostSide, Inv, Enabled, Apply, Told, EndsWith;
  }

  lemma CountingGoesOn(h: HostState, e: Event)
    requires Inv(h) && Enabled(h, e) && !e.TickEvent? && h.tag == Counting
    ensures Apply(h, e).cdSeconds == h.cdSeconds
  {
    InputIgnored(h, e);
    hide Inv, Enabled, Apply;
  }

  lemma LinkedInv(h: HostState)
    requires HostSide(h)
    ensures Inv(h)
  {
  }

  lemma TagsOfNews(h: HostState, r: HostState)
    requires Control(h) && Control(r) && Active(r) == Active(h)
    ensures (r.tag == GameOver <==> h.tag == GameOver) && (r.tag == Counting <==> h.tag == Counting)
  {
  }

  // ---------------------------------------------------------------------------------------------
  // Steps of the host
  // ---------------------------------------------------------------------------------------------

  lemma PlacingNews(h: HostState, r: HostState)
    requires NewsOk(h) && PlacingStep(h, r) && !Started(Active(h)) && !Started(Active(r))
    ensures NewsOk(r)
  {
    assert AddsOrdinary(h.sent, r.sent);
    hide AddsOrdinary, Told, PlacingStep;
    OrdinaryNews(h, r);
  }

  lemma DoneSays(h: HostState, before: seq<Msg>)
    requires h.tag == PlaceWaiting && before == h.sent + FleetMsgs(h.p1.ships) + [State(TagByte(Counting))]
    ensures var r := HandleMsg(h, DonePlacing);
            r.sent == before + [Countdown(COUNTDOWN_START)] && r.tag == Counting && r.cdSeconds == COUNTDOWN_START
  {
    hide FleetMsgs;
  }

  lemma DoneNews(h: HostState)
    requires NewsOk(h) && h.tag == PlaceWaiting
    ensures NewsOk(HandleMsg(h, DonePlacing))
  {
    var before := h.sent + FleetMsgs(h.p1.ships) + [State(TagByte(Counting))];
    DoneSays(h, before);
    assert AddsOrdinary(h.sent, before);
    hide Told, AddsOrdinary, FleetMsgs, HandleMsg;
    OrdinaryTellsNothing(h.sent, before);
    ToldMore(before, Countdown(COUNTDOWN_START));
  }

  lemma ReadNews(s: Pair)
    requires SessionInv(s) && Possible(s, HostReads) && NewsOk(s.h)
    ensures MsgOk(s.h, s.c.sent[s.read])
    ensures var m := s.c.sent[s.read]; m.AttackMsg? && s.h.tag == TurnP2 ==> Cell(m.col, m.row) in s.h.p1.grid
    ensures NewsOk(HandleMsg(s.h, s.c.sent[s.read])) && s.h.sent <= HandleMsg(s.h, s.c.sent[s.read]).sent
  {
    hide SessionInv, Linked, HostSide, Mirrored, Inv, HandleMsg, MsgOk, NewsOk, Enabled, Apply;
    var m := s.c.sent[s.read];
    InvParts(s);
    ReadIsOk(s);
    MsgIsEvent(s.h, m);
    MsgOnlyAdds(s.h, m);
    if m.ShipPlace? {
      ShipHandled(s.h, m);
      ShipNews(s.h, m);
    } else if m.DonePlacing? {
      DoneIsOk(s);
      DoneNews(s.h);
    } else {
      PlainHost(s.h, m);
      if Started(Active(s.h)) { InputNews(s.h, Incoming(m)); }
      else { PlainPlacing(s.h, m); PlacingNews(s.h, HandleMsg(s.h, m)); }
    }
  }

  lemma ShipNews(h: HostState, m: Msg)
    requires NewsOk(h) && m.ShipPlace?
    ensures NewsOk(HandleMsg(h, m))
  {
    hide PlaceShip, ShipOf, Told;
  }

  lemma PlainPlacing(h: HostState, m: Msg)
    requires HostSide(h) && !Started(Active(h)) && PlacingStep(h, HandleMsg(h, m)) && Inv(HandleMsg(h, m)) && h.tag != TurnP2
    ensures !Started(Active(HandleMsg(h, m)))
  {
    hide HostSide, HandleMsg, Inv;
    PlacingHost(h, HandleMsg(h, m));
  }

  lemma MsgOnlyAdds(h: HostState, m: Msg)
    requires m.AttackMsg? && h.tag == TurnP2 ==> Cell(m.col, m.row) in h.p1.grid
    ensures h.sent <= HandleMsg(h, m).sent
  {
    hide PlaceShip, ShipOf, FleetMsgs;
  }

  lemma OwnNews(s: Pair, e: Event)
    requires SessionInv(s) && Possible(s, HostDoes(e)) && Inv(s.h) && Apply(s.h, e).tag != MainMenu && NewsOk(s.h)
    ensures NewsOk(Apply(s.h, e)) && s.h.sent <= Apply(s.h, e).sent
  {
    hide SessionInv, Linked, HostSide, Mirrored, Inv, Apply, Enabled, NewsOk, PlacingStep, Tick, FairDraws, BattleInv;
    InvParts(s);
    LinkedHost(s.h);
    SessionTags(s.h);
    ApplyKeeps(s.h, e);
    var r := Apply(s.h, e);
    if !Started(Active(s.h)) {
      EventIsPlacing(s.h, e);
      PlacingHost(s.h, r);
      PlacingNews(s.h, r);
    } else if e.TickEvent? {
      TickIsApply(s.h, e);
      TickNews(s.h, e.pick, e.fleet);
      TickSync(s.h, e.pick, e.fleet, Own(s.h), s.on1, s.on2);
    } else {
      InputNews(s.h, e);
      InputHost(s.h, e);
    }
  }

  /** A step of a session keeps the host's news true, and its log only grows. */
  lemma NewsStepKeeps(s: Pair, step: Step, s': Pair)
    requires SessionInv(s) && Moves(s, step, s') && NewsOk(s.h)
    ensures NewsOk(s'.h) && s.h.sent <= s'.h.sent
  {
    hide SessionInv, Apply, HandleMsg, Act, Hear, Inv, Enabled, ClientSafe, Recorded, NewsOk, MsgOk;
    StepKeeps(s, step, s');
    match step
    case HostDoes(e) => RecordedHost(s, Apply(s.h, e), e.TickEvent? && CanResolve(s.h)); OwnNews(s, e);
    case HostReads => ReadNews(s); RecordedHost(s, HandleMsg(s.h, s.c.sent[s.read]), false);
    case ClientDoes(i) =>
    case ClientHears =>
  }

  lemma StartNews(s: Pair)
    requires Start(s)
    ensures NewsOk(s.h)
  {
    assert AddsOrdinary([], s.h.sent);
    OrdinaryTellsNothing([], s.h.sent);
    hide Told, AddsOrdinary;
  }

  lemma {:induction false} EveryNewsIsTrue(run: seq<Pair>, steps: seq<Step>, k: nat)
    requires IsSession(run, steps) && k <= |steps|
    ensures NewsOk(run[k].h)
  {
    hide SessionInv, Start, Moves, NewsOk;
    if k == 0 {
      StartNews(run[0]);
    } else {
      EveryNewsIsTrue(run, steps, k - 1);
      EverySession(run, steps, k - 1);
      assert Moves(run[k - 1], steps[k - 1], run[k]);
      NewsStepKeeps(run[k - 1], steps[k - 1], run[k]);
    }
  }

  lemma {:induction false} HostLogGrows(run: seq<Pair>, steps: seq<Step>, j: nat, k: nat)
    requires IsSession(run, steps) && j <= k <= |steps|
    ensures run[j].h.sent <= run[k].h.sent
    decreases k
  {
    hide SessionInv, Start, Moves, NewsOk;
    if j < k {
      HostLogGrows(run, steps, j, k - 1);
      EveryNewsIsTrue(run, steps, k - 1);
      EverySession(run, steps, k - 1);
      assert Moves(run[k - 1], steps[k - 1], run[k]);
      NewsStepKeeps(run[k - 1], steps[k - 1], run[k]);
    }
  }
}
