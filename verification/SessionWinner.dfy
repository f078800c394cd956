/** Whether the client shows the right winner, and the seconds that the host counts. */
module SessionWinner {
  import opened Boards
  import opened Protocol
  import opened Explosion
  import opened Host
  import opened HostControl
  import opened HostSteps
  import opened HostRuns
  import opened Replica
  import opened Client
  import opened Session
  import opened SessionSteps
  import opened SessionBattle
  import opened SessionRuns
  import opened SessionTheorems
  import opened SessionShots
  import opened SessionNews

  // ---------------------------------------------------------------------------------------------
  // What the client's player does to it
  // ---------------------------------------------------------------------------------------------

  /** Another item of the pause menu is selected. The selection and the winner are the same word of the union. */
  predicate Selects(c: ClientState, i: Input) {
    && c.tag == Paused
    && match i
       case KeyInput(code, make, _) => make && (code == KeyUp || code == KeyDown)
       case MouseInput(m, _) => m.moved && m.item.Some? && m.item.value != c.data.w0
       case Elapse(_) => false
  }

  /** In a session nothing but such a selection changes that word, and no input changes the countdown. */
  lemma OnlySelectionsChangeIt(c: ClientState, i: Input)
    requires ClientSafe(c) && InputOk(i) && Playing(c.tag) && Act(c, i).tag != MainMenu
    ensures Act(c, i).data.w0 == c.data.w0 <==> !Selects(c, i)
    ensures Act(c, i).cdSeconds == c.cdSeconds
  {
    hide ClientKey, ClientMouse, ClientTick, ClientSafe;
    match i
    case Elapse(beat) => TickSelectsNothing(c, beat);
    case KeyInput(code, make, raw) => KeySelects(c, code, make, raw);
    case MouseInput(m, packet) => MouseSelects(c, m, packet);
  }

  lemma TickSelectsNothing(c: ClientState, beat: bool)
    ensures ClientTick(c, beat).data == c.data && ClientTick(c, beat).cdSeconds == c.cdSeconds
  {
    hide Animate, AsByte;
  }

  lemma CommitSelectsNothing(c: ClientState)
    requires 0 <= c.data.w1 < NUM_SHIPS && FullGrid(c.p2.grid)
    ensures ClientCommit(c).data.w0 == c.data.w0 && ClientCommit(c).cdSeconds == c.cdSeconds
  {
    hide PlaceShip, CanPlace, Wanted, ShipMsg;
  }

  lemma FireSelectsNothing(c: ClientState, x: Cell)
    requires x in c.p1.grid
    ensures ClientFire(c, x).data == c.data && ClientFire(c, x).cdSeconds == c.cdSeconds
  {
  }

  lemma KeySelects(c: ClientState, code: KeyCode, make: bool, raw: byte)
    requires ClientSafe(c) && Playing(c.tag) && ClientKey(c, code, make, raw).tag != MainMenu
    ensures var r := ClientKey(c, code, make, raw);
            (r.data.w0 == c.data.w0 <==> !Selects(c, KeyInput(code, make, raw))) && r.cdSeconds == c.cdSeconds
  {
    if c.tag == PlaceP2 { CommitSelectsNothing(c); }
    if c.tag == TurnP2 { FireSelectsNothing(c, Cell(c.data.w1, c.data.w2)); }
    hide ClientCommit, ClientFire, ClientMenu, InitialBoard, IsExploding;
  }

  lemma MouseSelects(c: ClientState, m: MouseEvent, packet: Msg)
    requires ClientSafe(c) && MouseOk(m) && Playing(c.tag)
    ensures var r := ClientMouse(c, m, packet);
            (r.data.w0 == c.data.w0 <==> !Selects(c, MouseInput(m, packet))) && r.cdSeconds == c.cdSeconds
  {
    var over := m.moved && m.over.Some?;
    if c.tag == PlaceP2 {
      CommitSelectsNothing(if over then c.(data := c.data.(w3 := m.over.value.col, w4 := m.over.value.row)) else c);
    } else if c.tag == TurnP2 {
      var d := if over then c.data.(w1 := m.over.value.col, w2 := m.over.value.row) else c.data;
      FireSelectsNothing(c.(data := d), Cell(d.w1, d.w2));
    }
    hide ClientCommit, ClientFire, ClientMenu, IsExploding;
  }

  // ---------------------------------------------------------------------------------------------
  // The countdown
  // ---------------------------------------------------------------------------------------------

  /** The client shows the seconds that it was told last. */
  predicate ShowsSeconds(c: ClientState, heard: seq<Msg>) {
    Told(heard).seconds.Some? ==> c.cdSeconds == Told(heard).seconds.value
  }

  lemma HearSeconds(c: ClientState, heard: seq<Msg>, m: Msg)
    requires ShowsSeconds(c, heard) && (m.AttackMsg? ==> Cell(m.col, m.row) in Target(c).grid)
    ensures ShowsSeconds(Hear(c, m), heard + [m])
  {
    ToldMore(heard, m);
    hide Told, Reported, PlaceShip, InitialBoard, ShipOf, StartExplosion;
  }

  lemma SecondsStep(s: Pair, step: Step, s': Pair)
    requires s.heard <= |s.h.sent| && s'.heard <= |s'.h.sent| && ShowsSeconds(s.c, s.h.sent[..s.heard])
    requires SessionInv(s) && NewsOk(s.h) && Moves(s, step, s')
    ensures ShowsSeconds(s'.c, s'.h.sent[..s'.heard])
  {
    hide SessionInv, Apply, HandleMsg, Act, Hear, Inv, Enabled, ClientSafe, Recorded, NewsOk, MsgOk, Told;
    StepKeeps(s, step, s');
    NewsStepKeeps(s, step, s');
    match step
    case HostDoes(e) => HostLeavesClient(s, step, s'); assert s'.h.sent[..s.heard] == s.h.sent[..s.heard];
    case HostReads => HostLeavesClient(s, step, s'); assert s'.h.sent[..s.heard] == s.h.sent[..s.heard];
    case ClientDoes(i) => PlayerInSession(s); OnlySelectionsChangeIt(s.c, i);
    case ClientHears =>
      HearSeconds(s.c, s.h.sent[..s.heard], s.h.sent[s.heard]);
      assert s.h.sent[..s.heard] + [s.h.sent[s.heard]] == s.h.sent[..s.heard + 1];
  }

  lemma HeardBound(s: Pair)
    requires SessionInv(s)
    ensures s.heard <= |s.h.sent|
  {
    hide HostSide, Mirrored, Follows;
  }

  lemma PlayerInSession(s: Pair)
    requires SessionInv(s)
    ensures ClientSafe(s.c) && Playing(s.c.tag)
  {
    assert Together(s);
    hide SessionInv;
    LinkedParts(s);
    ClientIsSafe(s.c, s.h.sent[..s.heard]);
    hide Linked, Follows;
  }

  lemma {:induction false} SecondsAreHeard(run: seq<Pair>, steps: seq<Step>, k: nat)
    requires IsSession(run, steps) && k <= |steps|
    ensures SessionInv(run[k]) && run[k].heard <= |run[k].h.sent| && ShowsSeconds(run[k].c, run[k].h.sent[..run[k].heard])
  {
    hide SessionInv, Start, Moves, NewsOk, ShowsSeconds;
    EverySession(run, steps, k);
    HeardBound(run[k]);
    if k == 0 {
      NothingHeardYet(run[0]);
    } else {
      SecondsAreHeard(run, steps, k - 1);
      EveryNewsIsTrue(run, steps, k - 1);
      assert Moves(run[k - 1], steps[k - 1], run[k]);
      SecondsStep(run[k - 1], steps[k - 1], run[k]);
    }
  }

  lemma NothingHeardYet(s: Pair)
    requires Start(s)
    ensures s.heard == 0 && ShowsSeconds(s.c, s.h.sent[..0])
  {
  }

  /** While the host counts down, a client that has heard everything shows the same number of seconds. */
  lemma CountdownIsShared(run: seq<Pair>, steps: seq<Step>, k: nat)
    requires IsSession(run, steps) && k <= |steps|
    requires run[k].h.tag == Counting && run[k].heard == |run[k].h.sent|
    ensures run[k].c.tag == Counting && run[k].c.cdSeconds == run[k].h.cdSeconds && 1 <= run[k].c.cdSeconds <= COUNTDOWN_START
  {
    hide SessionInv, Start, Moves, Told, NewsOk, ShowsSeconds;
    SecondsAreHeard(run, steps, k);
    EveryNewsIsTrue(run, steps, k);
    var s := run[k];
    ShowsLastState(s);
    SecondsInRange(s);
    assert s.h.sent[..s.heard] == s.h.sent;
    SecondsAgree(s.h, s.c);
  }

  lemma SecondsAgree(h: HostState, c: ClientState)
    requires NewsOk(h) && ShowsSeconds(c, h.sent) && h.tag == Counting
    ensures c.cdSeconds == h.cdSeconds
  {
    hide Told, EndsWith;
  }

  lemma ShowsLastState(s: Pair)
    requires SessionInv(s) && (s.h.tag == Counting || s.h.tag == GameOver) && s.heard == |s.h.sent|
    ensures s.c.tag == s.h.tag
  {
    CaughtUpNet(s);
    LastStateIs(s.h, NetOf(s.h.sent, Own(s.h)), s.on1, s.on2);
    hide SessionInv, Sync, NetOf, GoodBoard;
  }

  lemma LastStateIs(h: HostState, n: Net, on1: Shots, on2: Shots)
    requires Sync(h, n, on1, on2)
    ensures n.last == Active(h)
  {
  }

  lemma SecondsInRange(s: Pair)
    requires SessionInv(s)
    ensures s.h.tag == Counting ==> 1 <= s.h.cdSeconds <= COUNTDOWN_START
  {
    InvParts(s);
    hide SessionInv, Linked, HostSide, Mirrored, GoodBoard, BotKnows;
  }

  // ---------------------------------------------------------------------------------------------
  // The winner
  // ---------------------------------------------------------------------------------------------

  /** The client has heard who has won, and not yet that the game is over. */
  predicate AboutToLearn(s: Pair) {
    s.h.tag == GameOver && s.heard + 1 == |s.h.sent|
  }

  /** From then on it has the right winner. */
  predicate WinnerKnown(s: Pair) {
    s.h.tag == GameOver && s.heard + 1 >= |s.h.sent| ==> s.c.data.w0 == s.h.data.w0
  }

  lemma {:induction false} WinnerStaysTold(ms: seq<Msg>, k: nat)
    requires k <= |ms| && Told(ms[..k]).winner.Some?
    ensures Told(ms).winner.Some?
    decreases |ms|
  {
    if k < |ms| {
      var n := |ms| - 1;
      assert ms[..n][..k] == ms[..k];
      WinnerStaysTold(ms[..n], k);
    } else {
      assert ms[..k] == ms;
    }
  }

  lemma WinnerInside(was: seq<Msg>, now: seq<Msg>, w: int)
    requires was <= now && EndsWith(now, w) && |was| + 1 >= |now|
    ensures Told(was).winner.Some?
  {
    var n := |now|;
    assert was[..n - 1] == now[..n - 2] + [now[n - 2]];
    ToldMore(now[..n - 2], now[n - 2]);
    WinnerStaysTold(was, n - 1);
  }

  /** The end of the game adds at least the last two messages of the log. */
  lemma EndIsNews(was: seq<Msg>, now: seq<Msg>, w: int)
    requires was <= now && EndsWith(now, w) && Told(was).winner == None
    ensures |was| + 2 <= |now|
  {
    if |was| + 1 >= |now| { WinnerInside(was, now, w); }
  }

  /** After the game the host says nothing more and does not change its mind. */
  lemma NoNewsAfterTheEnd(s: Pair, step: Step, s': Pair)
    requires SessionInv(s) && Moves(s, step, s') && (step.HostDoes? || step.HostReads?) && s.h.tag == GameOver
    ensures s'.h.sent == s.h.sent && s'.h.data == s.h.data
  {
    hide SessionInv, Apply, HandleMsg, Act, Hear, Enabled, Recorded, Inv, Linked, HostSide, Mirrored, MsgOk, BattleInv;
    StepKeeps(s, step, s');
    InvParts(s);
    match step
    case HostDoes(e) =>
      RecordedHost(s, Apply(s.h, e), e.TickEvent? && CanResolve(s.h));
      EventAtEnd(s.h, e);
    case HostReads =>
      var m := s.c.sent[s.read];
      RecordedHost(s, HandleMsg(s.h, m), false);
      BattleMessage(s);
      ReadIsOk(s);
      PlainHost(s.h, m);
      EventAtEnd(s.h, Incoming(m));
  }

  lemma EventAtEnd(h: HostState, e: Event)
    requires HostSide(h) && Enabled(h, e) && h.tag == GameOver && Inv(h) && Apply(h, e).tag != MainMenu
    ensures Apply(h, e).sent == h.sent && Apply(h, e).data == h.data
  {
    hide Enabled, Apply, Tick, FairDraws, HostSide, Inv;
    LinkedHost(h);
    if e.TickEvent? {
      TickIsApply(h, e);
      TickAtEnd(h, e.pick, e.fleet);
    } else {
      InputAtEnd(h, e);
      InputHost(h, e);
    }
  }

  lemma TickAtEnd(h: HostState, pick: Cell, fleet: seq<Placement>)
    requires Inv(h) && FairDraws(h, pick, fleet) && h.tag == GameOver
    ensures var r := Tick(h, pick, fleet); r.sent == h.sent && r.data == h.data
  {
    assert Control(h);
    hide Inv, Control, BeforeBot, Tick, EndsNow, Animate, FairDraws;
    NothingSaidAtEnd(h);
    TickWithoutBot(h, pick, fleet, BeforeBot(h));
  }

  lemma HostWinner(s: Pair, step: Step, s': Pair)
    requires SessionInv(s) && NewsOk(s.h) && Moves(s, step, s') && (step.HostDoes? || step.HostReads?) && WinnerKnown(s)
    ensures WinnerKnown(s')
  {
    hide SessionInv, Inv, Moves, Told, EndsWith;
    HeardBound(s);
    NewsStepKeeps(s, step, s');
    OnlyHostMoves(s, step, s');
    if s.h.tag == GameOver {
      NoNewsAfterTheEnd(s, step, s');
    } else if s'.h.tag == GameOver {
      EndIsNews(s.h.sent, s'.h.sent, s'.h.data.w0);
    }
  }

  lemma OnlyHostMoves(s: Pair, step: Step, s': Pair)
    requires SessionInv(s) && Moves(s, step, s') && (step.HostDoes? || step.HostReads?)
    ensures s'.c == s.c && s'.heard == s.heard
  {
    hide SessionInv, Possible, Defined, After;
    StepKeeps(s, step, s');
    HostLeavesClient(s, step, s');
  }

  /** The last two messages, heard. */
  lemma HearEnd(c: ClientState, w: byte)
    ensures Hear(c, Winner(w)).data.w0 == w
    ensures var r := Hear(c, State(TagByte(GameOver))); r.data == c.data && r.tag == GameOver
  {
  }

  lemma HearingWinner(s: Pair, s': Pair)
    requires SessionInv(s) && NewsOk(s.h) && Moves(s, ClientHears, s') && WinnerKnown(s)
    ensures WinnerKnown(s')
  {
    hide SessionInv, Inv, Told, Hear;
    StepKeeps(s, ClientHears, s');
    if s.h.tag == GameOver && s.heard + 2 >= |s.h.sent| {
      if s.heard + 2 == |s.h.sent| { HearEnd(s.c, s.h.data.w0); } else { HearEnd(s.c, 0); }
    }
  }

  lemma OverOnlyAtTheEnd(h: HostState, k: nat)
    requires NewsOk(h) && k <= |h.sent| && Told(h.sent[..k]).over
    ensures h.tag == GameOver && k == |h.sent|
  {
    OverStaysTold(h.sent, k);
    if h.tag == GameOver && k < |h.sent| {
      var before := h.sent[..|h.sent| - 1];
      assert before[..k] == h.sent[..k];
      OverStaysTold(before, k);
    }
    hide Told;
  }

  /** A client that shows the end of the game has heard everything, and the game is over. */
  lemma ShownEndIsTheEnd(s: Pair)
    requires SessionInv(s) && NewsOk(s.h) && s.c.tag == GameOver
    ensures s.h.tag == GameOver && s.heard == |s.h.sent|
  {
    var own := BoardOf(FleetOf(s.c.p2), {});
    hide SessionInv, NetOf, Told, BoardOf, NewsOk;
    HeardTheEnd(s, own);
    LastIsOver(s.h.sent[..s.heard], own);
    OverOnlyAtTheEnd(s.h, s.heard);
  }

  lemma HeardTheEnd(s: Pair, own: BoardState)
    requires SessionInv(s) && s.c.tag == GameOver && own == BoardOf(FleetOf(s.c.p2), {})
    ensures s.heard <= |s.h.sent| && NetOf(s.h.sent[..s.heard], own).last == GameOver
  {
    hide HostSide, Mirrored, NetOf, BoardOf;
  }

  lemma PlayingWinner(s: Pair, i: Input, s': Pair)
    requires SessionInv(s) && NewsOk(s.h) && Moves(s, ClientDoes(i), s') && WinnerKnown(s)
    requires !(AboutToLearn(s) && Selects(s.c, i))
    ensures WinnerKnown(s')
  {
    hide SessionInv, Inv, Act, ClientSafe, NewsOk;
    HeardBound(s);
    StepKeeps(s, ClientDoes(i), s');
    PlayerInSession(s);
    OnlySelectionsChangeIt(s.c, i);
    if s.h.tag == GameOver && s.heard == |s.h.sent| { ShowsLastState(s); }
  }

  /** No other item of the pause menu was selected between the two messages. */
  predicate NoLateChoice(run: seq<Pair>, steps: seq<Step>, k: nat)
    requires k <= |steps| < |run|
  {
    forall j :: 0 <= j < k && steps[j].ClientDoes? && AboutToLearn(run[j]) ==> !Selects(run[j].c, steps[j].i)
  }

  lemma {:induction false} WinnerStaysKnown(run: seq<Pair>, steps: seq<Step>, k: nat)
    requires IsSession(run, steps) && k <= |steps| && NoLateChoice(run, steps, k)
    ensures SessionInv(run[k]) && NewsOk(run[k].h) && WinnerKnown(run[k])
  {
    hide SessionInv, Start, Moves, NewsOk, WinnerKnown, Selects, AboutToLearn;
    EverySession(run, steps, k);
    EveryNewsIsTrue(run, steps, k);
    if k == 0 {
      NobodyHasWonYet(run[0]);
    } else {
      var j := k - 1;
      WinnerStaysKnown(run, steps, j);
      assert Moves(run[j], steps[j], run[k]);
      match steps[j]
      case HostDoes(e) => HostWinner(run[j], steps[j], run[k]);
      case HostReads => HostWinner(run[j], steps[j], run[k]);
      case ClientDoes(i) => PlayingWinner(run[j], i, run[k]);
      case ClientHears => HearingWinner(run[j], run[k]);
    }
  }

  lemma NobodyHasWonYet(s: Pair)
    requires Start(s)
    ensures WinnerKnown(s)
  {
  }

  /** The host's winner has shot at every cell of every ship of the opponent, and has a ship cell left. */
  ghost predicate HasWon(h: HostState) {
    var lost1 := forall c: Cell :: Occupied(FleetOf(h.p1), c) ==> c in ShotsOf(h.p1);
    var lost2 := forall c: Cell :: Occupied(FleetOf(h.p2), c) ==> c in ShotsOf(h.p2);
    (h.data.w0 == 1 && lost2 && !lost1) || (h.data.w0 == 2 && lost1 && !lost2)
  }

  lemma HostIsRight(h: HostState)
    requires Inv(h) && h.tag == GameOver
    ensures HasWon(h)
  {
    hide GoodBoard, BotKnows;
    LossIsVisible(h.p1);
    LossIsVisible(h.p2);
  }

  /** A client that shows the end of the game shows the host's winner, who is the right one, unless its player has
      selected another item of the pause menu between the two messages that tell of the end. */
  lemma ClientShowsTheWinner(run: seq<Pair>, steps: seq<Step>, k: nat)
    requires IsSession(run, steps) && k <= |steps| && run[k].c.tag == GameOver && NoLateChoice(run, steps, k)
    ensures var s := run[k]; s.h.tag == GameOver && s.c.data.w0 == s.h.data.w0 && HasWon(s.h)
  {
    hide Start, Moves, SessionInv, NewsOk, Inv, HasWon, NoLateChoice;
    WinnerStaysKnown(run, steps, k);
    ShownEndIsTheEnd(run[k]);
    InvParts(run[k]);
    HostIsRight(run[k].h);
  }

  /** Exactly such a selection spoils it: from a state in which the client has heard of the right winner, an input
      of its player and the message that the game is over. */
  lemma LateChoiceExactly(s: Pair, i: Input)
    requires SessionInv(s) && NewsOk(s.h) && AboutToLearn(s) && s.c.data.w0 == s.h.data.w0 && InputOk(i)
    ensures ClientSafe(s.c) && s.h.sent[s.heard] == State(TagByte(GameOver))
    ensures Act(s.c, i).tag != MainMenu ==>
              var r := Hear(Act(s.c, i), State(TagByte(GameOver)));
              r.tag == GameOver && (r.data.w0 == s.h.data.w0 <==> !Selects(s.c, i))
  {
    hide SessionInv, Act, Hear, ClientSafe, NewsOk, Selects;
    PlayerInSession(s);
    LastIsTheEnd(s.h);
    if Act(s.c, i).tag != MainMenu {
      OnlySelectionsChangeIt(s.c, i);
      HearEnd(Act(s.c, i), 0);
    }
  }

  lemma LastIsTheEnd(h: HostState)
    requires NewsOk(h) && h.tag == GameOver
    ensures |h.sent| >= 2 && h.sent[|h.sent| - 1] == State(TagByte(GameOver))
  {
    hide Told;
  }
}
