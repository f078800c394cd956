/** A session from `game_init` on both machines to a client that shows the wrong winner: its player pauses the turn in
    which the last ship was sunk, and selects another item of the pause menu between the two messages that tell of the end. */
module WinnerPaths {
  import opened Boards
  import opened Protocol
  import opened Explosion
  import opened Host
  import opened HostControl
  import opened HostSteps
  import opened HostRuns
  import opened HostProgress
  import opened HostPaths
  import opened HostEnd
  import opened Replica
  import opened Client
  import opened Session
  import opened SessionBattle
  import opened SessionRuns
  import opened SessionTheorems
  import opened SessionPaths
  import opened SessionNews
  import opened SessionWinner
  import HR = HuntRuns

  // ---------------------------------------------------------------------------------------------
  // The client sinks the fleet
  // ---------------------------------------------------------------------------------------------

  /** The client's turn, and it has heard everything. */
  ghost predicate Duel(s: Pair, shots: set<Cell>) {
    ClientsTurn(s, shots) && s.heard == |s.h.sent|
  }

  ghost function ShipCells(): (t: set<Cell>)
    ensures t <= AllCells()
  {
    set c | c in AllCells() && Occupied(HR.TWINS, c)
  }

  lemma HostTakesShot(h: HostState, x: Cell, shots: set<Cell>)
    requires h.tag == TurnP2 && !h.postWait && ShotAt(h, shots) && InGrid(x) && x !in shots
    ensures x in h.p1.grid
    ensures var r := HandleMsg(h, AttackMsg(x.col, x.row, 0));
            && r.tag == TurnP2 && !r.postWait && ShotAt(r, shots + {x}) && Unresolved(r.expl) && r.sent == h.sent
  {
    HR.TwinsAreAFullFleet();
    AttackRefines(HR.TWINS, shots, x);
    FreshInBoard(shots, x);
    hide BoardOf, Attack, ShotsOf;
  }

  lemma FreshInBoard(shots: set<Cell>, x: Cell)
    requires InGrid(x) && x !in shots
    ensures var g := BoardOf(HR.TWINS, shots).grid; x in g && !Attacked(g[x])
  {
  }

  /** One more cell. */
  lemma ShotAndRead(s0: Pair, shots: set<Cell>, x: Cell) returns (s: Pair)
    requires Duel(s0, shots) && shots <= AllCells() && InGrid(x) && x !in shots
    ensures Duel(s, shots + {x}) && Unresolved(s.h.expl)
  {
    hide Joined, SessionInv, HandleMsg, MsgOk, Inv, ShotAt, Unresolved;
    TurnParts(s0, shots);
    var s1 := ShotSent(s0, shots, x);
    SameShots(s0.h, s1.h, shots);
    HostTakesShot(s1.h, x, shots);
    s := HostReadsOne(s1);
  }

  /** All the cells of `target` that are left. */
  lemma ShotsGoOn(s0: Pair, shots: set<Cell>, target: set<Cell>) returns (s: Pair)
    requires Duel(s0, shots) && shots <= target <= AllCells() && (shots != {} ==> Unresolved(s0.h.expl))
    ensures Duel(s, target) && (target != {} ==> Unresolved(s.h.expl))
    decreases |target - shots|
  {
    hide Duel, Unresolved;
    s := s0;
    if x :| x in target - shots {
      s := ShotAndRead(s0, shots, x);
      assert target - (shots + {x}) < target - shots;
      LessIsLess(target - (shots + {x}), target - shots);
      s := ShotsGoOn(s, shots + {x}, target);
    } else {
      forall x | x in target
        ensures x in shots
      {
        assert x !in target - shots;
      }
      assert shots == target;
    }
  }

  lemma LessIsLess(a: set<Cell>, b: set<Cell>)
    requires a < b
    ensures |a| < |b|
  {
    assert b == a + (b - a);
  }

  lemma FleetIsSunk(h: HostState)
    requires Inv(h) && h.tag == TurnP2 && ShotAt(h, ShipCells()) && Unresolved(h.expl)
    ensures Paced(h.expl) && EndIn(h, TicksLeft(h.expl) + 1)
  {
    HR.TwinsAreAFullFleet();
    BoardOfInverse(HR.TWINS, ShipCells());
    TwinsSunk(h.p1);
    hide GoodBoard, BotKnows, BoardOf, ShotsOf, TicksLeft, AllSunk;
  }

  lemma TwinsSunk(b: BoardState)
    requires GoodBoard(b) && FleetOf(b) == HR.TWINS && ShotsOf(b) == ShipCells()
    ensures AllSunk(b)
  {
    assert |FleetOf(b)| == |b.ships|;
    forall c: Cell | Occupied(FleetOf(b), c)
      ensures c in ShotsOf(b)
    {
      var i :| 0 <= i < |HR.TWINS| && Contains(HR.TWINS[i], c);
      assert InBounds(HR.TWINS[i]);
    }
    LossIsVisible(b);
    hide ShotsOf, AllSunk;
  }

  /** The last ship of player 1 is sunk, and the shot is shown. */
  lemma LastShipHit() returns (s: Pair, n: int)
    ensures Joined(s) && s.h.tag == TurnP2 && EndIn(s.h, n) && n >= 1
    ensures s.c.tag == TurnP2 && !IsExploding(s.c.expl) && s.heard == |s.h.sent|
  {
    hide Joined, SessionInv, ShotAt, Inv, EndIn, Unresolved, IsExploding;
    var s0 := ClientKnows();
    SomeShipCell();
    s0 := ShotsGoOn(s0, {}, ShipCells());
    s := GetsReady(s0, ShipCells());
    TurnParts(s, ShipCells());
    JoinedInv(s);
    PlayingPair(s);
    FleetIsSunk(s.h);
    n := TicksLeft(s.h.expl) + 1;
    FinishedAtLast(s.h.expl);
  }

  lemma SomeShipCell()
    ensures ShipCells() != {}
  {
    HR.TwinsAreAFullFleet();
    var p := HR.TWINS[0];
    assert InBounds(p) && Contains(p, Nth(p, 0));
    assert Occupied(HR.TWINS, Nth(p, 0));
    assert Nth(p, 0) in ShipCells();
  }

  // ---------------------------------------------------------------------------------------------
  // The host announces the end
  // ---------------------------------------------------------------------------------------------

  /** While the shot is shown the host says nothing. */
  lemma SilentWhileShown(h: HostState, pick: Cell, fleet: seq<Placement>, n: int)
    requires Inv(h) && FairDraws(h, pick, fleet) && !h.single && h.tag == TurnP2 && EndIn(h, n) && n > 1
    ensures Tick(h, pick, fleet).sent == h.sent
  {
    assert Control(h);
    FinishedAtLast(h.expl);
    hide Inv, Control, Tick, BeforeBot, EndsNow, AllSunk, FairDraws, Animate, TicksLeft;
    NoPauseAtEnd(h, n);
    ShowingTick(h);
    TickWithoutBot(h, pick, fleet, TickCursor(h));
    assert h.sent + [] == h.sent;
  }

  lemma NoPauseAtEnd(h: HostState, n: int)
    requires Control(h) && EndIn(h, n)
    ensures !h.postWait
  {
  }

  /** The three messages at the end of the client's last turn. */
  predicate EndTold(was: seq<Msg>, now: seq<Msg>) {
    && |now| == |was| + 3 && was <= now && now[|was|].AttackMsg?
    && now[|was| + 1] == Winner(2) && now[|was| + 2] == State(TagByte(GameOver))
  }

  lemma EndIsTold(h: HostState, pick: Cell, fleet: seq<Placement>)
    requires Inv(h) && FairDraws(h, pick, fleet) && !h.single && h.tag == TurnP2 && EndIn(h, 1)
    ensures EndTold(h.sent, Tick(h, pick, fleet).sent)
  {
    assert Control(h);
    LastTick(h);
    EndCanBeRead(h);
    ResolveSends(h);
    StagesAre(h);
    ReportIsShot(h);
    BeforeBotKeeps(h);
    TickWithoutBot(h, pick, fleet, BeforeBot(h));
    hide Inv, Control, Tick, BeforeBot, EndsNow, AllSunk, FairDraws, Animate, TicksLeft, TickResolve, TickCountdown, Report;
  }

  lemma EndCanBeRead(h: HostState)
    requires Control(h) && InTurn(h) && EndIn(h, 1)
    ensures CanResolve(h) && TickCountdown(h) == h && AllSunk(EnemyBoard(h))
  {
    FinishedAtLast(h.expl);
    hide AllSunk, TicksLeft;
  }

  lemma EndRunsOut(s0: Pair, n: int) returns (s: Pair)
    requires Joined(s0) && s0.h.tag == TurnP2 && EndIn(s0.h, n) && n >= 1 && s0.heard == |s0.h.sent|
    ensures Joined(s) && WonBy(s.h, TurnP2) && s.c == s0.c && s.heard <= |s.h.sent| && EndTold(s.h.sent[..s.heard], s.h.sent)
    decreases n
  {
    hide Joined, SessionInv, Inv, FairDraws, Tick, EndIn, EndTold;
    JoinedInv(s0);
    PlayingPair(s0);
    var pick := SomeDraw(s0.h);
    TickInTurn(s0.h, pick, HR.TWINS, n);
    s := HostTicks(s0, pick);
    if n > 1 {
      SilentWhileShown(s0.h, pick, HR.TWINS, n);
      s := EndRunsOut(s, n - 1);
    } else {
      EndIsTold(s0.h, pick, HR.TWINS);
      ToldFrom(s0.h.sent, s.h.sent);
    }
  }

  lemma ToldFrom(was: seq<Msg>, now: seq<Msg>)
    requires EndTold(was, now)
    ensures |was| <= |now| && EndTold(now[..|was|], now)
  {
    assert now[..|was|] == was;
  }

  // ---------------------------------------------------------------------------------------------
  // The client's player selects
  // ---------------------------------------------------------------------------------------------

  /** The turn is paused. */
  lemma PausesTurn(c: ClientState)
    requires ClientSafe(c) && c.tag == TurnP2 && !IsExploding(c.expl)
    ensures InputOk(KeyInput(KeyEsc, false, 0x81))
    ensures Act(c, KeyInput(KeyEsc, false, 0x81)).tag == Paused
  {
    hide IsExploding, ClientFire, MoveTurnCursor;
  }

  lemma SelectsInPause(c: ClientState)
    requires ClientSafe(c) && c.tag == Paused
    ensures InputOk(KeyInput(KeyUp, true, 0x48))
    ensures var r := Act(c, KeyInput(KeyUp, true, 0x48)); r.tag == Paused && r.data.w0 == (c.data.w0 + 1) % 2
  {
  }

  lemma HearsReport(c: ClientState, m: Msg)
    requires m.AttackMsg? && c.tag == Paused && Cell(m.col, m.row) in Target(c).grid
    ensures Hear(c, m).tag == Paused
  {
    hide Reported;
  }

  lemma HearsWinner(c: ClientState)
    ensures var r := Hear(c, Winner(2)); r.tag == c.tag && r.data.w0 == 2
    ensures var r := Hear(c, State(TagByte(GameOver))); r.tag == GameOver && r.data == c.data
  {
  }

  /** The client has heard who has won, in a pause, and its player presses Up. */
  lemma WrongItem() returns (s: Pair)
    ensures Joined(s) && s.h.tag == GameOver && s.h.data.w0 == 2 && AboutToLearn(s)
    ensures s.c.tag == Paused && s.c.data.w0 == 1 && s.h.sent[s.heard] == State(TagByte(GameOver))
  {
    hide Joined, SessionInv, Inv, EndIn, Act, Hear, ClientSafe, IsExploding;
    var n;
    s, n := LastShipHit();
    JoinedInv(s);
    PlayingPair(s);
    PausesTurn(s.c);
    s := ClientMovesOn(s, KeyInput(KeyEsc, false, 0x81));
    s := EndRunsOut(s, n);
    var c0 := s.c;
    s := ClientHearsOne(s);
    HearsReport(c0, s.h.sent[s.heard - 1]);
    var c1 := s.c;
    s := ClientHearsOne(s);
    HearsWinner(c1);
    JoinedInv(s);
    PlayingPair(s);
    SelectsInPause(s.c);
    s := ClientMovesOn(s, KeyInput(KeyUp, true, 0x48));
  }

  /** Sessions reach a client that has heard everything and shows that player 1 has won, when it is its own player. */
  lemma WrongWinnerIsShown() returns (run: seq<Pair>, steps: seq<Step>)
    ensures IsSession(run, steps) && Reached(run[0].h)
    ensures var s := run[|steps|];
            && s.c.tag == GameOver && s.h.tag == GameOver && s.heard == |s.h.sent|
            && s.h.data.w0 == 2 && HasWon(s.h) && s.c.data.w0 == 1
  {
    hide IsSession, Reached, SessionInv, Inv, Hear, HasWon;
    var s0 := WrongItem();
    var s := ClientHearsOne(s0);
    HearsWinner(s0.c);
    JoinedInv(s);
    PlayingPair(s);
    HostIsRight(s.h);
    run, steps :| SessionTo(run, steps, s);
  }
}
