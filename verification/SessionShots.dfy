/** From the cursor on one machine to the board on the other: what becomes of the client's shots, and where the shots
    at player 1's board come from. */
module SessionShots {
  import opened Boards
  import opened Protocol
  import opened Explosion
  import opened Host
  import opened HostControl
  import opened HostSteps
  import opened HostRuns
  import opened HostBot
  import opened Replica
  import opened Client
  import opened Session
  import opened SessionBattle
  import opened SessionRuns
  import opened SessionTheorems
  import opened ClientInput
  import H = Hunt
  import R = Rays

  // ---------------------------------------------------------------------------------------------
  // The client's log
  // ---------------------------------------------------------------------------------------------

  lemma HearSendsNothing(c: ClientState, m: Msg)
    requires m.AttackMsg? ==> Cell(m.col, m.row) in Target(c).grid
    ensures Hear(c, m).sent == c.sent
  {
    hide Reported, PlaceShip, InitialBoard, ShipOf, StartExplosion;
  }

  /** What a step adds to the client's log, and what of it is a shot. */
  lemma LogStep(s: Pair, step: Step, s': Pair)
    requires SessionInv(s) && Moves(s, step, s')
    ensures step.ClientDoes? ==> ClientSafe(s.c) && InputOk(step.i) && s'.c == Act(s.c, step.i)
    ensures s.c.sent <= s'.c.sent
    ensures if step.ClientDoes? && Shoots(s.c, step.i) then ShotAnnounced(s.c, s'.c, ClientAim(s.c, step.i))
            else NoShotAdded(s.c.sent, s'.c.sent)
  {
    hide SessionInv, Act, Hear, Apply, HandleMsg, Recorded, Shoots, ShotAnnounced, Inv, ClientSafe, Enabled;
    StepKeeps(s, step, s');
    match step
    case HostDoes(e) => HostLeavesClient(s, step, s');
    case HostReads => HostLeavesClient(s, step, s');
    case ClientDoes(i) => ClientShootsExactly(s.c, i); LongerLog(s.c, s'.c, ClientAim(s.c, i));
    case ClientHears => HearSendsNothing(s.c, s.h.sent[s.heard]);
  }

  lemma LongerLog(c: ClientState, r: ClientState, x: Cell)
    ensures ShotAnnounced(c, r, x) || NoShotAdded(c.sent, r.sent) ==> c.sent <= r.sent
  {
  }

  lemma HostLeavesClient(s: Pair, step: Step, s': Pair)
    requires Possible(s, step) && Defined(s, step) && s' == After(s, step) && (step.HostDoes? || step.HostReads?)
    ensures s'.c == s.c && s'.heard == s.heard
  {
    hide Apply, HandleMsg, Inv, Enabled;
  }

  lemma {:induction false} ClientLogGrows(run: seq<Pair>, steps: seq<Step>, j: nat, k: nat)
    requires IsSession(run, steps) && j <= k <= |steps|
    ensures run[j].c.sent <= run[k].c.sent
    decreases k
  {
    hide SessionInv, Start, Moves, Shoots, ShotAnnounced;
    if j < k {
      ClientLogGrows(run, steps, j, k - 1);
      EverySession(run, steps, k - 1);
      assert Moves(run[k - 1], steps[k - 1], run[k]);
      LogStep(run[k - 1], steps[k - 1], run[k]);
    }
  }

  /** Every shot in the client's log was sent by Enter, Space or a click, at the cell that was under the cursor. */
  lemma {:induction false} EveryShotWasAimed(run: seq<Pair>, steps: seq<Step>, k: nat, n: nat) returns (j: nat)
    requires IsSession(run, steps) && k <= |steps| && n < |run[k].c.sent| && run[k].c.sent[n].AttackMsg?
    ensures j < k && steps[j].ClientDoes? && Shoots(run[j].c, steps[j].i) && |run[j].c.sent| == n
    ensures var x := ClientAim(run[j].c, steps[j].i);
            InGrid(x) && 0 <= x.col < 256 && 0 <= x.row < 256 && run[k].c.sent[n] == AttackMsg(x.col, x.row, 0)
    decreases k
  {
    hide SessionInv, Start, Moves, Shoots, ShotAnnounced, ClientAim;
    if k == 0 {
      NothingSentYet(run[0]);
    } else {
      EverySession(run, steps, k - 1);
      assert Moves(run[k - 1], steps[k - 1], run[k]);
      LogStep(run[k - 1], steps[k - 1], run[k]);
      if n < |run[k - 1].c.sent| {
        assert run[k - 1].c.sent[n] == run[k].c.sent[n];
        j := EveryShotWasAimed(run, steps, k - 1, n);
      } else {
        j := k - 1;
        AimedNow(run[j].c, run[k].c, steps[j], n);
      }
    }
  }

  lemma NothingSentYet(s: Pair)
    requires Start(s)
    ensures |s.c.sent| == 0
  {
  }

  lemma AimedNow(c: ClientState, r: ClientState, step: Step, n: nat)
    requires if step.ClientDoes? && Shoots(c, step.i) then ShotAnnounced(c, r, ClientAim(c, step.i)) else NoShotAdded(c.sent, r.sent)
    requires |c.sent| <= n < |r.sent| && r.sent[n].AttackMsg?
    ensures step.ClientDoes? && Shoots(c, step.i) && |c.sent| == n
    ensures var x := ClientAim(c, step.i);
            InGrid(x) && 0 <= x.col < 256 && 0 <= x.row < 256 && r.sent[n] == AttackMsg(x.col, x.row, 0)
  {
    hide Shoots, ClientAim;
  }

  // ---------------------------------------------------------------------------------------------
  // The shot arrives
  // ---------------------------------------------------------------------------------------------

  /** Player 1's board takes a shot at `x`: one more cell shot at, the same fleet, the other board left alone, and an
      explosion at the cell that shows whether there is a ship. */
  ghost predicate TakesShot(h: HostState, r: HostState, x: Cell) {
    && FleetOf(r.p1) == FleetOf(h.p1) && ShotsOf(r.p1) == ShotsOf(h.p1) + {x} && x !in ShotsOf(h.p1) && r.p2 == h.p2
    && r.expl.exploding && r.expl.at == x && (r.expl.isHit <==> Occupied(FleetOf(h.p1), x))
  }

  lemma BoardTakesShot(b: BoardState, x: Cell)
    requires GoodBoard(b) && InGrid(x) && R.IsFresh(b.grid, x)
    ensures var r := Attack(b, x);
            && FleetOf(r) == FleetOf(b) && ShotsOf(r) == ShotsOf(b) + {x} && x !in ShotsOf(b) && r != b
            && (H.ReadsHit(r, x) <==> Occupied(FleetOf(b), x))
  {
    GoodShot(b, x);
    assert x !in ShotsOf(b);
    hide GoodBoard, Attack, FleetOf, ShotsOf, Occupied, H.ReadsHit;
    HitMeansOccupied(Attack(b, x), x);
  }

  lemma MsgTakesShot(h: HostState, x: Cell)
    requires InGrid(x) && FullGrid(h.p1.grid) && GoodBoard(h.p1)
    ensures var r := HandleMsg(h, AttackMsg(x.col, x.row, 0));
            if h.tag == TurnP2 && R.IsFresh(h.p1.grid, x) then TakesShot(h, r, x) && r.p1 != h.p1 else r == h
  {
    if h.tag == TurnP2 && R.IsFresh(h.p1.grid, x) { BoardTakesShot(h.p1, x); }
    hide Attack, GoodBoard, FleetOf, ShotsOf, Occupied, H.ReadsHit;
  }

  lemma ReadsShot(s: Pair, s': Pair, x: Cell)
    requires SessionInv(s) && Moves(s, HostReads, s') && InGrid(x) && s.read < |s.c.sent|
    requires s.c.sent[s.read] == AttackMsg(x.col, x.row, 0)
    ensures if s.h.tag == TurnP2 && R.IsFresh(s.h.p1.grid, x)
            then TakesShot(s.h, s'.h, x) && s'.h.p1 != s.h.p1 && s'.on1 == AddShot(s.on1, x)
            else s'.h == s.h
  {
    InvParts(s);
    GoodGrids(s.h);
    assert GoodBoard(s.h.p1);
    hide SessionInv, Linked, HostSide, Mirrored, Inv, GoodBoard, TakesShot, HandleMsg, BattleInv, MsgOk;
    StepKeeps(s, HostReads, s');
    MsgTakesShot(s.h, x);
    ShotIsLogged(s, s', x);
  }

  lemma ShotIsLogged(s: Pair, s': Pair, x: Cell)
    requires Possible(s, HostReads) && Defined(s, HostReads) && s' == After(s, HostReads)
    requires InGrid(x) && s.c.sent[s.read] == AttackMsg(x.col, x.row, 0)
    requires s.h.tag == TurnP2 ==> x in s.h.p1.grid
    ensures s'.h == HandleMsg(s.h, AttackMsg(x.col, x.row, 0))
    ensures s.h.tag == TurnP2 && s'.h.p1 != s.h.p1 ==> s'.on1 == AddShot(s.on1, s'.h.expl.at) && s'.h.expl.at == x
  {
    hide Attack, H.ReadsHit;
  }

  /** A shot of the client's player, end to end: when the host reads the message that the key or the click has sent, its
      board takes a shot at exactly the cell that was under the client's cursor, if it is still the client's turn and the
      cell was not shot at, and otherwise nothing happens. */
  lemma ShotArrives(run: seq<Pair>, steps: seq<Step>, j: nat, k: nat)
    requires IsSession(run, steps) && j < k < |steps|
    requires steps[j].ClientDoes? && Shoots(run[j].c, steps[j].i)
    requires steps[k].HostReads? && run[k].read == |run[j].c.sent|
    ensures var s, s', x := run[k], run[k + 1], ClientAim(run[j].c, steps[j].i);
            && InGrid(x)
            && if s.h.tag == TurnP2 && R.IsFresh(s.h.p1.grid, x) then TakesShot(s.h, s'.h, x) && s'.on1 == AddShot(s.on1, x)
               else s'.h == s.h
  {
    hide SessionInv, Start, Moves, Shoots, TakesShot;
    EverySession(run, steps, j);
    EverySession(run, steps, k);
    assert Moves(run[j], steps[j], run[j + 1]) && Moves(run[k], steps[k], run[k + 1]);
    LogStep(run[j], steps[j], run[j + 1]);
    ClientLogGrows(run, steps, j + 1, k);
    var x := ClientAim(run[j].c, steps[j].i);
    assert run[j + 1].c.sent[|run[j].c.sent|] == AttackMsg(x.col, x.row, 0);
    ReadsShot(run[k], run[k + 1], x);
  }

  // ---------------------------------------------------------------------------------------------
  // Where shots come from
  // ---------------------------------------------------------------------------------------------

  /** Against a client the host itself never shoots at player 1's board. */
  lemma HostSparesItself(s: Pair, e: Event)
    requires SessionInv(s) && Possible(s, HostDoes(e)) && Started(Active(s.h)) && Apply(s.h, e).tag != MainMenu && Inv(s.h)
    ensures Apply(s.h, e).p1 == s.h.p1
  {
    hide SessionInv, Linked, HostSide, Mirrored, Inv, Enabled, Apply, Tick, FairDraws, BattleInv;
    InvParts(s);
    LinkedHost(s.h);
    if e.TickEvent? {
      TickIsApply(s.h, e);
      TickSync(s.h, e.pick, e.fleet, Own(s.h), s.on1, s.on2);
    } else {
      InputSparesItself(s.h, e);
    }
  }

  lemma InputSparesItself(h: HostState, e: Event)
    requires HostSide(h) && Started(Active(h)) && Enabled(h, e) && !e.TickEvent? && !e.Incoming? && Apply(h, e).tag != MainMenu
    ensures Inv(h) && Apply(h, e).p1 == h.p1
  {
    LinkedHost(h);
    InputHost(h, e);
    var r := Apply(h, e);
    if h.tag == TurnP2 {
      hide Inv, HandleKey, HandleMouse, HostSide;
      InputSafe(h);
      match e
      case KeyEvent(code, make) => KeyToBot(h, code, make);
      case MouseMove(m) => MouseToBot(h, m);
    } else {
      hide Inv, Enabled, Apply, HostSide, GoodBoard, Attack;
    }
  }

  /** In a battle player 1's board changes only when the host reads a shot, and that shot is at the cell that was under
      the client's cursor when its player pressed Enter or Space or clicked. */
  lemma ShotsComeFromTheCursor(run: seq<Pair>, steps: seq<Step>, k: nat) returns (j: nat)
    requires IsSession(run, steps) && k < |steps| && Started(Active(run[k].h)) && run[k + 1].h.p1 != run[k].h.p1
    ensures steps[k].HostReads? && j < k && steps[j].ClientDoes? && Shoots(run[j].c, steps[j].i)
    ensures TakesShot(run[k].h, run[k + 1].h, ClientAim(run[j].c, steps[j].i))
  {
    hide SessionInv, Start, Moves, Shoots, TakesShot, ClientAim, Inv;
    var s, s' := run[k], run[k + 1];
    EverySession(run, steps, k);
    assert Moves(s, steps[k], s');
    OnlyReadingHurts(s, steps[k], s');
    j := EveryShotWasAimed(run, steps, k, s.read);
    ReadsShot(s, s', ClientAim(run[j].c, steps[j].i));
  }

  lemma OnlyReadingHurts(s: Pair, step: Step, s': Pair)
    requires SessionInv(s) && Moves(s, step, s') && Started(Active(s.h)) && s'.h.p1 != s.h.p1
    ensures step.HostReads? && s.read < |s.c.sent| && s.c.sent[s.read].AttackMsg?
  {
    hide SessionInv, Apply, HandleMsg, Act, Hear, Inv, Enabled, ClientSafe, Recorded, Linked, HostSide, Mirrored;
    StepKeeps(s, step, s');
    InvParts(s);
    match step
    case HostDoes(e) => RecordedHost(s, Apply(s.h, e), e.TickEvent? && CanResolve(s.h)); HostSparesItself(s, e);
    case HostReads =>
      BattleMessage(s);
      RecordedHost(s, HandleMsg(s.h, s.c.sent[s.read]), false);
      OtherMessages(s.h, s.c.sent[s.read]);
    case ClientDoes(i) =>
    case ClientHears =>
  }

  lemma OtherMessages(h: HostState, m: Msg)
    requires m.AttackMsg? && h.tag == TurnP2 ==> Cell(m.col, m.row) in h.p1.grid
    ensures !m.AttackMsg? ==> HandleMsg(h, m).p1 == h.p1
  {
  }
}
