/** game.c as it runs: one record of variables that every handler updates, the two boards, the bot and
    the explosion. Each handler computes the step function of module `Host`. */
module HostObject {
  import opened Boards
  import opened BoardObject
  import opened BotObject
  import opened Protocol
  import opened Explosion
  import opened Host
  import opened HostControl
  import opened HostSteps
  import opened HostRuns
  import opened HostPause
  import H = Hunt
  import HR = HuntRuns
  import R = Rays

  /** The stages find the shot they read within the grid, and the cursor's send clock below its limit. */
  lemma ClocksSafe(h: HostState)
    requires Control(h)
    ensures CanResolve(TickCountdown(h)) ==> TickCountdown(h).expl.at in EnemyBoard(TickCountdown(h)).grid
    ensures CanResolve(TickCountdown(h)) ==> InGrid(TickCountdown(h).expl.at)
    ensures TickHandover(TickPostAttack(TickResolve(TickCountdown(h)))).cursorTick < 2
  {
    CountdownKeeps(h);
    ResolveKeeps(TickCountdown(h));
    PostAttackKeeps(TickResolve(TickCountdown(h)));
    HandoverKeeps(TickPostAttack(TickResolve(TickCountdown(h))));
    hide TickCountdown, TickResolve, TickPostAttack, TickHandover;
  }

  /** What a result leads to, by what it is. */
  function BattleOver(h: HostState, report: Msg): HostState {
    var winner: byte := if h.tag == TurnP1 then 1 else 2;
    h.(data := h.data.(w0 := winner), tag := GameOver, prev := h.tag,
       sent := h.sent + IfMulti(h.single, [report, Winner(winner), State(TagByte(GameOver))]))
  }

  function PauseBegins(h: HostState, report: Msg): HostState {
    h.(postWait := true, postTicks := 0, sent := h.sent + IfMulti(h.single, [report]))
  }

  function TurnGoesOn(h: HostState, report: Msg): HostState {
    h.(sent := h.sent + IfMulti(h.single, [report]))
  }

  lemma MoreSends(sent: seq<Msg>, single: bool, a: Msg, b: Msg, c: Msg)
    ensures sent + IfMulti(single, [a]) + IfMulti(single, [b, c]) == sent + IfMulti(single, [a, b, c])
  {
    assert sent + [a] + [b, c] == sent + [a, b, c];
    assert sent + [] + [] == sent + [];
  }

  lemma SameReport(h: HostState, was: HostState)
    requires h.expl.at in EnemyBoard(h).grid && was == h.(expl := h.expl.(finished := true))
    ensures Report(h).AttackMsg? && Report(was) == Report(h) && EnemyBoard(was) == EnemyBoard(h)
  {
    hide ResultOf, AsByte;
  }

  lemma OverIs(h: HostState, was: HostState)
    requires CanResolve(was) && was.expl.at in EnemyBoard(was).grid && AllSunk(EnemyBoard(was))
    requires h == was.(expl := was.expl.(finished := false))
    ensures TickResolve(was) == BattleOver(h, Report(was)) && TickResolve(was).tag == GameOver
  {
    hide IfMulti, AllSunk, Report, EnemyBoard;
  }

  lemma GoesOnIs(h: HostState, was: HostState)
    requires CanResolve(was) && was.expl.at in EnemyBoard(was).grid && !AllSunk(EnemyBoard(was)) && Report(was).AttackMsg?
    requires h == was.(expl := was.expl.(finished := false))
    ensures TickResolve(was) == if Report(was).result == ATTACK_MISS then PauseBegins(h, Report(was)) else TurnGoesOn(h, Report(was))
    ensures TickResolve(was).tag != GameOver
  {
    hide IfMulti, AllSunk, Report, EnemyBoard;
  }

  lemma OutcomeIs(h: HostState, was: HostState)
    requires InTurn(h) && !h.postWait && !h.expl.finished && h.expl.at in EnemyBoard(h).grid
    requires was == h.(expl := h.expl.(finished := true))
    ensures was.expl.at in EnemyBoard(was).grid && EnemyBoard(was) == EnemyBoard(h) && Report(h).AttackMsg?
    ensures TickResolve(was) == if AllSunk(EnemyBoard(h)) then BattleOver(h, Report(h))
                                else if Report(h).result == ATTACK_MISS then PauseBegins(h, Report(h)) else TurnGoesOn(h, Report(h))
    ensures TickResolve(was).tag == GameOver <==> AllSunk(EnemyBoard(h))
  {
    SameReport(h, was);
    assert h == was.(expl := was.expl.(finished := false)) && CanResolve(was);
    hide IfMulti, AllSunk, Report, EnemyBoard, TickResolve, BattleOver, PauseBegins, TurnGoesOn;
    if AllSunk(EnemyBoard(was)) { OverIs(h, was); } else { GoesOnIs(h, was); }
  }

  /** What is left to do once a ship has been placed on player 1's board, or on the bot's. */
  lemma CommitIs(h: HostState)
    requires h.tag == PlaceP1 && 0 <= h.data.w1 < NUM_SHIPS && FullGrid(h.p1.grid)
    ensures var placed := h.(p1 := PlaceShip(h.p1, Wanted(h.data)));
            CommitShip(h) ==
            if !CanPlace(h.p1, Wanted(h.data)) then h
            else if |placed.p1.ships| < NUM_SHIPS then NextShipOf(placed) else CompletedFleet(placed)
  {
    hide CanPlace, PlaceShip, Wanted;
  }

  lemma BotsCommitIs(h: HostState)
    requires h.tag == PlaceP2 && 0 <= h.data.w1 < NUM_SHIPS && FullGrid(h.p2.grid)
    ensures var placed := h.(p2 := PlaceShip(h.p2, Wanted(h.data)));
            CommitForBot(h) ==
            if !CanPlace(h.p2, Wanted(h.data)) then h
            else if |placed.p2.ships| < NUM_SHIPS then NextShipOf(placed)
            else placed.(tag := PlaceWaiting, prev := h.tag, sent := h.sent + [DonePlacing])
  {
    hide CanPlace, PlaceShip, Wanted;
  }

  function NextShipOf(h: HostState): HostState {
    h.(data := h.data.(w1 := h.data.w1 + 1, w3 := 0, w4 := 0))
  }

  function CompletedFleet(h: HostState): HostState {
    if h.single then h.(data := Words(h.data.w0, 0, 0, 0, 0), botTimer := 0, tag := PlaceP2, prev := h.tag)
    else h.(data := Words(h.data.w0, 0, 0, 0, 0), tag := PlaceWaiting, prev := h.tag, sent := h.sent + [State(TagByte(PlaceP2))])
  }

  /** What the keyboard code does in player 1's turn. */
  lemma TurnKeyIs(h: HostState, code: KeyCode, make: bool)
    requires h.tag == TurnP1 && CursorSafe(h)
    ensures HandleKey(h, code, make) ==
            if InputBlocked(h) then h
            else if make && (code == KeyEnter || code == KeySpace) then FireAt(h, Cell(h.data.w1, h.data.w2))
            else if make then h.(data := MoveTurnCursor(h.data, code))
            else if code == KeyEsc then Transition(h, Paused) else h
  {
    hide FireAt, MoveTurnCursor, InputBlocked;
  }

  class Game {
    var tag: Tag
    var prev: Tag
    var over: bool
    var connected: bool
    var remoteReady: bool
    var single: bool
    const p1: Board
    const p2: Board
    var botTimer: byte
    var cdTicks: nat
    var cdSeconds: byte
    var data: Words
    var remote: Cell
    var postWait: bool
    var postTicks: byte
    var cursorTick: byte
    const expl: Renderer
    const bot: Bot
    var sent: seq<Msg>

    ghost predicate Valid()
      reads this, p1, p2, p1.ships, p2.ships, bot
    {
      && p1 != p2 && p1.grid != p2.grid && p1.ships != p2.ships
      && p1.Valid() && p2.Valid() && bot.Valid()
    }

    /** The state this object stands for. */
    ghost function View(): HostState
      requires Valid()
      reads this, p1, p2, p1.grid, p2.grid, p1.ships, p2.ships, expl, bot
    {
      HostState(tag, prev, over, connected, remoteReady, single, p1.View(), p2.View(), botTimer, cdTicks, cdSeconds,
                data, remote, postWait, postTicks, cursorTick, expl.View(), bot.View(), sent)
    }

    /** Boards and bot are those of `h`. */
    ghost predicate SameParts(h: HostState)
      requires Valid()
      reads this, p1, p2, p1.grid, p2.grid, p1.ships, p2.ships, bot
    {
      p1.View() == h.p1 && p2.View() == h.p2 && bot.View() == h.bot
    }

    /** `game_init`. */
    constructor ()
      ensures Valid() && Init(View())
      ensures fresh(p1) && fresh(p1.grid) && fresh(p1.ships) && fresh(p2) && fresh(p2.grid) && fresh(p2.ships)
      ensures fresh(expl) && fresh(bot)
    {
      tag, prev := MainMenu, MainMenu;
      over, connected, remoteReady, single := false, false, false, false;
      botTimer, cdTicks, cdSeconds := 0, 0, 0;
      data := Words(0, 0, 0, 0, 0);
      remote := Cell(-1, -1);
      postWait, postTicks, cursorTick := false, 0, 0;
      sent := [];
      p1 := new Board();
      p2 := new Board();
      expl := new Renderer();
      bot := new Bot();
    }

    /** `transition`. */
    method Enter(next: Tag)
      modifies this`prev, this`tag
      ensures prev == old(tag) && tag == next
    {
      prev := tag;
      tag := next;
    }

    /** A send that happens in multiplayer games only. */
    method SendIfMulti(m: Msg)
      modifies this`sent
      ensures sent == old(sent) + IfMulti(single, [m])
    {
      if !single {
        sent := sent + [m];
      }
    }

    // -------------------------------------------------------------------------------------------
    // The timer
    // -------------------------------------------------------------------------------------------

    /** A turn begins, with the cursor home. */
    method BeginTurn(turn: Tag)
      modifies this`data, this`tag, this`prev, this`sent
      ensures data == old(data).(w1 := 0, w2 := 0) && tag == turn && prev == old(tag)
      ensures sent == old(sent) + IfMulti(single, [State(TagByte(turn))])
    {
      data := data.(w1 := 0, w2 := 0);
      Enter(turn);
      SendIfMulti(State(TagByte(turn)));
    }

    /** Counts a tick of the current second; true when it is full. */
    method CountTick() returns (full: bool)
      modifies this`cdTicks
      ensures full <==> old(cdTicks) + 1 >= TICKS_PER_SEC
      ensures cdTicks == if full then 0 else old(cdTicks) + 1
    {
      cdTicks := cdTicks + 1;
      full := cdTicks >= TICKS_PER_SEC;
      if full {
        cdTicks := 0;
      }
    }

    /** A second of the countdown has passed. */
    method CountSecond()
      modifies this`cdSeconds, this`data, this`tag, this`prev, this`sent
      ensures cdSeconds == AsByte(old(cdSeconds) - 1)
      ensures if cdSeconds == 0 then data == old(data).(w0 := 1, w1 := 0, w2 := 0) && tag == TurnP1 && prev == old(tag)
              else data == old(data) && tag == old(tag) && prev == old(prev)
      ensures sent == old(sent) + IfMulti(single, [if cdSeconds == 0 then State(TagByte(TurnP1)) else Countdown(cdSeconds)])
    {
      cdSeconds := (cdSeconds - 1) % 256;
      if cdSeconds <= 0 {
        data := data.(w0 := 1);
        BeginTurn(TurnP1);
      } else {
        SendIfMulti(Countdown(cdSeconds));
      }
    }

    method CountDown()
      requires Valid()
      modifies this
      ensures Valid() && View() == TickCountdown(old(View()))
    {
      hide Board.View, Board.Valid, Bot.View, Bot.Valid, Board.Cells, AsByte, IfMulti;
      ghost var h := View();
      if tag == Counting {
        var full := CountTick();
        if full {
          CountSecond();
        }
      }
      assert SameParts(h);
    }

    /** `is_hit` and `is_sunk`, read off the board after a shot. */
    method ReadHit(enemy: Board, c: Cell) returns (hit: bool, sunk: bool)
      requires enemy.Valid() && InGrid(c)
      ensures hit == H.ReadsHit(enemy.View(), c) && sunk == H.ReadsSunk(enemy.View(), c)
    {
      var s := enemy.grid[c.row, c.col];
      hit, sunk := s == Hit || s == Sunk, s == Sunk;
    }

    /** The player in turn has won. */
    method CrownWinner()
      modifies this`data, this`tag, this`prev, this`sent
      ensures var winner: byte := if old(tag) == TurnP1 then 1 else 2;
              && data == old(data).(w0 := winner) && tag == GameOver && prev == old(tag)
              && sent == old(sent) + IfMulti(single, [Winner(winner), State(TagByte(GameOver))])
    {
      var winner: byte := if tag == TurnP1 then 1 else 2;
      data := data.(w0 := winner);
      Enter(GameOver);
      SendIfMulti(Winner(winner));
      SendIfMulti(State(TagByte(GameOver)));
    }

    /** The report is sent, and the fleet is sunk: the winner is announced. */
    method EndBattle(report: Msg)
      requires Valid()
      modifies this`data, this`tag, this`prev, this`sent
      ensures Valid() && View() == BattleOver(old(View()), report)
    {
      hide Board.View, Board.Valid, Bot.View, Bot.Valid, Renderer.View, IfMulti;
      ghost var was, winner: byte := sent, if tag == TurnP1 then 1 else 2;
      SendIfMulti(report);
      CrownWinner();
      MoreSends(was, single, report, Winner(winner), State(TagByte(GameOver)));
    }

    /** The report is sent, and the pause after a miss begins. */
    method StartPause(report: Msg)
      requires Valid()
      modifies this`postWait, this`postTicks, this`sent
      ensures Valid() && View() == PauseBegins(old(View()), report)
    {
      hide Board.View, Board.Valid, Bot.View, Bot.Valid, Renderer.View, IfMulti;
      SendIfMulti(report);
      postWait, postTicks := true, 0;
    }

    /** The report is sent, and the turn goes on. */
    method SendReport(report: Msg)
      requires Valid()
      modifies this`sent
      ensures Valid() && View() == TurnGoesOn(old(View()), report)
    {
      hide Board.View, Board.Valid, Bot.View, Bot.Valid, Renderer.View, IfMulti;
      SendIfMulti(report);
    }

    /** What the game reads off a board about a shot at `c`. */
    method ReadResult(enemy: Board, c: Cell) returns (result: byte)
      requires enemy.Valid() && InGrid(c)
      ensures result == ResultOf(enemy.View(), c)
    {
      var s := enemy.grid[c.row, c.col];
      if s == Miss {
        return ATTACK_MISS;
      }
      return if s == Sunk then ATTACK_SUNK else ATTACK_HIT;
    }

    /** Whether a finished explosion is to be read now; reading clears it. */
    method TakeResult() returns (read: bool)
      modifies expl
      ensures read <==> (tag == TurnP1 || tag == TurnP2) && !postWait && old(expl.finished)
      ensures expl.View() == if read then old(expl.View()).(finished := false) else old(expl.View())
    {
      if (tag != TurnP1 && tag != TurnP2) || postWait {
        return false;
      }
      read := expl.TakeFinished();
    }

    /** The report of a result that was taken, and whether it ends the game. */
    method ReadOut() returns (report: Msg, sunk: bool)
      requires Valid() && InGrid(expl.at)
      ensures expl.at in EnemyBoard(View()).grid
      ensures report == Report(View()) && sunk == AllSunk(EnemyBoard(View()))
    {
      hide Board.Cells, AsByte, ResultOf;
      var enemy := if tag == TurnP1 then p2 else p1;
      var result := ReadResult(enemy, expl.at);
      report := AttackMsg(AsByte(expl.at.col), AsByte(expl.at.row), result);
      sunk := enemy.shipsSunk >= NUM_SHIPS;
    }

    /** A result that was taken is announced: the step is that of a state in which it is still to be taken. */
    method AnnounceResult() returns (ended: bool)
      requires Valid() && (tag == TurnP1 || tag == TurnP2) && !postWait && !expl.finished && InGrid(expl.at)
      modifies this
      ensures Valid()
      ensures var h := old(View()).(expl := old(View()).expl.(finished := true));
              h.expl.at in EnemyBoard(h).grid && View() == TickResolve(h)
      ensures ended <==> View().tag == GameOver && old(View()).tag != GameOver
    {
      Variables();
      hide Valid, View, Report, AllSunk, TickResolve;
      var report, sunk := ReadOut();
      OutcomeIs(View(), View().(expl := View().expl.(finished := true)));
      if sunk {
        EndBattle(report);
      } else if report.AttackMsg? && report.result == ATTACK_MISS {
        StartPause(report);
      } else {
        SendReport(report);
      }
      ended := sunk;
    }

    /** The variables of this object in the state it stands for. */
    lemma Variables()
      requires Valid()
      ensures var h := View();
              && h.tag == tag && h.prev == prev && h.data == data && h.single == single && h.postWait == postWait
              && h.expl.exploding == expl.exploding && h.expl.waiting == expl.waiting && h.expl.finished == expl.finished
              && h.expl.at == expl.at && h.botTimer == botTimer && h.bot == bot.View() && h.p1 == p1.View() && h.p2 == p2.View()
              && FullGrid(h.p1.grid) && FullGrid(h.p2.grid)
    {
    }

    /** Reads the result of a finished explosion off the board; `ended` is the early return. */
    method ResolveShot() returns (ended: bool)
      requires Valid() && (CanResolve(View()) ==> InGrid(View().expl.at))
      modifies this, expl
      ensures Valid() && View() == TickResolve(old(View()))
      ensures ended <==> View().tag == GameOver && old(View()).tag != GameOver
    {
      hide Board.View, Board.Valid, Bot.View, Bot.Valid, TickResolve;
      ghost var h := View();
      NotYetRead(h);
      var read := TakeResult();
      if !read {
        return false;
      }
      assert h == View().(expl := View().expl.(finished := true));
      ended := AnnounceResult();
    }

    static lemma NotYetRead(h: HostState)
      ensures CanResolve(h) || TickResolve(h) == h
    {
    }

    /** The pause after a miss is over: the other player is next. */
    method EndTurn()
      modifies this`postWait, this`postTicks, this`cdTicks, this`data, this`tag, this`prev, this`sent
      ensures !postWait && postTicks == 0 && cdTicks == 0 && prev == old(tag)
      ensures data == old(data).(w0 := if old(tag) == TurnP1 then 2 else 1)
      ensures tag == if old(tag) == TurnP1 then HandoverP2 else HandoverP1
      ensures sent == old(sent) + IfMulti(single, [State(TagByte(tag))])
    {
      postWait, postTicks, cdTicks := false, 0, 0;
      if tag == TurnP1 {
        data := data.(w0 := 2);
        Enter(HandoverP2);
      } else {
        data := data.(w0 := 1);
        Enter(HandoverP1);
      }
      SendIfMulti(State(TagByte(tag)));
    }

    method WaitAfterAttack()
      requires Valid()
      modifies this
      ensures Valid() && View() == TickPostAttack(old(View()))
    {
      hide Board.View, Board.Valid, Bot.View, Bot.Valid, Board.Cells, IfMulti, AsByte;
      ghost var h := View();
      if postWait {
        postTicks := AsByte(postTicks + 1);
        if postTicks >= POST_ATTACK_WAIT_TICKS {
          EndTurn();
        }
      }
      assert SameParts(h);
    }

    method HandOver()
      requires Valid()
      modifies this
      ensures Valid() && View() == TickHandover(old(View()))
    {
      Variables();
      hide Valid, View, IfMulti;
      if tag == HandoverP1 || tag == HandoverP2 {
        var full := TickClock();
        if full {
          NextTurn(if tag == HandoverP1 then TurnP1 else TurnP2);
        }
      }
    }

    /** `CountTick`, seen as a step of the game. */
    method TickClock() returns (full: bool)
      requires Valid()
      modifies this`cdTicks
      ensures Valid() && (full <==> old(View()).cdTicks + 1 >= TICKS_PER_SEC)
      ensures View() == old(View()).(cdTicks := if full then 0 else old(View()).cdTicks + 1)
    {
      hide Board.View, Board.Valid, Bot.View, Bot.Valid, Renderer.View;
      full := CountTick();
    }

    /** `BeginTurn`, seen as a step of the game. */
    method NextTurn(turn: Tag)
      requires Valid()
      modifies this
      ensures Valid()
      ensures var h := old(View());
              View() == h.(data := h.data.(w1 := 0, w2 := 0), tag := turn, prev := h.tag,
                           sent := h.sent + IfMulti(h.single, [State(TagByte(turn))]))
    {
      hide Board.View, Board.Valid, Bot.View, Bot.Valid, Renderer.View, IfMulti;
      BeginTurn(turn);
    }

    method SendCursor()
      requires Valid() && View().cursorTick < 2
      modifies this
      ensures Valid() && View() == TickCursor(old(View()))
    {
      Variables();
      hide Valid, View, AsByte, IfMulti;
      ghost var h := View();
      var full := CountCursor();
      if full && tag == TurnP1 {
        SendReport(Cursor(AsByte(data.w1), AsByte(data.w2)));
      } else {
        assert h.sent + [] == h.sent;
      }
    }

    /** The cursor's send clock. */
    method CountCursor() returns (full: bool)
      requires Valid() && View().cursorTick < 2
      modifies this`cursorTick
      ensures Valid() && (full <==> old(View()).cursorTick + 1 >= 2)
      ensures View() == old(View()).(cursorTick := if full then 0 else old(View()).cursorTick + 1)
    {
      hide Board.View, Board.Valid, Bot.View, Bot.Valid, Renderer.View;
      cursorTick := cursorTick + 1;
      full := cursorTick >= 2;
      if full {
        cursorTick := 0;
      }
    }

    /** Choose, attack, register. */
    method AimAndShoot(patience: nat) returns (c: Cell, hit: bool)
      requires Valid() && Bot.HasFresh(p1)
      modifies p1, p1.grid, p1.ships, bot
      ensures Valid() && R.IsFresh(old(p1.View()).grid, c)
      ensures H.Choose(old(bot.View()), old(p1.View()).grid, c).curr == c
      ensures var h := old(View());
              var shot := Attack(h.p1, c);
              && hit == H.ReadsHit(shot, c)
              && View() == h.(p1 := shot, bot := H.Register(H.Choose(h.bot, h.p1.grid, c), hit, H.ReadsSunk(shot, c)))
    {
      hide Board.Cells, H.Choose, H.Register, Attack, Renderer.View;
      c := bot.ChooseAttack(p1, patience);
      var ship := p1.Shoot(c);
      var sunk;
      hit, sunk := ReadHit(p1, c);
      bot.RegisterResult(hit, sunk);
    }

    method ShowShot(c: Cell, hit: bool)
      requires Valid()
      modifies this`botTimer, expl
      ensures Valid()
      ensures View() == old(View()).(expl := StartExplosion(old(View()).expl, c, hit), botTimer := 0)
    {
      hide Board.View, Board.Valid, Bot.View, Bot.Valid;
      expl.Start(c, hit);
      botTimer := 0;
    }

    /** The bot's shot: choose, attack, register, and show it. */
    method BotFire(patience: nat) returns (ghost pick: Cell)
      requires Valid() && Bot.HasFresh(p1)
      modifies this`botTimer, p1, p1.grid, p1.ships, expl, bot
      ensures Valid()
      ensures R.IsFresh(old(p1.View()).grid, pick)
      ensures H.Choose(old(bot.View()), old(p1.View()).grid, pick).curr in old(p1.View()).grid
      ensures View() == BotShot(old(View()), pick)
    {
      Variables();
      hide Valid, View, Bot.HasFresh, H.Choose, H.Register, Attack, StartExplosion;
      var c, hit := AimAndShoot(patience);
      ShowShot(c, hit);
      pick := c;
    }

    /** The bot places its fleet, and the countdown starts. */
    method BotPlace(patience: nat) returns (ghost fleet: seq<Placement>)
      requires Valid() && p2.View() == InitialBoard()
      modifies this, p2, p2.grid, p2.ships
      ensures Valid() && FullFleet(fleet)
      ensures View() == old(View()).(p2 := BoardOf(fleet, {}), cdSeconds := COUNTDOWN_START, cdTicks := 0,
                                     tag := Counting, prev := old(tag))
    {
      hide Valid, View, BoardOf, FullFleet, InitialBoard;
      Variables();
      fleet := BotsFleet(patience);
      StartCountdown();
    }

    /** `bot_place_ships` on the empty board. */
    method BotsFleet(patience: nat) returns (ghost fleet: seq<Placement>)
      requires Valid() && p2.View() == InitialBoard()
      modifies p2, p2.grid, p2.ships
      ensures Valid() && FullFleet(fleet) && View() == old(View()).(p2 := BoardOf(fleet, {}))
    {
      hide Board.Cells, BoardOf, FullFleet, InitialBoard, Renderer.View, Bot.View;
      bot.PlaceShips(p2, patience);
      fleet := FleetOf(p2.View());
    }

    method StartCountdown()
      requires Valid()
      modifies this
      ensures Valid()
      ensures View() == old(View()).(cdSeconds := COUNTDOWN_START, cdTicks := 0, tag := Counting, prev := old(View()).tag)
    {
      hide Board.View, Board.Valid, Bot.View, Bot.Valid, Renderer.View;
      cdSeconds, cdTicks := COUNTDOWN_START, 0;
      Enter(Counting);
    }

    /** Before the bot has placed its ships its board is empty. */
    lemma NothingPlaced()
      requires Valid() && Inv(View()) && tag == PlaceP2
      ensures p2.View() == InitialBoard()
    {
      UnshotBoard(p2.View());
      InitialIsBoardOf();
      assert FleetOf(p2.View()) == [];
    }

    lemma CanDraw(pick: Cell, fleet: seq<Placement>)
      requires Valid() && Inv(View()) && FairDraws(View(), pick, fleet) && Settled(View()) && BotFires(View())
      ensures Bot.HasFresh(p1)
    {
      BotAims(View(), pick, fleet);
    }

    method CountBot()
      requires Valid()
      modifies this`botTimer
      ensures Valid() && View() == old(View()).(botTimer := AsByte(old(View()).botTimer + 1)) && botTimer == View().botTimer
    {
      hide Board.View, Board.Valid, Bot.View, Bot.Valid, Renderer.View;
      botTimer := (botTimer + 1) % 256;
    }

    /** The bot waits before it places its ships. */
    method BotInPlacing(patience: nat, ghost pick: Cell, ghost fleet0: seq<Placement>) returns (ghost fleet: seq<Placement>)
      requires Valid() && single && tag == PlaceP2 && p2.View() == InitialBoard() && FairDraws(View(), pick, fleet0)
      modifies this, p2, p2.grid, p2.ships
      ensures Valid() && FairDraws(old(View()), pick, fleet)
      ensures !BotFires(old(View())) && View() == TickBot(old(View()), pick, fleet)
    {
      Variables();
      hide Valid, View, InitialBoard, BoardOf, FullFleet;
      fleet := fleet0;
      CountBot();
      if botTimer >= TICKS_PER_SEC * 2 {
        fleet := BotPlace(patience);
      }
    }

    /** The bot waits before it fires. */
    method BotInTurn(patience: nat, ghost pick0: Cell, ghost fleet: seq<Placement>) returns (ghost pick: Cell)
      requires Valid() && BotReady(View()) && FairDraws(View(), pick0, fleet) && (BotFires(View()) ==> Bot.HasFresh(p1))
      modifies this`botTimer, p1, p1.grid, p1.ships, expl, bot
      ensures Valid() && FairDraws(old(View()), pick, fleet)
      ensures old(BotFires(View())) ==> forall x :: x in old(p1.View()).grid ==> InGrid(x)
      ensures old(BotFires(View())) ==> H.Choose(old(bot.View()), old(p1.View()).grid, pick).curr in old(p1.View()).grid
      ensures View() == TickBot(old(View()), pick, fleet)
    {
      hide Board.Cells, H.Choose, BoardOf, FullFleet;
      pick := pick0;
      botTimer := (botTimer + 1) % 256;
      if botTimer >= TICKS_PER_SEC {
        pick := BotFire(patience);
      }
    }

    static lemma BotIdles(h: HostState, pick: Cell, fleet: seq<Placement>)
      requires !BotReady(h) && !(h.single && h.tag == PlaceP2)
      ensures !BotFires(h) && TickBot(h, pick, fleet) == h
    {
    }

    /** The bot's part of the tick. */
    method BotTurn(patience: nat, ghost pick0: Cell, ghost fleet0: seq<Placement>)
        returns (ghost pick: Cell, ghost fleet: seq<Placement>)
      requires Valid() && Inv(View()) && Settled(View()) && FairDraws(View(), pick0, fleet0)
      modifies this, p1, p1.grid, p1.ships, p2, p2.grid, p2.ships, expl, bot
      ensures Valid()
      ensures FairDraws(old(View()), pick, fleet)
      ensures old(BotFires(View())) ==> forall x :: x in old(p1.View()).grid ==> InGrid(x)
      ensures old(BotFires(View())) ==> H.Choose(old(bot.View()), old(p1.View()).grid, pick).curr in old(p1.View()).grid
      ensures View() == TickBot(old(View()), pick, fleet)
    {
      Variables();
      if BotFires(View()) { CanDraw(pick0, fleet0); }
      if tag == PlaceP2 { NothingPlaced(); }
      hide Valid, View, Inv, Settled, FairDraws, TickBot, BotFires, InitialBoard, Bot.HasFresh, H.Choose, AsByte;
      pick, fleet := pick0, fleet0;
      if single && tag == PlaceP2 {
        fleet := BotInPlacing(patience, pick0, fleet0);
      } else if single && tag == TurnP2 && !expl.exploding && !expl.waiting && !postWait {
        pick := BotInTurn(patience, pick0, fleet0);
      } else {
        BotIdles(View(), pick0, fleet0);
      }
    }

    /** The stages behind the reading of a result. */
    method MoveOn()
      requires Valid() && TickHandover(TickPostAttack(View())).cursorTick < 2
      modifies this
      ensures Valid() && View() == TickCursor(TickHandover(TickPostAttack(old(View()))))
    {
      hide Valid, View, TickPostAttack, TickHandover, TickCursor;
      WaitAfterAttack();
      HandOver();
      SendCursor();
    }

    /** The stages of the timer before the bot's. */
    method RunClocks() returns (ended: bool)
      requires Valid() && Control(View())
      modifies this, expl
      ensures Valid() && View() == BeforeBot(old(View()))
      ensures ended <==> EndsNow(old(View()))
    {
      ClocksSafe(View());
      StagesAre(View());
      hide Valid, View, Control, CanResolve, BeforeBot, EndsNow, TickCountdown, TickResolve, TickPostAttack, TickHandover, TickCursor;
      CountDown();
      ended := ResolveShot();
      if !ended {
        MoveOn();
      }
    }

    lemma SomeDraws() returns (pick: Cell, fleet: seq<Placement>)
      requires Valid()
      ensures FairDraws(View(), pick, fleet)
    {
      pick, fleet := Cell(0, 0), HR.TWINS;
      HR.TwinsAreAFullFleet();
      if c: Cell :| R.IsFresh(p1.View().grid, c) { pick := c; }
    }

    /** `update_animations`. */
    method Animations()
      requires Valid()
      modifies expl
      ensures Valid() && View() == old(View()).(expl := Animate(old(View()).expl))
    {
      hide Board.View, Board.Valid, Bot.View, Bot.Valid;
      expl.Update();
    }

    /** `handle_timer`, as far as the game goes: `game_handle_timer`, then `update_animations`. `pick` and
        `fleet` are what the bot's draws ended with. */
    method Timer(patience: nat) returns (ghost pick: Cell, ghost fleet: seq<Placement>)
      requires Valid() && Inv(View())
      modifies this, p1, p1.grid, p1.ships, p2, p2.grid, p2.ships, expl, bot
      ensures Valid() && FairDraws(old(View()), pick, fleet)
      ensures View() == Tick(old(View()), pick, fleet)
    {
      BeforeBotKeeps(View());
      hide Valid, View, BeforeBot, EndsNow, Inv, Settled, TickBot, BotFires, Animate;
      var ended := RunClocks();
      pick, fleet := SomeDraws();
      if !ended {
        pick, fleet := BotTurn(patience, pick, fleet);
      }
      Animations();
    }

    // -------------------------------------------------------------------------------------------
    // Keyboard and mouse
    // -------------------------------------------------------------------------------------------

    /** Both boards and the explosion as at the start of a game. */
    method ClearBoards()
      requires Valid()
      modifies p1, p1.grid, p1.ships, p2, p2.grid, p2.ships, expl
      ensures Valid() && View() == old(View()).(p1 := InitialBoard(), p2 := InitialBoard(), expl := ResetExplosion())
    {
      hide InitialBoard, Board.Cells;
      p1.Init();
      p2.Init();
      expl.Reset();
    }

    /** The variables of a new game. */
    method OpenGame(alone: bool)
      modifies this`single, this`data, this`connected, this`remoteReady, this`tag, this`prev
      ensures single == alone && data == Words(1, 0, 0, 0, 0) && prev == old(tag)
      ensures connected == (old(connected) && alone) && remoteReady == (old(remoteReady) && alone)
      ensures tag == if alone then PlaceP1 else WaitingConnect
    {
      single := alone;
      data := Words(1, 0, 0, 0, 0);
      if alone {
        Enter(PlaceP1);
      } else {
        connected, remoteReady := false, false;
        Enter(WaitingConnect);
      }
    }

    /** The first two items of the main menu. */
    method StartGame(alone: bool)
      requires Valid()
      modifies this, p1, p1.grid, p1.ships, p2, p2.grid, p2.ships, expl, bot
      ensures Valid() && View() == NewGame(old(View()), alone)
    {
      hide Board.View, Board.Valid, Bot.Valid, InitialBoard, ResetExplosion, H.ResetBot;
      ClearBoards();
      ResetTheBot();
      OpenGame(alone);
    }

    method ResetTheBot()
      requires Valid()
      modifies bot
      ensures Valid() && View() == old(View()).(bot := H.ResetBot())
    {
      hide Board.View, Board.Valid, Renderer.View;
      bot.Reset();
    }

    method Choose(item: int)
      requires Valid()
      modifies this, p1, p1.grid, p1.ships, p2, p2.grid, p2.ships, expl, bot
      ensures Valid() && View() == MenuChoice(old(View()), item)
    {
      hide NewGame, Board.View, Board.Valid, Bot.View, Bot.Valid;
      if item == 0 {
        StartGame(true);
      } else if item == 1 {
        StartGame(false);
      } else if item == 2 {
        Enter(Instructions);
      } else if item == 3 {
        over := true;
      }
    }

    /** `board_can_place` and `board_place_ship`: what Enter and a click do to a board. */
    method PlaceIfFits(board: Board, p: Placement) returns (ok: bool, full: bool)
      requires board.Valid() && InGrid(Cell(p.col, p.row)) && 1 <= p.size && board.shipsPlaced < NUM_SHIPS
      modifies board, board.grid, board.ships
      ensures board.Valid() && ok == CanPlace(old(board.View()), p)
      ensures board.View() == if ok then PlaceShip(old(board.View()), p) else old(board.View())
      ensures full <==> |board.View().ships| >= NUM_SHIPS
    {
      hide Board.Cells, PlaceShip;
      ok := board.CanPlaceAt(p);
      if ok {
        board.Place(p);
      }
      full := board.shipsPlaced >= NUM_SHIPS;
    }

    /** Enter or a click while player 1 places ships. */
    method Commit()
      requires Valid() && tag == PlaceP1 && 0 <= data.w1 < NUM_SHIPS && InGrid(Cell(data.w3, data.w4))
      requires p1.shipsPlaced < NUM_SHIPS
      modifies this, p1, p1.grid, p1.ships
      ensures Valid() && View() == CommitShip(old(View()))
    {
      Variables();
      CommitIs(View());
      hide Valid, View, PlaceShip, CanPlace, CommitShip, NextShipOf, CompletedFleet;
      var p := Placement(data.w3, data.w4, SHIP_SIZES[data.w1], data.w1, OrientOf(data.w2));
      var ok, full := PlaceOnOwnBoard(p);
      if ok {
        if !full {
          NextShip();
        } else {
          FleetComplete();
        }
      }
    }

    method PlaceOnOwnBoard(p: Placement) returns (ok: bool, full: bool)
      requires Valid() && InGrid(Cell(p.col, p.row)) && 1 <= p.size && p1.shipsPlaced < NUM_SHIPS
      modifies p1, p1.grid, p1.ships
      ensures Valid() && FullGrid(old(View()).p1.grid) && ok == CanPlace(old(View()).p1, p)
      ensures View() == if ok then old(View()).(p1 := PlaceShip(old(View()).p1, p)) else old(View())
      ensures full <==> |View().p1.ships| >= NUM_SHIPS
    {
      hide Board.View, Board.Valid, Bot.View, Bot.Valid, Renderer.View, PlaceShip, CanPlace;
      ok, full := PlaceIfFits(p1, p);
    }

    method PlaceOnBotsBoard(p: Placement) returns (ok: bool, full: bool)
      requires Valid() && InGrid(Cell(p.col, p.row)) && 1 <= p.size && p2.shipsPlaced < NUM_SHIPS
      modifies p2, p2.grid, p2.ships
      ensures Valid() && FullGrid(old(View()).p2.grid) && ok == CanPlace(old(View()).p2, p)
      ensures View() == if ok then old(View()).(p2 := PlaceShip(old(View()).p2, p)) else old(View())
      ensures full <==> |View().p2.ships| >= NUM_SHIPS
    {
      hide Board.View, Board.Valid, Bot.View, Bot.Valid, Renderer.View, PlaceShip, CanPlace;
      ok, full := PlaceIfFits(p2, p);
    }

    method NextShip()
      requires Valid()
      modifies this`data
      ensures Valid() && View() == NextShipOf(old(View()))
    {
      hide Board.View, Board.Valid, Bot.View, Bot.Valid, Renderer.View;
      data := data.(w1 := data.w1 + 1, w3 := 0, w4 := 0);
    }

    /** Player 1's fleet is complete. */
    method FleetComplete()
      requires Valid()
      modifies this
      ensures Valid() && View() == CompletedFleet(old(View()))
    {
      hide Board.View, Board.Valid, Bot.View, Bot.Valid, Renderer.View;
      AllPlaced();
    }

    /** Enter has completed a fleet on the bot's board. */
    method BotsBoardFull()
      requires Valid()
      modifies this
      ensures Valid()
      ensures View() == old(View()).(tag := PlaceWaiting, prev := old(View()).tag, sent := old(View()).sent + [DonePlacing])
    {
      hide Board.View, Board.Valid, Bot.View, Bot.Valid, Renderer.View;
      Enter(PlaceWaiting);
      sent := sent + [DonePlacing];
    }

    /** Enter while the bot is to place its ships. */
    method CommitOnBotsBoard()
      requires Valid() && tag == PlaceP2 && 0 <= data.w1 < NUM_SHIPS && InGrid(Cell(data.w3, data.w4))
      requires p2.shipsPlaced < NUM_SHIPS
      modifies this, p2, p2.grid, p2.ships
      ensures Valid() && View() == CommitForBot(old(View()))
    {
      Variables();
      BotsCommitIs(View());
      hide Valid, View, PlaceShip, CanPlace, CommitForBot, NextShipOf;
      var p := Placement(data.w3, data.w4, SHIP_SIZES[data.w1], data.w1, OrientOf(data.w2));
      var ok, full := PlaceOnBotsBoard(p);
      if ok {
        if !full {
          NextShip();
        } else {
          BotsBoardFull();
        }
      }
    }

    /** Player 1's fleet is complete. */
    method AllPlaced()
      modifies this`data, this`botTimer, this`tag, this`prev, this`sent
      ensures data == Words(old(data).w0, 0, 0, 0, 0) && prev == old(tag)
      ensures tag == if single then PlaceP2 else PlaceWaiting
      ensures botTimer == if single then 0 else old(botTimer)
      ensures sent == old(sent) + IfMulti(single, [State(TagByte(PlaceP2))])
    {
      data := data.(w1 := 0, w2 := 0, w3 := 0, w4 := 0);
      if single {
        botTimer := 0;
        Enter(PlaceP2);
      } else {
        Enter(PlaceWaiting);
        sent := sent + [State(TagByte(PlaceP2))];
      }
    }

    /** Enter, Space or a click in player 1's turn. */
    method Fire(c: Cell)
      requires Valid() && InGrid(c)
      modifies p2, p2.grid, p2.ships, expl
      ensures Valid() && View() == FireAt(old(View()), c)
    {
      hide Attack;
      var done := p2.AlreadyAttacked(c);
      if !done {
        var ship := p2.Shoot(c);
        var hit, sunk := ReadHit(p2, c);
        expl.Start(c, hit);
      }
    }

    method MoveShip(code: KeyCode)
      modifies this`data
      ensures data == MovePlaceCursor(old(data), code)
    {
      if code == KeyUp {
        data := data.(w4 := if data.w4 > 0 then data.w4 - 1 else 0);
      } else if code == KeyDown {
        data := data.(w4 := if data.w4 < ROWS - 1 then data.w4 + 1 else ROWS - 1);
      } else if code == KeyLeft {
        data := data.(w3 := if data.w3 > 0 then data.w3 - 1 else 0);
      } else if code == KeyRight {
        data := data.(w3 := if data.w3 < COLS - 1 then data.w3 + 1 else COLS - 1);
      }
      if code == KeyR {
        data := data.(w2 := Flip(data.w2));
      }
    }

    method MoveCursor(code: KeyCode)
      modifies this`data
      ensures data == MoveTurnCursor(old(data), code)
    {
      if code == KeyUp {
        data := data.(w2 := if data.w2 > 0 then data.w2 - 1 else 0);
      }
      if code == KeyDown {
        data := data.(w2 := if data.w2 < ROWS - 1 then data.w2 + 1 else ROWS - 1);
      }
      if code == KeyLeft {
        data := data.(w1 := if data.w1 > 0 then data.w1 - 1 else 0);
      }
      if code == KeyRight {
        data := data.(w1 := if data.w1 < COLS - 1 then data.w1 + 1 else COLS - 1);
      }
    }

    /** The variables that the code of the states indexes its arrays with are in range. */
    ghost predicate Safe()
      requires Valid()
      reads this, p1, p2, p1.ships, p2.ships, bot
    {
      && (tag == PlaceP1 || tag == PlaceP2 ==> 0 <= data.w1 < NUM_SHIPS && InGrid(Cell(data.w3, data.w4)))
      && (tag == PlaceP1 ==> p1.shipsPlaced < NUM_SHIPS) && (tag == PlaceP2 ==> p2.shipsPlaced < NUM_SHIPS)
      && (tag == TurnP1 ==> InGrid(Cell(data.w1, data.w2)))
    }

    lemma InvIsSafe()
      requires Valid() && Inv(View())
      ensures Safe() && CursorSafe(View())
    {
    }

    /** `transition` to the pause or back. */
    method Switch(next: Tag)
      requires Valid()
      modifies this
      ensures Valid() && View() == Transition(old(View()), next)
    {
      hide Board.View, Board.Valid, Bot.View, Bot.Valid, Renderer.View;
      Enter(next);
    }

    method SteerShip(code: KeyCode)
      requires Valid()
      modifies this
      ensures Valid() && View() == old(View()).(data := MovePlaceCursor(old(View()).data, code))
    {
      hide Board.View, Board.Valid, Bot.View, Bot.Valid, Renderer.View, MovePlaceCursor;
      MoveShip(code);
    }

    method SteerCursor(code: KeyCode)
      requires Valid()
      modifies this
      ensures Valid() && View() == old(View()).(data := MoveTurnCursor(old(View()).data, code))
    {
      hide Board.View, Board.Valid, Bot.View, Bot.Valid, Renderer.View, MoveTurnCursor;
      MoveCursor(code);
    }

    /** Another menu item; 2 and 4 are the sizes of the pause menu and the main menu. */
    method SelectItem(item: int)
      requires Valid()
      modifies this
      ensures Valid() && View() == old(View()).(data := old(View()).data.(w0 := item)) && data.w0 == item && prev == old(prev)
    {
      hide Board.View, Board.Valid, Bot.View, Bot.Valid, Renderer.View;
      data := data.(w0 := item);
    }

    /** The other item of the pause menu. */
    method OtherItem()
      requires Valid()
      modifies this`data
      ensures Valid() && View() == OtherItemOf(old(View()))
    {
      hide Board.View, Board.Valid, Bot.View, Bot.Valid, Renderer.View;
      data := data.(w0 := (data.w0 + 1) % 2);
    }

    /** The exit flag. */
    method Stop()
      requires Valid()
      modifies this
      ensures Valid() && View() == old(View()).(over := true) && data == old(data) && tag == old(tag)
    {
      hide Board.View, Board.Valid, Bot.View, Bot.Valid, Renderer.View;
      over := true;
    }

    method KeyInMenu(code: KeyCode, make: bool)
      requires Valid() && tag == MainMenu
      modifies this, p1, p1.grid, p1.ships, p2, p2.grid, p2.ships, expl, bot
      ensures Valid() && View() == HandleKey(old(View()), code, make)
    {
      Variables();
      hide Valid, View, CommitShip, CommitForBot, MovePlaceCursor, MoveTurnCursor, MenuChoice, FireAt, InitialBoard, InputBlocked;
      if make && code == KeyUp {
        SelectItem((data.w0 + 3) % 4);
      } else if make && code == KeyDown {
        SelectItem((data.w0 + 1) % 4);
      } else if !make && code == KeyEsc {
        Stop();
      } else if make && code == KeyEnter {
        Choose(data.w0);
      }
    }

    method KeyInPlace(code: KeyCode, make: bool)
      requires Valid() && Safe() && (tag == PlaceP1 || tag == PlaceP2)
      requires CursorSafe(View())
      modifies this, p1, p1.grid, p1.ships, p2, p2.grid, p2.ships
      ensures Valid() && View() == HandleKey(old(View()), code, make)
    {
      Variables();
      hide Valid, View, CommitShip, CommitForBot, MovePlaceCursor, MoveTurnCursor, MenuChoice, FireAt, InitialBoard, InputBlocked;
      if make && code == KeyEnter {
        if tag == PlaceP1 {
          Commit();
        } else {
          CommitOnBotsBoard();
        }
      } else if make {
        SteerShip(code);
      } else if code == KeyEsc {
        Switch(Paused);
      }
    }

    method KeyInTurn(code: KeyCode, make: bool)
      requires Valid() && Safe() && tag == TurnP1 && CursorSafe(View())
      modifies this, p2, p2.grid, p2.ships, expl
      ensures Valid() && View() == HandleKey(old(View()), code, make)
    {
      Variables();
      TurnKeyIs(View(), code, make);
      hide Valid, View, HandleKey, CursorSafe, MoveTurnCursor, FireAt;
      if expl.exploding || expl.waiting || postWait {
        return;
      }
      if make && (code == KeyEnter || code == KeySpace) {
        Fire(Cell(data.w1, data.w2));
      } else if make {
        SteerCursor(code);
      } else if code == KeyEsc {
        Switch(Paused);
      }
    }

    /** The pause menu: resume, or leave the program. */
    method ChooseInPause()
      requires Valid()
      modifies this
      ensures Valid() && View() == ChosenInPause(old(View()))
    {
      Variables();
      hide Valid, View, Transition;
      if data.w0 == 0 {
        Switch(prev);
      } else if data.w0 == 1 {
        Stop();
      }
    }

    method KeyInPause(code: KeyCode, make: bool)
      requires Valid() && tag == Paused
      modifies this
      ensures Valid() && View() == HandleKey(old(View()), code, make)
    {
      Variables();
      PauseKeyIs(View(), code, make);
      hide Valid, View, HandleKey, Transition, OtherItemOf, ChosenInPause, CursorSafe;
      if make && (code == KeyUp || code == KeyDown) {
        OtherItem();
      } else if make && code == KeyEnter {
        ChooseInPause();
      } else if !make && code == KeyEsc {
        Switch(prev);
      }
    }

    /** The end of a game is left. */
    method BackToMenu()
      requires Valid()
      modifies this
      ensures Valid()
      ensures View() == old(View()).(data := old(View()).data.(w0 := 0), tag := MainMenu, prev := old(View()).tag,
                                     sent := old(View()).sent + [State(TagByte(MainMenu))])
    {
      hide Board.View, Board.Valid, Bot.View, Bot.Valid, Renderer.View;
      data := data.(w0 := 0);
      Enter(MainMenu);
      sent := sent + [State(TagByte(MainMenu))];
    }

    method KeyAtEnd(code: KeyCode, make: bool)
      requires Valid() && tag == GameOver
      modifies this, p1, p1.grid, p1.ships, p2, p2.grid, p2.ships, expl
      ensures Valid() && View() == HandleKey(old(View()), code, make)
    {
      Variables();
      hide Valid, View, CommitShip, CommitForBot, MovePlaceCursor, MoveTurnCursor, MenuChoice, FireAt, InitialBoard, InputBlocked;
      if make && code == KeyEnter {
        ClearBoards();
        BackToMenu();
      } else if !make && code == KeyEsc {
        Stop();
      }
    }

    /** `game_handle_keyboard`. */
    method Keyboard(code: KeyCode, make: bool)
      requires Valid() && Inv(View())
      modifies this, p1, p1.grid, p1.ships, p2, p2.grid, p2.ships, expl, bot
      ensures Valid() && CursorSafe(old(View())) && View() == HandleKey(old(View()), code, make)
    {
      InvIsSafe();
      hide Inv, Valid, Safe, CursorSafe, MenuChoice, CommitShip, FireAt;
      match tag
      case MainMenu => KeyInMenu(code, make);
      case Instructions =>
        if (make && code == KeyEnter) || (!make && code == KeyEsc) {
          Leave();
        }
      case PlaceP1 => KeyInPlace(code, make);
      case PlaceP2 => KeyInPlace(code, make);
      case TurnP1 => KeyInTurn(code, make);
      case Paused => KeyInPause(code, make);
      case GameOver => KeyAtEnd(code, make);
      case _ =>
    }

    /** Back from the instructions. */
    method Leave()
      requires Valid()
      modifies this
      ensures Valid() && View() == Transition(old(View()), MainMenu)
    {
      hide Board.View, Board.Valid, Bot.View, Bot.Valid;
      Enter(MainMenu);
    }

    method MouseInMenu(m: MouseEvent)
      requires Valid() && tag == MainMenu && MouseOk(m)
      modifies this, p1, p1.grid, p1.ships, p2, p2.grid, p2.ships, expl, bot
      ensures Valid() && View() == HandleMouse(old(View()), m)
    {
      hide MenuChoice, Board.View, Board.Valid, Bot.View, Bot.Valid;
      if m.moved && m.item.Some? && m.item.value != data.w0 {
        data := data.(w0 := m.item.value);
      }
      if m.clicked && m.item.Some? {
        Choose(m.item.value);
      }
    }

    method MouseInPlace(m: MouseEvent)
      requires Valid() && Safe() && tag == PlaceP1 && MouseOk(m) && CursorSafe(View())
      modifies this, p1, p1.grid, p1.ships
      ensures Valid() && View() == HandleMouse(old(View()), m)
    {
      hide CommitShip, Board.View, Board.Valid, Bot.View, Bot.Valid;
      if m.moved && m.over.Some? {
        data := data.(w3 := m.over.value.col, w4 := m.over.value.row);
      }
      if m.clicked {
        Commit();
      }
    }

    method MouseInTurn(m: MouseEvent)
      requires Valid() && Safe() && tag == TurnP1 && MouseOk(m) && CursorSafe(View())
      modifies this, p2, p2.grid, p2.ships, expl
      ensures Valid() && View() == HandleMouse(old(View()), m)
    {
      hide FireAt, Board.View, Board.Valid, Bot.View, Bot.Valid;
      if expl.exploding || expl.waiting || postWait {
        return;
      }
      if m.moved && m.over.Some? {
        data := data.(w1 := m.over.value.col, w2 := m.over.value.row);
      }
      if m.clicked {
        Fire(Cell(data.w1, data.w2));
      }
    }

    method MouseInPause(m: MouseEvent)
      requires Valid() && tag == Paused && MouseOk(m)
      modifies this
      ensures Valid() && View() == HandleMouse(old(View()), m)
    {
      Variables();
      PauseMouseIs(View(), m);
      hide Valid, View, HandleMouse, Transition;
      if m.moved && m.item.Some? && m.item.value != data.w0 {
        SelectItem(m.item.value);
      }
      if m.clicked && m.item.Some? {
        if m.item.value == 0 {
          Switch(prev);
        }
        if m.item.value == 1 {
          Stop();
        }
      }
    }

    /** `game_handle_mouse`. */
    method MousePacket(m: MouseEvent)
      requires Valid() && Inv(View()) && MouseOk(m)
      modifies this, p1, p1.grid, p1.ships, p2, p2.grid, p2.ships, expl, bot
      ensures Valid() && CursorSafe(old(View())) && View() == HandleMouse(old(View()), m)
    {
      InvIsSafe();
      hide Inv, Valid, Safe, CursorSafe, MenuChoice, CommitShip, FireAt;
      match tag
      case MainMenu => MouseInMenu(m);
      case Instructions =>
        if m.clicked {
          Leave();
        }
      case PlaceP1 => MouseInPlace(m);
      case TurnP1 => MouseInTurn(m);
      case Paused => MouseInPause(m);
      case _ =>
    }

    // -------------------------------------------------------------------------------------------
    // Messages
    // -------------------------------------------------------------------------------------------

    method Greet()
      requires Valid()
      modifies this
      ensures Valid() && View() == HandleMsg(old(View()), Hello)
    {
      hide Board.View, Board.Valid, Bot.View, Bot.Valid, FleetMsgs, ShipOf, PlaceShip, Attack;
      ghost var h := View();
      if !connected {
        connected := true;
        sent := sent + [HelloAck];
        if tag == WaitingConnect {
          Enter(PlaceP1);
          sent := sent + [State(TagByte(PlaceP1))];
        } else {
          remoteReady := true;
        }
      }
      assert SameParts(h);
    }

    /** The loop that sends player 1's fleet. */
    method SendFleet()
      requires Valid()
      modifies this`sent
      ensures sent == old(sent) + FleetMsgs(p1.View().ships)
    {
      for i := 0 to p1.shipsPlaced
        invariant sent == old(sent) + FleetMsgs(p1.View().ships)[..i]
      {
        sent := sent + [ShipMsg(p1.ships[i].at)];
      }
    }

    method BeginCountdown()
      modifies this`cdSeconds, this`cdTicks, this`tag, this`prev, this`sent
      ensures cdSeconds == COUNTDOWN_START && cdTicks == 0 && tag == Counting && prev == old(tag)
      ensures sent == old(sent) + [State(TagByte(Counting)), Countdown(COUNTDOWN_START)]
    {
      cdSeconds, cdTicks := COUNTDOWN_START, 0;
      Enter(Counting);
      sent := sent + [State(TagByte(Counting))];
      sent := sent + [Countdown(cdSeconds)];
    }

    method ClientIsDone()
      requires Valid()
      modifies this
      ensures Valid() && View() == HandleMsg(old(View()), DonePlacing)
    {
      hide Board.View, Board.Valid, Bot.View, Bot.Valid, FleetMsgs, ShipOf, PlaceShip, Attack;
      ghost var h := View();
      if tag == PlaceWaiting {
        SendFleet();
        BeginCountdown();
      }
      assert SameParts(h);
    }

    method ClientFires(c: Cell, ghost m: Msg)
      requires Valid() && InGrid(c) && tag == TurnP2 && m.AttackMsg? && c == Cell(m.col, m.row)
      modifies p1, p1.grid, p1.ships, expl
      ensures Valid() && c in old(p1.View()).grid
      ensures View() == HandleMsg(old(View()), m)
    {
      hide Attack, Bot.View, Bot.Valid, Board.Cells;
      var done := p1.AlreadyAttacked(c);
      if !done {
        var ship := p1.Shoot(c);
        var hit, sunk := ReadHit(p1, c);
        expl.Start(c, hit);
      }
    }

    method PlaceRemote(p: Placement)
      requires Valid() && InBounds(p) && p2.shipsPlaced < NUM_SHIPS
      modifies p2, p2.grid, p2.ships
      ensures Valid() && View() == old(View()).(p2 := PlaceShip(old(p2.View()), p))
    {
      hide PlaceShip;
      p2.Place(p);
    }

    /** The message does not lead the host out of its arrays. */
    ghost predicate MsgSafe(m: Msg)
      requires Valid()
      reads this, p1, p2, p1.ships, p2.ships, bot
    {
      && (m.AttackMsg? && tag == TurnP2 ==> InGrid(Cell(m.col, m.row)))
      && (m.ShipPlace? ==> InBounds(ShipOf(m)) && p2.shipsPlaced < NUM_SHIPS)
    }

    /** `game_handle_serial_msg` on the host, in any state and for any message that is safe there. */
    method SerialMsg(m: Msg)
      requires Valid() && MsgSafe(m)
      modifies this, p1, p1.grid, p1.ships, p2, p2.grid, p2.ships, expl
      ensures Valid()
      ensures m.AttackMsg? && old(tag) == TurnP2 ==> Cell(m.col, m.row) in old(p1.View()).grid
      ensures View() == HandleMsg(old(View()), m)
    {
      hide PlaceShip, Attack, FleetMsgs, Board.View, Board.Valid, Bot.View, Bot.Valid, Renderer.View;
      match m
      case Hello => Greet();
      case DonePlacing => ClientIsDone();
      case ShipPlace(_, _, _, _) => PlaceRemote(ShipOf(m));
      case AttackMsg(col, row, _) =>
        if tag == TurnP2 {
          ClientFires(Cell(col, row), m);
        }
      case Cursor(col, row) => remote := Cell(SignedByte(col), SignedByte(row));
      case ClientQuit => over := true;
      case _ =>
    }
  }
}
