/** bot.c as it runs: file-level variables updated inside loops, over a board it only reads. */
module BotObject {
  import opened Boards
  import opened BoardObject
  import opened Rays
  import opened Hunt
  import opened Fitting

  /** What a look at the next cell of a ray finds. */
  datatype Sight = Target | Run | Blocked

  class Bot {
    var mode: Mode
    var first: Cell
    var curr: Cell
    var dir: Dir
    var tried: int

    ghost predicate Valid()
      reads this
    {
      InGrid(first) && InGrid(curr)
    }

    ghost function View(): BotState
      reads this
    {
      BotState(mode, first, curr, dir, tried)
    }

    constructor ()
      ensures Valid() && View() == ResetBot()
    {
      mode, first, curr, dir, tried := Random, Cell(0, 0), Cell(0, 0), 0, 0;
    }

    /** `bot_reset`. */
    method Reset()
      modifies this
      ensures Valid() && View() == ResetBot()
    {
      mode, tried, dir := Random, 0, 0;
      first, curr := Cell(0, 0), Cell(0, 0);
    }

    /** `bot_register_result`. */
    method RegisterResult(hit: bool, sunk: bool)
      requires Valid()
      modifies this
      ensures Valid() && View() == Register(old(View()), hit, sunk)
    {
      if sunk {
        mode := Random;
        return;
      }
      if mode == Random {
        if hit {
          mode := SearchDir;
          first := curr;
          dir := 0;
          tried := 0;
        }
      } else if mode == SearchDir {
        if hit {
          mode := Destroy;
        } else {
          dir := (dir + 1) % 4;
          tried := tried + 1;
          curr := first;
          if tried >= 4 {
            mode := Random;
          }
        }
      } else if !hit {
        dir := (dir + 2) % 4;
        curr := first;
      }
    }

    /** Some cell of the board was never attacked. */
    static ghost predicate HasFresh(enemy: Board)
      requires enemy.Valid()
      reads enemy, enemy.grid, enemy.ships
    {
      exists c: Cell :: IsFresh(enemy.View().grid, c)
    }

    /** The random branch of `bot_choose_attack`. `rand()` is arbitrary, except that after at most
        `patience` rejected draws it yields a cell that is accepted. */
    method DrawCell(enemy: Board, patience: nat)
      requires Valid() && enemy.Valid()
      requires HasFresh(enemy)
      modifies this`curr
      ensures Valid() && IsFresh(enemy.View().grid, curr)
    {
      var left := patience;
      var valid := false;
      ghost var fair: Cell :| IsFresh(enemy.View().grid, fair);
      while !valid
        invariant InGrid(curr)
        invariant valid ==> IsFresh(enemy.View().grid, curr)
        decreases !valid, left
      {
        assert InGrid(Cell(fair.col, fair.row)) && IsFresh(enemy.View().grid, Cell(fair.col, fair.row));
        var c, r :| 0 <= c < COLS && 0 <= r < ROWS && (left == 0 ==> !Attacked(enemy.grid[r, c]));
        curr := Cell(c, r);
        var taken := enemy.AlreadyAttacked(curr);
        if !taken {
          valid := true;
        } else {
          left := left - 1;
        }
      }
    }

    /** The neighbour of `curr` in the direction `dir`. */
    method Ahead() returns (next: Cell)
      ensures next == Along(curr, dir, 1)
    {
      next := curr;
      if dir == 0 { next := next.(row := next.row - 1); }
      else if dir == 1 { next := next.(col := next.col + 1); }
      else if dir == 2 { next := next.(row := next.row + 1); }
      else if dir == 3 { next := next.(col := next.col - 1); }
    }

    /** One look along `dir`: steps onto a fresh or hit neighbour, stays before anything else. */
    method Look(enemy: Board) returns (seen: Sight)
      requires Valid() && enemy.Valid()
      modifies this`curr
      ensures Valid()
      ensures var g, c := enemy.View().grid, old(curr);
              match seen
              case Target => IsFresh(g, curr) && Open(g, c, dir) && curr == EndOf(g, c, dir)
              case Run => Room(curr, dir) < Room(c, dir) && SameView(g, curr, c, dir)
              case Blocked => curr == c && !Open(g, c, dir)
    {
      hide SameView, Open, EndOf;
      var next := Ahead();
      NeighbourDecides(enemy.View().grid, curr, dir);
      if 0 <= next.col < COLS && 0 <= next.row < ROWS {
        var taken := enemy.AlreadyAttacked(next);
        if !taken {
          curr := next;
          return Target;
        } else if enemy.grid[next.row, next.col] == Hit {
          curr := next;
          return Run;
        }
      }
      return Blocked;
    }

    /** What `bot_choose_attack` does when the cell is blocked. */
    method TurnFromBlocked()
      requires Valid() && mode != Random
      modifies this
      ensures Valid() && View() == TurnAway(old(View()))
    {
      if mode == SearchDir {
        dir := (dir + 1) % 4;
        tried := tried + 1;
        curr := first;
        if tried >= 4 {
          mode := Random;
        }
      } else {
        dir := (dir + 2) % 4;
        curr := first;
      }
    }

    /** The directional loop of `bot_choose_attack`; on failure the bot is back in random mode. */
    method FollowRays(enemy: Board) returns (valid: bool)
      requires Valid() && enemy.Valid() && mode != Random
      modifies this
      ensures Valid() && View() == Aim(old(View()), enemy.View().grid)
      ensures if valid then mode != Random && IsFresh(enemy.View().grid, curr) else mode == Random
    {
      ghost var g := enemy.View().grid;
      ghost var goal := Aim(View(), g);
      var attempts := 0;
      valid := false;
      while !valid && attempts < 4
        invariant Valid() && mode == old(mode) && 0 <= attempts <= 4
        invariant mode == SearchDir ==> attempts == 0
        invariant valid ==> IsFresh(g, curr)
        invariant goal == if valid then View() else AimFrom(View(), g, attempts)
        decreases !valid, 4 - attempts, if mode == SearchDir && tried < 4 then 4 - tried else 0, Room(curr, dir)
      {
        ghost var before := View();
        var seen := Look(enemy);
        assert enemy.View().grid == g && View() == before.(curr := curr);
        AimSteps(before, g, attempts, curr);
        if seen == Target {
          valid := true;
        } else if seen == Blocked {
          TurnFromBlocked();
          if mode == Random {
            return;
          }
          attempts := if mode == Destroy then attempts + 1 else attempts;
        }
      }
      if !valid {
        mode := Random;
      }
    }

    /** `bot_choose_attack`: the chosen cell is in the grid and was never attacked, and the new state
        of the bot is the one the rays determine. */
    method ChooseAttack(enemy: Board, patience: nat) returns (out: Cell)
      requires Valid() && enemy.Valid()
      requires HasFresh(enemy)
      modifies this
      ensures Valid() && out == curr
      ensures IsFresh(enemy.View().grid, out)
      ensures View() == Choose(old(View()), enemy.View().grid, out)
      decreases mode != Random
    {
      if mode == Random {
        DrawCell(enemy, patience);
        return curr;
      }
      var valid := FollowRays(enemy);
      if !valid {
        out := ChooseAttack(enemy, patience);
      }
      return curr;
    }

    /** `bot_place_ships`, on a board as `board_init` leaves it. `rand()` is arbitrary, except that it
        yields an accepted position after at most `patience` rejected ones; that one exists in every
        state of the loop is `NextShipFits`. */
    method PlaceShips(b: Board, patience: nat)
      requires b.Valid() && b.View() == InitialBoard()
      modifies b, b.grid, b.ships
      ensures b.Valid() && FullFleet(FleetOf(b.View()))
      ensures b.View() == BoardOf(FleetOf(b.View()), {})
    {
      ghost var f: seq<Placement> := [];
      InitialIsBoardOf();
      for i := 0 to NUM_SHIPS
        invariant b.Valid() && |f| == i && StandardFleet(f)
        invariant b.View() == BoardOf(f, {})
      {
        var p := DrawPlacement(b, f, i, patience);
        PlaceRefines(f, {}, p);
        b.Place(p);
        f := f + [p];
      }
      BoardOfInverse(f, {});
    }

    /** The rejection loop for one ship. */
    method DrawPlacement(b: Board, ghost f: seq<Placement>, i: nat, patience: nat) returns (p: Placement)
      requires b.Valid() && StandardFleet(f) && i == |f| < NUM_SHIPS && b.View() == BoardOf(f, {})
      ensures CanPlace(b.View(), p) && p.size == SHIP_SIZES[i] && p.typeIdx == i
    {
      var left := patience;
      var size := SHIP_SIZES[i];
      ghost var fair := NextShipFits(f);
      var placed := false;
      p := Placement(0, 0, size, i, Horizontal);
      while !placed
        invariant placed ==> CanPlace(b.View(), p)
        invariant p.size == size && p.typeIdx == i
        decreases !placed, left
      {
        assert fair == Placement(fair.col, fair.row, size, i, fair.orient);
        var col, row, orient :| 0 <= col < COLS && 0 <= row < ROWS &&
          (left == 0 ==> b.Fits(Placement(col, row, size, i, orient)));
        p := Placement(col, row, size, i, orient);
        assert left == 0 ==> b.Fits(p);
        placed := b.CanPlaceAt(p);
        if !placed {
          assert left != 0;
          left := left - 1;
        }
      }
    }
  }

  /** From both cells the same end is in view. */
  ghost predicate SameView(g: Grid, c: Cell, e: Cell, d: Dir)
    requires forall x :: x in g ==> InGrid(x)
  {
    EndOf(g, c, d) == EndOf(g, e, d) && (Open(g, c, d) <==> Open(g, e, d))
  }

  /** How one look moves the aim. */
  lemma AimSteps(s: BotState, g: Grid, attempts: nat, e: Cell)
    requires forall x :: x in g ==> InGrid(x)
    requires s.mode != Random && attempts < 4
    ensures Open(g, s.curr, s.dir) ==> AimFrom(s, g, attempts) == s.(curr := EndOf(g, s.curr, s.dir))
    ensures SameView(g, e, s.curr, s.dir) ==> AimFrom(s.(curr := e), g, attempts) == AimFrom(s, g, attempts)
    ensures !Open(g, s.curr, s.dir) ==>
      AimFrom(s, g, attempts) == AimFrom(TurnAway(s), g, if s.mode == Destroy then attempts + 1 else attempts)
  {
  }

  /** What the neighbouring cell tells about the whole ray. */
  lemma NeighbourDecides(g: Grid, c: Cell, d: Dir)
    requires forall x :: x in g ==> InGrid(x)
    ensures var next := Along(c, d, 1);
            && (IsFresh(g, next) ==> Open(g, c, d) && EndOf(g, c, d) == next)
            && (IsHit(g, next) ==> SameView(g, next, c, d))
            && (!IsFresh(g, next) && !IsHit(g, next) ==> !Open(g, c, d))
  {
    if IsHit(g, Along(c, d, 1)) {
      SameEnd(g, c, d, 1);
    } else {
      RunLengthIs(g, c, d, 0);
    }
  }
}
