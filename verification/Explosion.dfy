/** The explosion state machine of view/renderer.c (drawing is not part of this model) and the 8-frame
    counter of view/sprites.c that paces it. */
module Explosion {
  import opened Boards

  const FRAMES := 8
  const TICKS_PER_FRAME := 5
  const WAIT_TICKS := 45

  /** The file-level variables of renderer.c that the game logic reads, and `cur_pixmap`. */
  datatype ExplState = ExplState(exploding: bool, finished: bool, waiting: bool, at: Cell,
                                 ticks: nat, waitTicks: nat, isHit: bool, frame: nat)

  /** `renderer_reset`. */
  function ResetExplosion(): ExplState {
    ExplState(false, false, false, Cell(0, 0), 0, 0, false, 0)
  }

  /** `start_explosion`. */
  function StartExplosion(e: ExplState, c: Cell, hit: bool): ExplState {
    ExplState(true, false, e.waiting, c, 0, e.waitTicks, hit, 0)
  }

  function NextFrame(frame: nat): nat {
    if frame + 1 >= FRAMES then 0 else frame + 1
  }

  /** `update_animations`. */
  function Animate(e: ExplState): ExplState {
    if e.exploding then
      var t := e.ticks + 1;
      if t % TICKS_PER_FRAME != 0 then e.(ticks := t)
      else
        var f := NextFrame(e.frame);
        if f != 0 then e.(ticks := t, frame := f)
        else if e.isHit then e.(ticks := t, frame := f, exploding := false, waiting := false, finished := true)
        else e.(ticks := t, frame := f, exploding := false, waiting := true, waitTicks := 0)
    else if e.waiting then
      if e.waitTicks + 1 >= WAIT_TICKS then e.(waitTicks := e.waitTicks + 1, waiting := false, finished := true)
      else e.(waitTicks := e.waitTicks + 1)
    else e
  }

  /** `renderer_is_exploding`. */
  predicate IsExploding(e: ExplState) {
    e.exploding || e.waiting
  }

  /** A shot was fired and its result has not been read yet. */
  predicate Unresolved(e: ExplState) {
    e.exploding || e.waiting || e.finished
  }

  /** A result is read only when nothing is shown, the counters are in range, and only a miss waits. A shot
      that is started while a miss waits leaves the flag of that wait set until it has exploded itself. */
  predicate Paced(e: ExplState) {
    && !(IsExploding(e) && e.finished)
    && (e.exploding ==> e.ticks < FRAMES * TICKS_PER_FRAME && e.frame == e.ticks / TICKS_PER_FRAME)
    && (e.waiting && !e.exploding ==> e.waitTicks < WAIT_TICKS && !e.isHit)
  }

  /** Ticks of the animation until the result can be read. */
  function TicksLeft(e: ExplState): nat
    requires Paced(e)
  {
    if e.exploding then FRAMES * TICKS_PER_FRAME - e.ticks + if e.isHit then 0 else WAIT_TICKS
    else if e.waiting then WAIT_TICKS - e.waitTicks
    else 0
  }

  /** One tick brings an explosion exactly one tick closer to its end, and it does not change the cell
      or the result. */
  lemma AnimatePaced(e: ExplState)
    requires Paced(e)
    ensures var e' := Animate(e);
            && Paced(e') && e'.at == e.at && e'.isHit == e.isHit
            && Unresolved(e') == Unresolved(e)
            && (if IsExploding(e) then TicksLeft(e') == TicksLeft(e) - 1 else e' == e)
            && (e'.finished <==> Unresolved(e) && TicksLeft(e') == 0)
  {
  }

  class Renderer {
    var exploding: bool
    var finished: bool
    var waiting: bool
    var at: Cell
    var ticks: nat
    var waitTicks: nat
    var isHit: bool
    var frame: nat

    ghost function View(): ExplState
      reads this
    {
      ExplState(exploding, finished, waiting, at, ticks, waitTicks, isHit, frame)
    }

    constructor ()
      ensures View() == ResetExplosion()
    {
      exploding, finished, waiting, at, ticks, waitTicks, isHit, frame := false, false, false, Cell(0, 0), 0, 0, false, 0;
    }

    /** `renderer_reset`. */
    method Reset()
      modifies this
      ensures View() == ResetExplosion()
    {
      exploding, finished, waiting := false, false, false;
      at, ticks, waitTicks, isHit := Cell(0, 0), 0, 0, false;
      frame := 0;
    }

    /** `start_explosion`. */
    method Start(c: Cell, hit: bool)
      modifies this
      ensures View() == StartExplosion(old(View()), c, hit)
    {
      exploding, finished := true, false;
      at, ticks, isHit := c, 0, hit;
      frame := 0;
    }

    /** `update_animations`. */
    method Update()
      modifies this
      ensures View() == Animate(old(View()))
    {
      if exploding {
        ticks := ticks + 1;
        if ticks % TICKS_PER_FRAME == 0 {
          frame := frame + 1;
          if frame >= FRAMES {
            frame := 0;
          }
          if frame == 0 {
            exploding := false;
            if isHit {
              waiting := false;
              finished := true;
            } else {
              waiting := true;
              waitTicks := 0;
            }
          }
        }
      } else if waiting {
        waitTicks := waitTicks + 1;
        if waitTicks >= WAIT_TICKS {
          waiting := false;
          finished := true;
        }
      }
    }

    /** `renderer_explosion_finished`: true once for each finished explosion. */
    method TakeFinished() returns (r: bool)
      modifies this
      ensures r == old(finished) && View() == old(View()).(finished := false)
    {
      if finished {
        finished := false;
        return true;
      }
      return false;
    }
  }
}
