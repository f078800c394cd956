/** `handle_serial` of controller/handlers.c: interrupt handler, overflow reset, parser. */
module SerialPort {
  import opened Protocol
  import opened Uart

  /** What one call of `handle_serial` leaves behind and dispatches. */
  datatype Handled = Handled(line: Line, msgs: seq<Msg>)

  function HandleSerial(l: Line, irq: Irq): Handled {
    var l' := UartIh(l, irq);
    if l'.flag then Handled(l'.(flag := false, pending := []), [])
    else
      var p := Parse(l'.pending + l'.ring);
      Handled(Line([], false, p.rest), p.msgs)
  }

  class Port {
    const ring: RingBuffer
    const rx: ProtoRx

    ghost predicate Valid()
      reads this, ring, rx
    {
      ring.data != rx.buf && ring.Valid() && rx.Valid()
    }

    ghost function View(): Line
      requires Valid()
      reads this, ring, rx, ring.data, rx.buf
    {
      Line(ring.Contents(), ring.overflowed, rx.Pending())
    }

    constructor ()
      ensures Valid() && View() == Line([], false, [])
    {
      ring := new RingBuffer();
      rx := new ProtoRx();
    }

    /** The loop of `uart_ih` that empties the hardware FIFO. */
    method DrainFifo(fifo: seq<RxByte>)
      requires Valid()
      modifies ring, ring.data
      ensures Valid() && View() == ReceiveAll(old(View()), fifo)
    {
      ghost var start := View();
      for i := 0 to |fifo|
        invariant Valid() && View() == ReceiveAll(start, fifo[..i])
      {
        ghost var before := View();
        ReceiveAllStep(start, fifo, i);
        if fifo[i].bad {
          ring.DiscardAll();
          ring.overflowed := true;
        } else {
          ring.Push(fifo[i].b);
        }
        assert View() == Receive(before, fifo[i]);
      }
      assert fifo[..|fifo|] == fifo;
    }

    /** `uart_ih`. */
    method HandleInterrupt(irq: Irq)
      requires Valid()
      modifies ring, ring.data
      ensures Valid() && View() == UartIh(old(View()), irq)
    {
      if irq.LineStatus? && irq.err {
        ring.DiscardAll();
        ring.overflowed := true;
      } else if irq.DataAvailable? {
        DrainFifo(irq.fifo);
      }
    }

    /** Gives one byte to the parser. `fed` is what it was given before, `msgs` what it made of that. */
    method Feed(b: byte, msgs: seq<Msg>, ghost fed: seq<byte>) returns (msgs': seq<Msg>)
      requires Valid() && Parse(fed) == Parsed(msgs, rx.Pending())
      modifies rx, rx.buf
      ensures Valid() && Parse(fed + [b]) == Parsed(msgs', rx.Pending())
      ensures ring.Contents() == old(ring.Contents())
    {
      ghost var before := Parsed(msgs, rx.Pending());
      var out := rx.FeedByte(b);
      ParseOneMore(fed, before, b, Parse(before.rest + [b]));
      msgs' := if out.Complete? then msgs + [out.msg] else msgs;
    }

    /** One turn of the loop of `handle_serial`: takes a byte out of the ring and gives it to the parser. */
    method FeedNext(msgs: seq<Msg>, ghost fed: seq<byte>) returns (more: bool, msgs': seq<Msg>, ghost fed': seq<byte>)
      requires Valid() && Parse(fed) == Parsed(msgs, rx.Pending())
      modifies ring`tail, rx, rx.buf
      ensures Valid() && Parse(fed') == Parsed(msgs', rx.Pending())
      ensures fed' + ring.Contents() == old(fed + ring.Contents())
      ensures if more then |ring.Contents()| < |old(ring.Contents())| else ring.Contents() == []
    {
      ghost var queue := ring.Contents();
      var r := ring.Pop();
      ghost var left := ring.Contents();
      if r == Drained {
        return false, msgs, fed;
      }
      assert queue == [r.b] + left;
      assert fed + queue == fed + [r.b] + left;
      msgs' := Feed(r.b, msgs, fed);
      more, fed' := true, fed + [r.b];
    }

    /** The loop of `handle_serial` that empties the ring into the parser. */
    method Drain() returns (msgs: seq<Msg>)
      requires Valid()
      modifies ring`tail, rx, rx.buf
      ensures Valid() && ring.Contents() == []
      ensures Parse(old(rx.Pending() + ring.Contents())) == Parsed(msgs, rx.Pending())
    {
      ghost var fed := rx.Pending();
      var more := true;
      msgs := [];
      ParseUnfinished(fed);
      while more
        invariant Valid() && Parse(fed) == Parsed(msgs, rx.Pending())
        invariant fed + ring.Contents() == old(rx.Pending() + ring.Contents())
        invariant !more ==> ring.Contents() == []
        decreases more, |ring.Contents()|
      {
        more, msgs, fed := FeedNext(msgs, fed);
      }
      assert fed + [] == fed;
    }

    /** `handle_serial`; `msgs` are the calls of `game_handle_serial_msg`, in order. */
    method Handle(irq: Irq) returns (msgs: seq<Msg>)
      requires Valid()
      modifies ring, ring.data, rx, rx.buf
      ensures Valid() && Handled(View(), msgs) == HandleSerial(old(View()), irq)
    {
      HandleInterrupt(irq);
      var lost := ring.TakeOverflow();
      if lost {
        rx.Reset();
        return [];
      }
      msgs := Drain();
    }
  }
}
