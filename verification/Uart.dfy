/** The receive side of the UART driver (serial/uart.c): a masked ring buffer that refines a bounded
    FIFO, and the interrupt handler that fills it. */
module Uart {
  import opened Protocol

  const RXBUF_SIZE := 128
  /** One slot of the ring stays free. */
  const CAPACITY := 127

  datatype Popped = Drained | Got(b: byte)

  /** An index moved on by one and masked. */
  function NextIndex(i: byte): byte
    requires i < RXBUF_SIZE
  {
    if i + 1 == RXBUF_SIZE then 0 else i + 1
  }

  /** The queue that a ring holds between its read and its write index. */
  function Window(d: seq<byte>, tail: byte, head: byte): (s: seq<byte>)
    requires |d| == RXBUF_SIZE && tail < RXBUF_SIZE && head < RXBUF_SIZE
    ensures |s| == if tail <= head then head - tail else RXBUF_SIZE - tail + head
  {
    if tail <= head then d[tail..head] else d[tail..] + d[..head]
  }

  lemma WindowPush(d: seq<byte>, tail: byte, head: byte, b: byte)
    requires |d| == RXBUF_SIZE && tail < RXBUF_SIZE && head < RXBUF_SIZE
    ensures var next := NextIndex(head);
            if next == tail then |Window(d, tail, head)| == CAPACITY
            else |Window(d, tail, head)| < CAPACITY && Window(d[head := b], tail, next) == Window(d, tail, head) + [b]
  {
  }

  lemma WindowPop(d: seq<byte>, tail: byte, head: byte)
    requires |d| == RXBUF_SIZE && tail < RXBUF_SIZE && head < RXBUF_SIZE && tail != head
    ensures Window(d, tail, head) == [d[tail]] + Window(d, NextIndex(tail), head)
  {
    if tail < head {
      assert d[tail..head] == [d[tail]] + d[tail + 1..head];
    } else if tail + 1 < RXBUF_SIZE {
      assert d[tail..] == [d[tail]] + d[tail + 1..];
      assert [d[tail]] + d[tail + 1..] + d[..head] == [d[tail]] + (d[tail + 1..] + d[..head]);
    } else {
      assert d[tail..] == [d[tail]] && d[..head] == d[0..head];
    }
  }

  class RingBuffer {
    const data: array<byte>
    var head: byte
    var tail: byte
    var overflowed: bool

    ghost predicate Valid()
      reads this
    {
      data.Length == RXBUF_SIZE && head < RXBUF_SIZE && tail < RXBUF_SIZE
    }

    ghost function Contents(): (s: seq<byte>)
      requires Valid()
      reads this, data
      ensures |s| <= CAPACITY
    {
      Window(data[..], tail, head)
    }

    constructor ()
      ensures Valid() && Contents() == [] && !overflowed
      ensures fresh(data)
    {
      data := new byte[RXBUF_SIZE](i => 0);
      head, tail, overflowed := 0, 0, false;
    }

    /** `rxbuf_discard_all`. */
    method DiscardAll()
      requires Valid()
      modifies this`head
      ensures Valid() && Contents() == []
    {
      head := tail;
    }

    /** `rxbuf_push`: appended while there is room, else dropped and flagged. */
    method Push(b: byte)
      requires Valid()
      modifies this`head, this`overflowed, data
      ensures Valid()
      ensures if |old(Contents())| < CAPACITY
              then Contents() == old(Contents()) + [b] && overflowed == old(overflowed)
              else Contents() == old(Contents()) && overflowed
    {
      WindowPush(data[..], tail, head, b);
      var next := (head + 1) % RXBUF_SIZE;
      if next != tail {
        data[head] := b;
        assert data[..] == old(data[..])[head := b];
        head := next;
      } else {
        overflowed := true;
      }
    }

    /** `rxbuf_pop`. */
    method Pop() returns (r: Popped)
      requires Valid()
      modifies this`tail
      ensures Valid()
      ensures if old(Contents()) == [] then r == Drained && Contents() == []
              else r == Got(old(Contents())[0]) && Contents() == old(Contents())[1..]
    {
      if tail == head {
        return Drained;
      }
      WindowPop(data[..], tail, head);
      r := Got(data[tail]);
      tail := (tail + 1) % RXBUF_SIZE;
    }

    /** `uart_rx_overflow`: the flag is cleared by reading it. */
    method TakeOverflow() returns (v: bool)
      requires Valid()
      modifies this`overflowed
      ensures Valid() && !overflowed && v == old(overflowed)
    {
      v := overflowed;
      overflowed := false;
    }
  }

  // ---------------------------------------------------------------------------------------------
  // Interrupts
  // ---------------------------------------------------------------------------------------------

  /** A byte in the hardware FIFO and whether the line status reported an error with it. */
  datatype RxByte = RxByte(b: byte, bad: bool)

  /** The causes that `uart_ih` distinguishes, with what it then finds in the FIFO. */
  datatype Irq =
    | NonePending
    | LineStatus(err: bool, drained: seq<byte>)
    | DataAvailable(fifo: seq<RxByte>)
    | OtherCause

  /** The ring as a queue, the overflow flag, and the parser's unfinished frame. */
  datatype Line = Line(ring: seq<byte>, flag: bool, pending: seq<byte>)

  function Receive(l: Line, x: RxByte): Line {
    if x.bad then l.(ring := [], flag := true)
    else if |l.ring| < CAPACITY then l.(ring := l.ring + [x.b])
    else l.(flag := true)
  }

  function ReceiveAll(l: Line, fifo: seq<RxByte>): Line {
    if fifo == [] then l else Receive(ReceiveAll(l, fifo[..|fifo| - 1]), fifo[|fifo| - 1])
  }

  lemma ReceiveAllStep(l: Line, fifo: seq<RxByte>, i: nat)
    requires i < |fifo|
    ensures ReceiveAll(l, fifo[..i + 1]) == Receive(ReceiveAll(l, fifo[..i]), fifo[i])
  {
    assert fifo[..i + 1][..i] == fifo[..i];
  }

  /** `uart_ih`. */
  function UartIh(l: Line, irq: Irq): Line {
    match irq
    case NonePending => l
    case LineStatus(err, _) => if err then l.(ring := [], flag := true) else l
    case DataAvailable(fifo) => ReceiveAll(l, fifo)
    case OtherCause => l
  }

  function Bytes(fifo: seq<RxByte>): seq<byte> {
    seq(|fifo|, i requires 0 <= i < |fifo| => fifo[i].b)
  }

  predicate Clean(fifo: seq<RxByte>) {
    forall x :: x in fifo ==> !x.bad
  }

  /** The bytes behind the last bad one. */
  function AfterError(fifo: seq<RxByte>): seq<byte> {
    if fifo == [] || fifo[|fifo| - 1].bad then []
    else AfterError(fifo[..|fifo| - 1]) + [fifo[|fifo| - 1].b]
  }

  /** Good bytes are queued in order until the ring is full; the first one too many raises the flag. */
  lemma {:induction false} ReceiveClean(l: Line, fifo: seq<RxByte>)
    requires Clean(fifo) && |l.ring| <= CAPACITY
    ensures |l.ring| + |fifo| <= CAPACITY ==> ReceiveAll(l, fifo) == l.(ring := l.ring + Bytes(fifo))
    ensures |l.ring| + |fifo| > CAPACITY ==> ReceiveAll(l, fifo).flag
    ensures |ReceiveAll(l, fifo).ring| <= CAPACITY
    ensures |l.ring| + |fifo| >= CAPACITY ==> |ReceiveAll(l, fifo).ring| == CAPACITY
  {
    if fifo == [] {
      assert l.ring + Bytes(fifo) == l.ring;
    } else {
      var n := |fifo| - 1;
      assert forall x :: x in fifo[..n] ==> x in fifo;
      ReceiveClean(l, fifo[..n]);
      assert !fifo[n].bad;
      assert Bytes(fifo) == Bytes(fifo[..n]) + [fifo[n].b];
    }
  }

  lemma {:induction false} AfterErrorShort(fifo: seq<RxByte>)
    ensures |AfterError(fifo)| <= |fifo|
    ensures !Clean(fifo) ==> |AfterError(fifo)| < |fifo|
    ensures Clean(fifo) ==> AfterError(fifo) == Bytes(fifo)
  {
    if fifo != [] {
      var n := |fifo| - 1;
      AfterErrorShort(fifo[..n]);
      assert fifo == fifo[..n] + [fifo[n]];
      assert Clean(fifo) ==> forall x :: x in fifo[..n] ==> x in fifo;
      assert Bytes(fifo) == Bytes(fifo[..n]) + [fifo[n].b];
    }
  }

  lemma {:induction false} PendingKept(l: Line, fifo: seq<RxByte>)
    ensures ReceiveAll(l, fifo).pending == l.pending
  {
    if fifo != [] { PendingKept(l, fifo[..|fifo| - 1]); }
  }

  /** The bytes that an empty ring has room for. */
  function WithRoom(s: seq<byte>): (r: seq<byte>)
    ensures |r| <= CAPACITY && r <= s
  {
    if |s| <= CAPACITY then s else s[..CAPACITY]
  }

  /** A bad byte empties the ring and raises the flag; whatever the ring and the FIFO held before it, what is
      kept is what comes behind the last bad byte, as far as the ring has room. */
  lemma {:induction false} ReceiveBad(l: Line, fifo: seq<RxByte>)
    requires !Clean(fifo)
    ensures ReceiveAll(l, fifo) == Line(WithRoom(AfterError(fifo)), true, l.pending)
  {
    var n := |fifo| - 1;
    PendingKept(l, fifo);
    if !fifo[n].bad {
      assert fifo == fifo[..n] + [fifo[n]];
      ReceiveBad(l, fifo[..n]);
    }
  }
}
