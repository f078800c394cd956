/** The receive path over whole runs of interrupts: when bytes are lost, and what is dispatched. */
module SerialRuns {
  import opened Protocol
  import opened Uart
  import opened SerialPort

  /** The line with its history since the last line error, which the code does not keep: the good bytes
      that came in, those of them given to the parser, and the messages dispatched. */
  datatype Log = Log(line: Line, arrived: seq<byte>, parsed: seq<byte>, got: seq<Msg>)

  predicate IsError(irq: Irq) {
    (irq.LineStatus? && irq.err) || (irq.DataAvailable? && !Clean(irq.fifo))
  }

  /** The good bytes an interrupt finds. Of an interrupt with an error, what follows the error: the bytes
      before a bad one, and those that a line status interrupt with an error finds, count as part of it. */
  function Incoming(irq: Irq): seq<byte> {
    match irq
    case LineStatus(err, drained) => if err then [] else drained
    case DataAvailable(fifo) => if Clean(fifo) then Bytes(fifo) else AfterError(fifo)
    case _ => []
  }

  /** The bytes that the handler reads and throws away without raising the flag: a line status interrupt
      empties the FIFO even if none of the three masked errors is set, as it is for a break. */
  function SilentlyDrained(irq: Irq): nat {
    if irq.LineStatus? && !irq.err then |irq.drained| else 0
  }

  /** No line status interrupt without an error finds bytes. */
  predicate NoSilentDrain(irqs: seq<Irq>) {
    forall i :: 0 <= i < |irqs| ==> SilentlyDrained(irqs[i]) == 0
  }

  /** The bytes drained silently since the last line error, when there were `lost` before `irqs`. */
  function LostSince(lost: nat, irqs: seq<Irq>): nat
    decreases irqs
  {
    if irqs == [] then lost
    else LostSince(if IsError(irqs[0]) then 0 else lost + SilentlyDrained(irqs[0]), irqs[1..])
  }

  function Next(log: Log, irq: Irq): Log {
    var full := UartIh(log.line, irq);
    var h := HandleSerial(log.line, irq);
    var parsed := if full.flag then [] else log.parsed + full.ring;
    if IsError(irq) then Log(h.line, Incoming(irq), parsed, h.msgs)
    else Log(h.line, log.arrived + Incoming(irq), parsed, log.got + h.msgs)
  }

  function RunFrom(log: Log, irqs: seq<Irq>): Log
    decreases irqs
  {
    if irqs == [] then log else RunFrom(Next(log, irqs[0]), irqs[1..])
  }

  /** Nothing has happened yet. */
  predicate Idle(log: Log) {
    log.line == Line([], false, []) && log.arrived == log.parsed == [] && log.got == []
  }

  /** The interrupt finds no more than `n` bytes. */
  predicate Brings(irq: Irq, n: nat) {
    irq.DataAvailable? ==> |irq.fifo| <= n
  }

  predicate AtMost(irqs: seq<Irq>, n: nat) {
    forall i :: 0 <= i < |irqs| ==> Brings(irqs[i], n)
  }

  predicate NoErrors(irqs: seq<Irq>) {
    forall i :: 0 <= i < |irqs| ==> !IsError(irqs[i])
  }

  /** The messages dispatched since the last line error are exactly those that the parsed bytes mean, and of
      the good bytes since then all but `lost` were given to the parser or are still queued. */
  predicate Accounted(log: Log, lost: nat) {
    && !log.line.flag
    && Parse(log.parsed) == Parsed(log.got, log.line.pending)
    && |log.arrived| == |log.parsed| + |log.line.ring| + lost
    && (lost == 0 ==> log.arrived == log.parsed + log.line.ring)
  }

  /** Every good byte since the last line error was given to the parser or is still queued. */
  predicate Synchronised(log: Log) {
    Accounted(log, 0)
  }

  lemma IdleIsSynchronised(log: Log)
    requires Idle(log)
    ensures Synchronised(log)
  {
    ParseUnfinished(log.parsed);
  }

  /** What the ring holds after an interrupt, if it has room for what comes without an error. */
  lemma RingAfter(l: Line, irq: Irq)
    requires irq.DataAvailable? && !IsError(irq) ==> |l.ring| + |irq.fifo| <= CAPACITY
    ensures UartIh(l, irq) == if IsError(irq) then Line(WithRoom(Incoming(irq)), true, l.pending)
                              else if irq.DataAvailable? then l.(ring := l.ring + Incoming(irq)) else l
  {
    if irq.DataAvailable? {
      if Clean(irq.fifo) { ReceiveClean(l, irq.fifo); } else { ReceiveBad(l, irq.fifo); }
    }
  }

  /** An interrupt without a line error: everything queued is parsed, and what is drained silently is lost. */
  lemma QuietStep(log: Log, irq: Irq, lost: nat)
    requires Accounted(log, lost) && |log.line.ring| <= CAPACITY
    requires !IsError(irq) && Brings(irq, CAPACITY - |log.line.ring|)
    ensures Accounted(Next(log, irq), lost + SilentlyDrained(irq)) && Next(log, irq).line.ring == []
    ensures Next(log, irq).arrived == log.arrived + Incoming(irq)
  {
    RingAfter(log.line, irq);
    var found := if irq.DataAvailable? then Incoming(irq) else [];
    var ring := log.line.ring + found;
    assert log.line.ring + [] == log.line.ring;
    ParseSplit(log.parsed, ring);
    assert lost == 0 ==> log.parsed + ring == log.arrived + found;
    hide Parse;
  }

  /** An interrupt with a line error: the parser is idle, only the bytes behind the error are queued. */
  lemma ErrorStep(log: Log, irq: Irq)
    requires IsError(irq) && Brings(irq, CAPACITY + 1)
    ensures Next(log, irq) == Log(Line(Incoming(irq), false, []), Incoming(irq), [], [])
    ensures Synchronised(Next(log, irq))
    ensures |Incoming(irq)| <= CAPACITY
    ensures irq.DataAvailable? ==> |Incoming(irq)| < |irq.fifo|
  {
    if irq.DataAvailable? { AfterErrorShort(irq.fifo); }
    RingAfter(log.line, irq);
    ParseUnfinished(Next(log, irq).parsed);
  }

  /** With at most 64 bytes an interrupt nothing is ever dropped for want of room, even when an error left
      bytes queued, and the messages dispatched since the last line error are those the parsed bytes mean.
      Every good byte since then is queued or was parsed exactly if none was drained silently. */
  lemma EveryRunSynchronised(log: Log, irqs: seq<Irq>)
    requires Synchronised(log) && |log.line.ring| < 64 && AtMost(irqs, 64)
    ensures Accounted(RunFrom(log, irqs), LostSince(0, irqs)) && |RunFrom(log, irqs).line.ring| < 64
    ensures Synchronised(RunFrom(log, irqs)) <==> LostSince(0, irqs) == 0
    ensures NoSilentDrain(irqs) ==> LostSince(0, irqs) == 0
  {
    EveryRunAccounted(log, irqs, 0);
    if NoSilentDrain(irqs) { NothingDrained(irqs); }
  }

  lemma {:induction false} EveryRunAccounted(log: Log, irqs: seq<Irq>, lost: nat)
    requires Accounted(log, lost) && |log.line.ring| < 64 && AtMost(irqs, 64)
    ensures Accounted(RunFrom(log, irqs), LostSince(lost, irqs)) && |RunFrom(log, irqs).line.ring| < 64
    decreases irqs
  {
    hide Accounted, Next;
    if irqs != [] {
      assert Brings(irqs[0], 64);
      if IsError(irqs[0]) {
        ErrorStep(log, irqs[0]);
        EveryRunAccounted(Next(log, irqs[0]), irqs[1..], 0);
      } else {
        QuietStep(log, irqs[0], lost);
        EveryRunAccounted(Next(log, irqs[0]), irqs[1..], lost + SilentlyDrained(irqs[0]));
      }
    }
  }

  lemma {:induction false} NothingDrained(irqs: seq<Irq>)
    requires NoSilentDrain(irqs)
    ensures LostSince(0, irqs) == 0
    decreases irqs
  {
    if irqs != [] {
      assert SilentlyDrained(irqs[0]) == 0;
      NothingDrained(irqs[1..]);
    }
  }

  /** So the overflow reset happens on line errors only. */
  lemma ResetOnlyOnError(log: Log, irqs: seq<Irq>, irq: Irq)
    requires Idle(log) && AtMost(irqs, 64) && Brings(irq, 64)
    ensures UartIh(RunFrom(log, irqs).line, irq).flag <==> IsError(irq)
  {
    IdleIsSynchronised(log);
    EveryRunSynchronised(log, irqs);
    RingAfter(RunFrom(log, irqs).line, irq);
  }

  /** The stream of bytes that came in. */
  function AllBytes(irqs: seq<Irq>): seq<byte> {
    if irqs == [] then [] else Incoming(irqs[0]) + AllBytes(irqs[1..])
  }

  /** The number of bytes drained silently. */
  function AllDrained(irqs: seq<Irq>): nat {
    if irqs == [] then 0 else SilentlyDrained(irqs[0]) + AllDrained(irqs[1..])
  }

  lemma {:induction false} NoneDrained(irqs: seq<Irq>)
    ensures AllDrained(irqs) == 0 <==> NoSilentDrain(irqs)
  {
    if irqs != [] {
      NoneDrained(irqs[1..]);
      assert irqs == [irqs[0]] + irqs[1..];
    }
  }

  lemma {:induction false} QuietRun(log: Log, irqs: seq<Irq>, lost: nat)
    requires Accounted(log, lost) && log.line.ring == [] && NoErrors(irqs) && AtMost(irqs, CAPACITY)
    ensures Accounted(RunFrom(log, irqs), lost + AllDrained(irqs)) && RunFrom(log, irqs).line.ring == []
    ensures RunFrom(log, irqs).arrived == log.arrived + AllBytes(irqs)
    decreases irqs
  {
    hide Accounted, Next, Incoming, SilentlyDrained, NoErrors, AtMost;
    if irqs == [] {
      assert log.arrived + AllBytes(irqs) == log.arrived;
    } else {
      FirstAndRest(irqs, CAPACITY);
      QuietStep(log, irqs[0], lost);
      QuietRun(Next(log, irqs[0]), irqs[1..], lost + SilentlyDrained(irqs[0]));
      Associate(log.arrived, Incoming(irqs[0]), AllBytes(irqs[1..]));
    }
  }

  lemma FirstAndRest(irqs: seq<Irq>, n: nat)
    requires irqs != [] && NoErrors(irqs) && AtMost(irqs, n)
    ensures Brings(irqs[0], n) && !IsError(irqs[0]) && NoErrors(irqs[1..]) && AtMost(irqs[1..], n)
  {
    hide IsError, Brings;
  }

  lemma Associate(a: seq<byte>, b: seq<byte>, c: seq<byte>)
    ensures a + b + c == a + (b + c)
  {
  }

  /** Without line errors the parser is given every byte that came in exactly if no line status interrupt
      found bytes; then, however the interrupts cut the stream, the messages dispatched are those that the
      stream means. */
  lemma LosslessWithoutErrors(log: Log, irqs: seq<Irq>)
    requires Idle(log) && NoErrors(irqs) && AtMost(irqs, CAPACITY)
    ensures RunFrom(log, irqs).line.ring == [] && !RunFrom(log, irqs).line.flag
    ensures RunFrom(log, irqs).parsed == AllBytes(irqs) <==> NoSilentDrain(irqs)
    ensures NoSilentDrain(irqs) ==> Parse(AllBytes(irqs)) == Parsed(RunFrom(log, irqs).got, RunFrom(log, irqs).line.pending)
  {
    hide Parse, RunFrom, AllBytes, AllDrained, NoSilentDrain, NoErrors, AtMost;
    IdleIsSynchronised(log);
    QuietRun(log, irqs, 0);
    NoneDrained(irqs);
    var end := RunFrom(log, irqs);
    assert log.arrived + AllBytes(irqs) == AllBytes(irqs) && end.parsed + [] == end.parsed;
  }

  /** Sender to receiver: the messages sent are the messages dispatched, in order. */
  lemma SentIsDispatched(log: Log, ms: seq<Msg>, irqs: seq<Irq>)
    requires Idle(log) && NoErrors(irqs) && NoSilentDrain(irqs) && AtMost(irqs, CAPACITY)
    requires AllBytes(irqs) == EncodeAll(ms)
    ensures RunFrom(log, irqs).got == ms && RunFrom(log, irqs).line == Line([], false, [])
  {
    LosslessWithoutErrors(log, irqs);
    RoundTrip(ms);
  }

  /** At any moment before, the messages dispatched are the first of those sent: without line errors and
      silent drains the link is a queue of messages, whatever part of a frame is still on its way. */
  lemma LinkIsAQueue(log: Log, ms: seq<Msg>, irqs: seq<Irq>)
    requires Idle(log) && NoErrors(irqs) && NoSilentDrain(irqs) && AtMost(irqs, CAPACITY)
    requires AllBytes(irqs) <= EncodeAll(ms)
    ensures RunFrom(log, irqs).got <= ms
  {
    hide Parse, RunFrom, AllBytes, EncodeAll, NoErrors, NoSilentDrain, AtMost, Idle;
    LosslessWithoutErrors(log, irqs);
    RoundTrip(ms);
    var arrived, all := AllBytes(irqs), EncodeAll(ms);
    assert all == arrived + all[|arrived|..];
    ParseSplit(arrived, all[|arrived|..]);
  }

  /** One interrupt finds the first byte of a frame. */
  lemma FirstByte(log: Log)
    requires log.line == Line([], false, [])
    ensures var log' := Next(log, DataAvailable([RxByte(MSG_STATE, false)]));
            log'.line == Line([], false, [MSG_STATE]) && log'.got == log.got
  {
    var fifo := [RxByte(MSG_STATE, false)];
    ReceiveClean(log.line, fifo);
    assert Bytes(fifo) == [MSG_STATE];
    assert [] + [MSG_STATE] == [MSG_STATE];
    ParseUnfinished([MSG_STATE]);
  }

  /** The next one, of the frame after, is taken for its payload. */
  lemma WrongPayload(log: Log, b: byte)
    requires log.line == Line([], false, [MSG_STATE]) && !IsType(b)
    ensures var log' := Next(log, DataAvailable([RxByte(MSG_STATE, false), RxByte(b, false)]));
            log'.line == Line([], false, []) && log'.got == log.got + [State(MSG_STATE)]
  {
    var fifo := [RxByte(MSG_STATE, false), RxByte(b, false)];
    TwoBytes(log.line, fifo);
    FrameAndNoise(b);
    hide Parse, ReceiveAll;
    assert [MSG_STATE] + [MSG_STATE, b] == [MSG_STATE, MSG_STATE, b];
  }

  lemma TwoBytes(l: Line, fifo: seq<RxByte>)
    requires l.ring == [] && Clean(fifo) && |fifo| == 2
    ensures ReceiveAll(l, fifo) == l.(ring := [fifo[0].b, fifo[1].b])
  {
    ReceiveClean(l, fifo);
    assert [] + Bytes(fifo) == [fifo[0].b, fifo[1].b];
    hide ReceiveAll;
  }

  lemma FrameAndNoise(b: byte)
    requires !IsType(b)
    ensures Parse([MSG_STATE, MSG_STATE, b]) == Parsed([State(MSG_STATE)], [])
  {
    ParseFrame(State(MSG_STATE), [b]);
    assert Encode(State(MSG_STATE)) + [b] == [MSG_STATE, MSG_STATE, b];
    assert [b][1..] == [] && Parse([b]) == Parse([]);
    assert [State(MSG_STATE)] + [] == [State(MSG_STATE)];
  }

  lemma ThreeInterrupts(x: Irq, y: Irq, z: Irq)
    ensures AllBytes([x, y, z]) == Incoming(x) + (Incoming(y) + Incoming(z))
  {
    assert [x, y, z][1..] == [y, z] && [y, z][1..] == [z] && [z][1..] == [];
    assert AllBytes([z]) == Incoming(z) + AllBytes([]);
    assert AllBytes([y, z]) == Incoming(y) + AllBytes([z]);
    hide Incoming;
  }

  lemma TwoFrames(m: Msg, n: Msg)
    ensures EncodeAll([m, n]) == Encode(m) + Encode(n)
  {
    assert [m, n][1..] == [n] && [n][1..] == [];
    assert EncodeAll([n]) == Encode(n) + EncodeAll([]);
    hide Encode;
  }

  /** The guard on silent drains is needed: two messages come in without any error flagged, a line status
      interrupt drains one byte of the first, and what is dispatched is one message that was never sent. */
  lemma SilentDrainMisreads(log: Log, a: byte, b: byte)
    requires Idle(log) && !IsType(b)
    ensures var irqs := [DataAvailable([RxByte(MSG_STATE, false)]), LineStatus(false, [a]),
                         DataAvailable([RxByte(MSG_STATE, false), RxByte(b, false)])];
            && NoErrors(irqs) && AtMost(irqs, 64) && !NoSilentDrain(irqs)
            && AllBytes(irqs) == EncodeAll([State(a), State(b)])
            && RunFrom(log, irqs).got == [State(MSG_STATE)] && !RunFrom(log, irqs).line.flag
  {
    var irqs := [DataAvailable([RxByte(MSG_STATE, false)]), LineStatus(false, [a]),
                 DataAvailable([RxByte(MSG_STATE, false), RxByte(b, false)])];
    assert SilentlyDrained(irqs[1]) == 1;
    assert Incoming(irqs[0]) == [MSG_STATE] && Incoming(irqs[1]) == [a] && Incoming(irqs[2]) == [MSG_STATE, b];
    ThreeInterrupts(irqs[0], irqs[1], irqs[2]);
    TwoFrames(State(a), State(b));
    hide Next, Incoming, AllBytes, EncodeAll;
    MisreadRun(log, irqs, a, b);
  }

  lemma MisreadRun(log: Log, irqs: seq<Irq>, a: byte, b: byte)
    requires Idle(log) && !IsType(b)
    requires irqs == [DataAvailable([RxByte(MSG_STATE, false)]), LineStatus(false, [a]),
                      DataAvailable([RxByte(MSG_STATE, false), RxByte(b, false)])]
    ensures RunFrom(log, irqs).got == [State(MSG_STATE)] && !RunFrom(log, irqs).line.flag
  {
    var l1 := Next(log, irqs[0]);
    var l2 := Next(l1, irqs[1]);
    FirstByte(log);
    assert l1.line.pending + l1.line.ring == [MSG_STATE];
    ParseUnfinished([MSG_STATE]);
    assert l2.line == l1.line && l2.got == [] + [];
    WrongPayload(l2, b);
    assert irqs[1..] == [irqs[1], irqs[2]] && [irqs[1], irqs[2]][1..] == [irqs[2]] && [irqs[2]][1..] == [];
    hide Next, Parse;
    assert RunFrom(log, irqs) == RunFrom(l1, [irqs[1], irqs[2]]);
    assert RunFrom(l1, [irqs[1], irqs[2]]) == RunFrom(l2, [irqs[2]]);
    assert RunFrom(l2, [irqs[2]]) == RunFrom(Next(l2, irqs[2]), []);
  }

  lemma {:induction false} BadThenGood(bad: RxByte, good: seq<RxByte>)
    requires bad.bad && Clean(good)
    ensures AfterError([bad] + good) == Bytes(good)
  {
    if good != [] {
      var n := |good| - 1;
      assert good[n] in good && forall x :: x in good[..n] ==> x in good;
      BadThenGood(bad, good[..n]);
      assert ([bad] + good)[..n + 1] == [bad] + good[..n];
      assert Bytes(good) == Bytes(good[..n]) + [good[n].b];
    }
  }

  /** 64 is the largest such bound: with 65, an error can leave so much queued that the next interrupt,
      free of errors, overflows the ring and resets the parser, and a byte that arrived intact is lost. */
  lemma SixtyFiveIsTooMany(log: Log, bad: RxByte, good: seq<RxByte>, full: seq<RxByte>)
    requires Idle(log) && bad.bad && Clean(good) && Clean(full) && |good| == 64 && |full| == 65
    ensures var first, second := DataAvailable([bad] + good), DataAvailable(full);
            && Brings(first, 65) && Brings(second, 65) && !IsError(second)
            && UartIh(Next(log, first).line, second).flag
            && !Synchronised(RunFrom(log, [first, second]))
  {
    var first, second := DataAvailable([bad] + good), DataAvailable(full);
    BadThenGood(bad, good);
    assert ([bad] + good)[0].bad;
    ErrorStep(log, first);
    var mid := Next(log, first);
    ReceiveClean(mid.line, full);
    var end := Next(mid, second);
    assert end.parsed == [] && |end.line.ring| == CAPACITY && |end.arrived| == 129;
    assert [first, second][1..] == [second] && [second][1..] == [];
    assert RunFrom(log, [first, second]) == RunFrom(mid, [second]);
    assert RunFrom(mid, [second]) == RunFrom(end, []);
  }
}
