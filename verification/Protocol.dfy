/** The serial protocol (serial/protocol.h, serial/protocol.c): messages, their frames, and what a
    stream of bytes means. */
module Protocol {

  type byte = b: int | 0 <= b < 256

  const MSG_HELLO: byte := 0x48
  const MSG_HELLO_ACK: byte := 0x41
  const MSG_KEY: byte := 0x4B
  const MSG_MOUSE: byte := 0x4D
  const MSG_SHIP_PLACE: byte := 0x50
  const MSG_ATTACK: byte := 0x54
  const MSG_CURSOR: byte := 0x43
  const MSG_STATE: byte := 0x53
  const MSG_COUNTDOWN: byte := 0x44
  const MSG_WINNER: byte := 0x57
  const MSG_DONE_PLACING: byte := 0x46
  const MSG_CLIENT_QUIT: byte := 0x51
  const MAX_PAYLOAD := 4
  const UNKNOWN: byte := 0xFF

  const ATTACK_MISS: byte := 0
  const ATTACK_HIT: byte := 1
  const ATTACK_SUNK: byte := 2

  /** `serial_msg_t`: the type byte and the member of the union that goes with it. */
  datatype Msg =
    | Hello
    | HelloAck
    | Key(scancode: byte)
    | Mouse(b0: byte, b1: byte, b2: byte)
    | ShipPlace(col: byte, row: byte, size: byte, typeOrient: byte)
    | AttackMsg(col: byte, row: byte, result: byte)
    | Cursor(col: byte, row: byte)
    | State(state: byte)
    | Countdown(seconds: byte)
    | Winner(winner: byte)
    | DonePlacing
    | ClientQuit

  /** `payload_len_for`. */
  function PayloadLen(t: byte): byte {
    if t == MSG_HELLO || t == MSG_HELLO_ACK || t == MSG_DONE_PLACING || t == MSG_CLIENT_QUIT then 0
    else if t == MSG_KEY || t == MSG_STATE || t == MSG_COUNTDOWN || t == MSG_WINNER then 1
    else if t == MSG_CURSOR then 2
    else if t == MSG_MOUSE || t == MSG_ATTACK then 3
    else if t == MSG_SHIP_PLACE then 4
    else UNKNOWN
  }

  predicate IsType(t: byte) {
    PayloadLen(t) != UNKNOWN
  }

  /** The message that a type byte and its payload stand for. */
  function Decode(t: byte, p: seq<byte>): Msg
    requires IsType(t) && |p| == PayloadLen(t)
  {
    if t == MSG_HELLO then Hello
    else if t == MSG_HELLO_ACK then HelloAck
    else if t == MSG_KEY then Key(p[0])
    else if t == MSG_MOUSE then Mouse(p[0], p[1], p[2])
    else if t == MSG_SHIP_PLACE then ShipPlace(p[0], p[1], p[2], p[3])
    else if t == MSG_ATTACK then AttackMsg(p[0], p[1], p[2])
    else if t == MSG_CURSOR then Cursor(p[0], p[1])
    else if t == MSG_STATE then State(p[0])
    else if t == MSG_COUNTDOWN then Countdown(p[0])
    else if t == MSG_WINNER then Winner(p[0])
    else if t == MSG_DONE_PLACING then DonePlacing
    else ClientQuit
  }

  /** The bytes that the `proto_send_*` functions hand to the UART. */
  function Encode(m: Msg): seq<byte> {
    match m
    case Hello => [MSG_HELLO]
    case HelloAck => [MSG_HELLO_ACK]
    case Key(sc) => [MSG_KEY, sc]
    case Mouse(x, y, z) => [MSG_MOUSE, x, y, z]
    case ShipPlace(c, r, s, t) => [MSG_SHIP_PLACE, c, r, s, t]
    case AttackMsg(c, r, x) => [MSG_ATTACK, c, r, x]
    case Cursor(c, r) => [MSG_CURSOR, c, r]
    case State(s) => [MSG_STATE, s]
    case Countdown(s) => [MSG_COUNTDOWN, s]
    case Winner(w) => [MSG_WINNER, w]
    case DonePlacing => [MSG_DONE_PLACING]
    case ClientQuit => [MSG_CLIENT_QUIT]
  }

  function EncodeAll(ms: seq<Msg>): seq<byte> {
    if ms == [] then [] else Encode(ms[0]) + EncodeAll(ms[1..])
  }

  /** What a receiver has made of a stream: the complete messages and the unfinished frame. */
  datatype Parsed = Parsed(msgs: seq<Msg>, rest: seq<byte>)

  function Prepend(m: Msg, p: Parsed): Parsed {
    Parsed([m] + p.msgs, p.rest)
  }

  /** The meaning of a stream of bytes: bytes that are no message type are skipped between frames. */
  function Parse(s: seq<byte>): Parsed
    decreases |s|
  {
    if s == [] then Parsed([], [])
    else if !IsType(s[0]) then Parse(s[1..])
    else
      var n := 1 + PayloadLen(s[0]);
      if |s| < n then Parsed([], s) else Prepend(Decode(s[0], s[1..n]), Parse(s[n..]))
  }

  /** Nothing, or a type byte and too few payload bytes. */
  predicate Unfinished(r: seq<byte>) {
    r == [] || (IsType(r[0]) && |r| < 1 + PayloadLen(r[0]))
  }

  // ---------------------------------------------------------------------------------------------
  // Laws
  // ---------------------------------------------------------------------------------------------

  lemma {:induction false} ParseRest(s: seq<byte>)
    ensures Unfinished(Parse(s).rest)
    ensures |Parse(s).rest| <= MAX_PAYLOAD
    decreases |s|
  {
    if s == [] {
    } else if !IsType(s[0]) {
      ParseRest(s[1..]);
    } else if |s| >= 1 + PayloadLen(s[0]) {
      ParseRest(s[1 + PayloadLen(s[0])..]);
    }
  }

  lemma ParseUnfinished(r: seq<byte>)
    requires Unfinished(r)
    ensures Parse(r) == Parsed([], r)
  {
  }

  /** A stream may be cut anywhere: the receiver that keeps the unfinished frame loses nothing. */
  lemma {:induction false} ParseSplit(s: seq<byte>, t: seq<byte>)
    ensures Parse(s + t) == Parsed(Parse(s).msgs + Parse(Parse(s).rest + t).msgs, Parse(Parse(s).rest + t).rest)
    decreases |s|
  {
    if s == [] {
      assert s + t == t && Parse(s).rest + t == t;
    } else if !IsType(s[0]) {
      assert (s + t)[1..] == s[1..] + t;
      ParseSplit(s[1..], t);
    } else if |s| >= 1 + PayloadLen(s[0]) {
      var n := 1 + PayloadLen(s[0]);
      assert (s + t)[1..n] == s[1..n] && (s + t)[n..] == s[n..] + t;
      ParseSplit(s[n..], t);
    }
  }

  /** One byte more. */
  lemma ParseOneMore(s: seq<byte>, p: Parsed, b: byte, q: Parsed)
    requires Parse(s) == p && Parse(p.rest + [b]) == q
    ensures Parse(s + [b]) == Parsed(p.msgs + q.msgs, q.rest)
  {
    ParseSplit(s, [b]);
  }

  lemma DecodeEncode(m: Msg)
    ensures var e := Encode(m);
            && |e| >= 1 && IsType(e[0]) && |e| == 1 + PayloadLen(e[0])
            && Decode(e[0], e[1..]) == m
  {
  }

  lemma ParseFrame(m: Msg, t: seq<byte>)
    ensures Parse(Encode(m) + t) == Prepend(m, Parse(t))
  {
    DecodeEncode(m);
    var e := Encode(m);
    assert (e + t)[1..|e|] == e[1..] && (e + t)[|e|..] == t;
  }

  /** Reading the concatenated frames of any messages gives back the messages and leaves nothing. */
  lemma {:induction false} RoundTrip(ms: seq<Msg>)
    ensures Parse(EncodeAll(ms)) == Parsed(ms, [])
  {
    if ms != [] {
      RoundTrip(ms[1..]);
      ParseFrame(ms[0], EncodeAll(ms[1..]));
    }
  }

  lemma {:induction false} SkipNoise(noise: seq<byte>, t: seq<byte>)
    requires forall b :: b in noise ==> !IsType(b)
    ensures Parse(noise + t) == Parse(t)
  {
    if noise == [] {
      assert noise + t == t;
    } else {
      assert (noise + t)[1..] == noise[1..] + t;
      SkipNoise(noise[1..], t);
    }
  }

  function WithNoise(ms: seq<Msg>, noise: seq<seq<byte>>): seq<byte>
    requires |noise| == |ms|
  {
    if ms == [] then [] else noise[0] + (Encode(ms[0]) + WithNoise(ms[1..], noise[1..]))
  }

  /** Bytes that are no message type, in front of any frame, do no harm. */
  lemma {:induction false} RoundTripWithNoise(ms: seq<Msg>, noise: seq<seq<byte>>)
    requires |noise| == |ms|
    requires forall i, b :: 0 <= i < |noise| && b in noise[i] ==> !IsType(b)
    ensures Parse(WithNoise(ms, noise)) == Parsed(ms, [])
  {
    if ms != [] {
      forall i, b | 0 <= i < |noise[1..]| && b in noise[1..][i]
        ensures !IsType(b)
      {
        assert b in noise[i + 1];
      }
      RoundTripWithNoise(ms[1..], noise[1..]);
      ParseFrame(ms[0], WithNoise(ms[1..], noise[1..]));
      SkipNoise(noise[0], Encode(ms[0]) + WithNoise(ms[1..], noise[1..]));
    }
  }

  lemma {:induction false} EncodeAllConcat(ms: seq<Msg>, ns: seq<Msg>)
    ensures EncodeAll(ms + ns) == EncodeAll(ms) + EncodeAll(ns)
  {
    if ms == [] {
      assert ms + ns == ns;
    } else {
      assert (ms + ns)[1..] == ms[1..] + ns;
      EncodeAllConcat(ms[1..], ns);
    }
  }

  // ---------------------------------------------------------------------------------------------
  // The receiver
  // ---------------------------------------------------------------------------------------------

  datatype Received = Nothing | Complete(msg: Msg)

  /** `proto_rx_state_t`. */
  class ProtoRx {
    var kind: byte
    const buf: array<byte>
    var collected: byte
    var expected: byte
    var haveType: bool

    ghost predicate Valid()
      reads this
    {
      && buf.Length == MAX_PAYLOAD
      && (haveType ==> IsType(kind) && expected == PayloadLen(kind) && collected < expected <= MAX_PAYLOAD)
    }

    /** The bytes of the frame under construction. */
    ghost function Pending(): (r: seq<byte>)
      requires Valid()
      reads this, buf
      ensures Unfinished(r)
    {
      if haveType then [kind] + buf[..collected] else []
    }

    constructor ()
      ensures Valid() && Pending() == []
      ensures fresh(buf)
    {
      buf := new byte[MAX_PAYLOAD](i => 0);
      kind, collected, expected, haveType := 0, 0, 0, false;
    }

    /** `proto_rx_reset`. */
    method Reset()
      requires Valid()
      modifies this
      ensures Valid() && Pending() == []
    {
      haveType, collected, expected, kind := false, 0, 0, 0;
    }

    /** `proto_feed_byte`: one more byte of the stream, with the message it completes, if any. */
    method FeedByte(b: byte) returns (out: Received)
      requires Valid()
      modifies this, buf
      ensures Valid()
      ensures Parse(old(Pending()) + [b]) == Parsed(if out.Complete? then [out.msg] else [], Pending())
    {
      ghost var stream := Pending() + [b];
      if !haveType {
        var plen := PayloadLen(b);
        if plen == UNKNOWN {
          return Nothing;
        }
        kind, expected, collected, haveType := b, plen, 0, true;
        if plen == 0 {
          haveType := false;
          return Complete(Decode(kind, []));
        }
        return Nothing;
      }
      buf[collected] := b;
      collected := collected + 1;
      assert stream == [kind] + buf[..collected];
      if collected < expected {
        return Nothing;
      }
      assert stream[1..] == buf[..expected] && stream[1 + expected..] == [];
      out := Complete(Decode(kind, buf[..expected]));
      haveType, collected := false, 0;
    }
  }
}
