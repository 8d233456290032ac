/**
 The packet format of src/packets.c.

 `Encode` and `Decode` say which bytes stand for which packet; the serialise
 and deserialise methods push and pop exactly those through a `Buffer`.
 */
module Packets {
  import opened Options
  import opened Balls
  import opened Buffers
  import opened Sequences

  datatype Payload =
    | TestPacket1(data1: int, data2: schar)
    | TestPacket2(number: int, short: int)
    | Handshake(clientId: int)
    | PlainText(text: seq<schar>)
    | Disconnected
    | Connected
    | BallPayload(ball: Ball)
    | StatePayload(state: State)
    | EventPayload(event: Event)

  const TEXT_SIZE: nat := 256

  /** A received packet. Fields the parser does not touch are absent. */
  datatype Packet = Packet(size: int, sender: Option<int>, ptype: schar, payload: Option<Payload>)

  function TypeOf(p: Payload): schar {
    match p
    case TestPacket1(_, _) => 97
    case TestPacket2(_, _) => 50
    case Handshake(_) => 104
    case PlainText(_) => 116
    case Disconnected => 100
    case Connected => 99
    case BallPayload(_) => 98
    case StatePayload(_) => 115
    case EventPayload(_) => 101
  }

  // ---------------------------------------------------------------- what C values can be sent

  predicate SendableBall(b: Ball) {
    IsInt32(b.px) && IsInt32(b.py) && IsInt32(b.vx) && IsInt32(b.vy) && IsInt32(b.player)
  }

  predicate SendableState(st: State) {
    && IsInt32(st.frame) && IsInt32(st.lie)
    && (forall i :: 0 <= i < MAX_PLAYERS ==> IsInt32(st.scores[i]))
    && (forall i :: 0 <= i < N_BALLS ==> SendableBall(st.balls[i]))
  }

  /** The fields are 32- or 16-bit integers, and a text is a C string in an array of 256. */
  predicate Sendable(p: Payload) {
    match p
    case TestPacket1(x, _) => IsInt32(x)
    case TestPacket2(x, y) => IsInt32(x) && IsInt16(y)
    case Handshake(id) => IsInt32(id)
    case PlainText(text) => |text| < TEXT_SIZE && NulFree(text)
    case Disconnected => true
    case Connected => true
    case BallPayload(b) => SendableBall(b)
    case StatePayload(st) => SendableState(st)
    case EventPayload(e) => IsInt32(e.frame) && IsInt32(e.summonFrame) && IsInt32(e.player)
  }

  // ---------------------------------------------------------------- the bytes of a packet

  function BallBytes(b: Ball): (s: seq<byte>)
    requires SendableBall(b)
    ensures |s| == 20 + N_BUTTONS
  {
    Int32Bytes(b.px) + Int32Bytes(b.py) + Int32Bytes(b.vx) + Int32Bytes(b.vy) + Int32Bytes(b.player)
    + TextBytes(b.buttons)
  }

  function IntsBytes(xs: seq<int>): (s: seq<byte>)
    requires forall i :: 0 <= i < |xs| ==> IsInt32(xs[i])
    ensures |s| == 4 * |xs|
  {
    if xs == [] then [] else IntsBytes(xs[..|xs| - 1]) + Int32Bytes(xs[|xs| - 1])
  }

  function BallsBytes(bs: seq<Ball>): (s: seq<byte>)
    requires forall i :: 0 <= i < |bs| ==> SendableBall(bs[i])
    ensures |s| == (20 + N_BUTTONS) * |bs|
  {
    if bs == [] then [] else BallsBytes(bs[..|bs| - 1]) + BallBytes(bs[|bs| - 1])
  }

  function StateBytes(st: State): (s: seq<byte>)
    requires SendableState(st)
    ensures |s| == 329
  {
    [CharByte(st.paused)] + Int32Bytes(st.frame) + IntsBytes(st.scores) + BallsBytes(st.balls) + Int32Bytes(st.lie)
  }

  function EventBytes(e: Event): (s: seq<byte>)
    requires Sendable(EventPayload(e))
    ensures |s| == 14
  {
    Int32Bytes(e.frame) + Int32Bytes(e.summonFrame) + Int32Bytes(e.player) + [CharByte(e.button)] + [CharByte(e.pressed)]
  }

  function Body(p: Payload): (s: seq<byte>)
    requires Sendable(p)
    ensures |s| <= 329
  {
    match p
    case TestPacket1(x, c) => Int32Bytes(x) + [CharByte(c)]
    case TestPacket2(x, y) => Int32Bytes(x) + Int16Bytes(y)
    case Handshake(id) => Int32Bytes(id)
    case PlainText(text) => Int16Bytes(|text|) + TextBytes(text)
    case Disconnected => []
    case Connected => []
    case BallPayload(b) => BallBytes(b)
    case StatePayload(st) => StateBytes(st)
    case EventPayload(e) => EventBytes(e)
  }

  function Header(bodySize: nat, ptype: schar): (s: seq<byte>)
    requires bodySize <= 329
    ensures |s| == 3
  {
    Int16Bytes(3 + bodySize) + [CharByte(ptype)]
  }

  function Encode(p: Payload): (s: seq<byte>)
    requires Sendable(p)
    ensures 3 <= |s| <= 332
  {
    Header(|Body(p)|, TypeOf(p)) + Body(p)
  }

  // ---------------------------------------------------------------- reading them back

  function TakeBall(s0: seq<byte>): Parsed<Ball> {
    var (px, s1) :- TakeInt32(s0);
    var (py, s2) :- TakeInt32(s1);
    var (vx, s3) :- TakeInt32(s2);
    var (vy, s4) :- TakeInt32(s3);
    var (player, s5) :- TakeInt32(s4);
    var (buttons, s6) :- TakeChars(s5, N_BUTTONS);
    if |buttons| == N_BUTTONS then Got(Ball(px, py, vx, vy, player, buttons), s6) else Short
  }

  function TakeBalls(s: seq<byte>, n: nat): Parsed<seq<Ball>>
    decreases n, s
  {
    if n == 0 then Got([], s)
    else
      var (b, s1) :- TakeBall(s);
      var (bs, s2) :- TakeBalls(s1, n - 1);
      Got([b] + bs, s2)
  }

  /** The death count is not on the wire: the reader keeps whatever was in its place. */
  function TakeState(s0: seq<byte>, stale: int): Parsed<State> {
    var (paused, s1) :- TakeChar(s0);
    var (frame, s2) :- TakeInt32(s1);
    var (scores, s3) :- TakeInts(s2, MAX_PLAYERS);
    var (balls, s4) :- TakeBalls(s3, N_BALLS);
    var (lie, s5) :- TakeInt32(s4);
    if |scores| == MAX_PLAYERS && |balls| == N_BALLS then Got(State(paused, frame, stale, scores, balls, lie), s5) else Short
  }

  function TakeEvent(s0: seq<byte>): Parsed<Event> {
    var (frame, s1) :- TakeInt32(s0);
    var (summonFrame, s2) :- TakeInt32(s1);
    var (player, s3) :- TakeInt32(s2);
    var (button, s4) :- TakeChar(s3);
    var (pressed, s5) :- TakeChar(s4);
    Got(Event(frame, summonFrame, player, button, pressed), s5)
  }

  /** The payload of a packet of type `ptype`; unknown types have none. */
  function TakePayload(s: seq<byte>, ptype: schar, stale: int): Parsed<Option<Payload>> {
    if ptype == 97 then
      var (x, s1) :- TakeInt32(s);
      var (c, s2) :- TakeChar(s1);
      Got(Some(TestPacket1(x, c)), s2)
    else if ptype == 50 then
      var (x, s1) :- TakeInt32(s);
      var (y, s2) :- TakeInt16(s1);
      Got(Some(TestPacket2(x, y)), s2)
    else if ptype == 104 then
      var (id, s1) :- TakeInt32(s);
      Got(Some(Handshake(id)), s1)
    else if ptype == 116 then
      var (text, s1) :- TakeString(s, TEXT_SIZE);
      Got(Some(PlainText(text)), s1)
    else if ptype == 100 then Got(Some(Disconnected), s)
    else if ptype == 99 then Got(Some(Connected), s)
    else if ptype == 98 then
      var (b, s1) :- TakeBall(s);
      Got(Some(BallPayload(b)), s1)
    else if ptype == 115 then
      var (st, s1) :- TakeState(s, stale);
      Got(Some(StatePayload(st)), s1)
    else if ptype == 101 then
      var (e, s1) :- TakeEvent(s);
      Got(Some(EventPayload(e)), s1)
    else Got(None, s)
  }

  function TakeSender(s: seq<byte>, parseSender: bool): Parsed<Option<int>> {
    if parseSender then
      var (id, s1) :- TakeInt32(s);
      Got(Some(id), s1)
    else Got(None, s)
  }

  function Decode(s0: seq<byte>, parseSender: bool, stale: int): Parsed<Packet> {
    var (size, s1) :- TakeInt16(s0);
    var (sender, s2) :- TakeSender(s1, parseSender);
    var (ptype, s3) :- TakeChar(s2);
    var (payload, s4) :- TakePayload(s3, ptype, stale);
    Got(Packet(size, sender, ptype, payload), s4)
  }

  /** What arrives of a payload: all of it, but for the death count of a state. */
  function Arrived(p: Payload, stale: int): Payload {
    match p
    case StatePayload(st) => StatePayload(st.(deathCount := stale))
    case _ => p
  }

  // ---------------------------------------------------------------- round trips

  lemma BallRoundTrip(b: Ball, rest: seq<byte>)
    requires SendableBall(b)
    ensures TakeBall(BallBytes(b) + rest) == Got(b, rest)
  {
    var t5 := TextBytes(b.buttons) + rest;
    var t4 := Int32Bytes(b.player) + t5;
    var t3 := Int32Bytes(b.vy) + t4;
    var t2 := Int32Bytes(b.vx) + t3;
    var t1 := Int32Bytes(b.py) + t2;
    assert BallBytes(b) + rest == Int32Bytes(b.px) + t1;
    Int32RoundTrip(b.px, t1);
    Int32RoundTrip(b.py, t2);
    Int32RoundTrip(b.vx, t3);
    Int32RoundTrip(b.vy, t4);
    Int32RoundTrip(b.player, t5);
    CharsRoundTrip(b.buttons, rest);
  }

  lemma {:induction false} IntsFront(xs: seq<int>)
    requires xs != [] && forall i :: 0 <= i < |xs| ==> IsInt32(xs[i])
    ensures IntsBytes(xs) == Int32Bytes(xs[0]) + IntsBytes(xs[1..])
  {
    var n := |xs| - 1;
    if n > 0 {
      IntsFront(xs[..n]);
      assert xs[..n][1..] == xs[1..][..n - 1];
    }
  }

  lemma {:induction false} IntsRoundTrip(xs: seq<int>, rest: seq<byte>)
    requires forall i :: 0 <= i < |xs| ==> IsInt32(xs[i])
    ensures TakeInts(IntsBytes(xs) + rest, |xs|) == Got(xs, rest)
  {
    if xs == [] {
      assert IntsBytes(xs) + rest == rest;
    } else {
      IntsFront(xs);
      assert IntsBytes(xs) + rest == Int32Bytes(xs[0]) + (IntsBytes(xs[1..]) + rest);
      Int32RoundTrip(xs[0], IntsBytes(xs[1..]) + rest);
      IntsRoundTrip(xs[1..], rest);
      assert xs == [xs[0]] + xs[1..];
    }
  }

  lemma {:induction false} BallsFront(bs: seq<Ball>)
    requires bs != [] && forall i :: 0 <= i < |bs| ==> SendableBall(bs[i])
    ensures BallsBytes(bs) == BallBytes(bs[0]) + BallsBytes(bs[1..])
  {
    var n := |bs| - 1;
    if n > 0 {
      BallsFront(bs[..n]);
      assert bs[..n][1..] == bs[1..][..n - 1];
      Associative(BallBytes(bs[0]), BallsBytes(bs[1..][..n - 1]), BallBytes(bs[n]));
    } else {
      assert BallsBytes(bs[1..]) == [] && BallsBytes(bs[..n]) == [];
    }
  }

  lemma TakeOneBall(s: seq<byte>, b: Ball, more: seq<byte>, bs: seq<Ball>, rest: seq<byte>, n: nat)
    requires TakeBall(s) == Got(b, more) && TakeBalls(more, n) == Got(bs, rest)
    ensures TakeBalls(s, n + 1) == Got([b] + bs, rest)
  {
    hide TakeBall;
  }

  lemma {:induction false} BallsRoundTrip(bs: seq<Ball>, rest: seq<byte>)
    requires forall i :: 0 <= i < |bs| ==> SendableBall(bs[i])
    ensures TakeBalls(BallsBytes(bs) + rest, |bs|) == Got(bs, rest)
  {
    hide BallBytes, TakeBall, SendableBall;
    if bs == [] {
      assert BallsBytes(bs) + rest == rest;
    } else {
      hide TakeBalls, BallsBytes;
      var more := BallsBytes(bs[1..]) + rest;
      BallsFront(bs);
      assert BallsBytes(bs) + rest == BallBytes(bs[0]) + more;
      BallRoundTrip(bs[0], more);
      BallsRoundTrip(bs[1..], rest);
      TakeOneBall(BallBytes(bs[0]) + more, bs[0], more, bs[1..], rest, |bs| - 1);
      assert bs == [bs[0]] + bs[1..];
    }
  }

  lemma StateRoundTrip(st: State, stale: int, rest: seq<byte>)
    requires SendableState(st)
    ensures TakeState(StateBytes(st) + rest, stale) == Got(st.(deathCount := stale), rest)
  {
    var t4 := Int32Bytes(st.lie) + rest;
    var t3 := BallsBytes(st.balls) + t4;
    var t2 := IntsBytes(st.scores) + t3;
    var t1 := Int32Bytes(st.frame) + t2;
    var s := StateBytes(st) + rest;
    assert s == [CharByte(st.paused)] + t1;
    assert s[1..] == t1;
    Int32RoundTrip(st.frame, t2);
    IntsRoundTrip(st.scores, t3);
    BallsRoundTrip(st.balls, t4);
    Int32RoundTrip(st.lie, rest);
  }

  lemma EventRoundTrip(e: Event, rest: seq<byte>)
    requires Sendable(EventPayload(e))
    ensures TakeEvent(EventBytes(e) + rest) == Got(e, rest)
  {
    var t4 := [CharByte(e.pressed)] + rest;
    var t3 := [CharByte(e.button)] + t4;
    var t2 := Int32Bytes(e.player) + t3;
    var t1 := Int32Bytes(e.summonFrame) + t2;
    assert EventBytes(e) + rest == Int32Bytes(e.frame) + t1;
    Int32RoundTrip(e.frame, t1);
    Int32RoundTrip(e.summonFrame, t2);
    Int32RoundTrip(e.player, t3);
    assert t3[1..] == t4 && t4[1..] == rest;
  }

  lemma TestPacketsRoundTrip(p: Payload, stale: int, rest: seq<byte>)
    requires Sendable(p) && (p.TestPacket1? || p.TestPacket2?)
    ensures TakePayload(Body(p) + rest, TypeOf(p), stale) == Got(Some(p), rest)
  {
    match p
    case TestPacket1(x, c) =>
      var t := [CharByte(c)] + rest;
      assert Body(p) + rest == Int32Bytes(x) + t;
      Int32RoundTrip(x, t);
      assert t[1..] == rest;
    case TestPacket2(x, y) =>
      var t := Int16Bytes(y) + rest;
      assert Body(p) + rest == Int32Bytes(x) + t;
      Int32RoundTrip(x, t);
      Int16RoundTrip(y, rest);
  }

  lemma PlainRoundTrip(p: Payload, stale: int, rest: seq<byte>)
    requires Sendable(p) && (p.Handshake? || p.PlainText? || p.Disconnected? || p.Connected?)
    ensures TakePayload(Body(p) + rest, TypeOf(p), stale) == Got(Some(p), rest)
  {
    match p
    case Handshake(id) => Int32RoundTrip(id, rest);
    case PlainText(text) => StringRoundTrip(text, rest, TEXT_SIZE);
    case Disconnected => assert Body(p) + rest == rest;
    case Connected => assert Body(p) + rest == rest;
  }

  lemma GameRoundTrip(p: Payload, stale: int, rest: seq<byte>)
    requires Sendable(p) && (p.BallPayload? || p.EventPayload?)
    ensures TakePayload(Body(p) + rest, TypeOf(p), stale) == Got(Some(p), rest)
  {
    hide BallBytes, EventBytes, TakeBall, TakeEvent, TakeState;
    match p
    case BallPayload(b) => BallRoundTrip(b, rest);
    case EventPayload(e) => EventRoundTrip(e, rest);
  }

  lemma StatePayloadRoundTrip(st: State, stale: int, rest: seq<byte>)
    requires SendableState(st)
    ensures TakePayload(StateBytes(st) + rest, 115, stale) == Got(Some(StatePayload(st.(deathCount := stale))), rest)
  {
    StateRoundTrip(st, stale, rest);
  }

  lemma PayloadRoundTrip(p: Payload, stale: int, rest: seq<byte>)
    requires Sendable(p)
    ensures TakePayload(Body(p) + rest, TypeOf(p), stale) == Got(Some(Arrived(p, stale)), rest)
  {
    if p.TestPacket1? || p.TestPacket2? {
      TestPacketsRoundTrip(p, stale, rest);
    } else if p.StatePayload? {
      StatePayloadRoundTrip(p.state, stale, rest);
    } else if p.BallPayload? || p.EventPayload? {
      GameRoundTrip(p, stale, rest);
    } else {
      PlainRoundTrip(p, stale, rest);
    }
  }

  lemma HeaderRoundTrip(ptype: schar, body: seq<byte>, stale: int, payload: Option<Payload>, rest0: seq<byte>, rest: seq<byte>)
    requires |body| <= 329 && TakePayload(body + rest0, ptype, stale) == Got(payload, rest)
    ensures Decode(Header(|body|, ptype) + body + rest0, false, stale) == Got(Packet(3 + |body|, None, ptype, payload), rest)
  {
    var t1 := [CharByte(ptype)] + (body + rest0);
    assert Header(|body|, ptype) + body + rest0 == Int16Bytes(3 + |body|) + t1;
    Int16RoundTrip(3 + |body|, t1);
    assert t1[1..] == body + rest0;
  }

  lemma TaggedHeaderRoundTrip(sender: int, ptype: schar, body: seq<byte>, stale: int,
                              payload: Option<Payload>, rest0: seq<byte>, rest: seq<byte>)
    requires IsInt32(sender) && |body| <= 329 && TakePayload(body + rest0, ptype, stale) == Got(payload, rest)
    ensures Decode(Tagged(sender, Header(|body|, ptype) + body) + rest0, true, stale)
         == Got(Packet(7 + |body|, Some(sender), ptype, payload), rest)
  {
    var t2 := [CharByte(ptype)] + (body + rest0);
    var t1 := Int32Bytes(sender) + t2;
    assert Tagged(sender, Header(|body|, ptype) + body) + rest0 == Int16Bytes(7 + |body|) + t1;
    Int16RoundTrip(7 + |body|, t1);
    Int32RoundTrip(sender, t2);
    assert t2[1..] == body + rest0;
  }

  /** A client reads back what was serialised, and its size field is the byte length. */
  lemma RoundTrip(p: Payload, stale: int, rest: seq<byte>)
    requires Sendable(p)
    ensures Decode(Encode(p) + rest, false, stale)
         == Got(Packet(|Encode(p)|, None, TypeOf(p), Some(Arrived(p, stale))), rest)
  {
    PayloadRoundTrip(p, stale, rest);
    HeaderRoundTrip(TypeOf(p), Body(p), stale, Some(Arrived(p, stale)), rest, rest);
  }

  /** bv_append_with_sender_id: the packet with the sender's id between size and type, and the size adjusted. */
  function Tagged(sender: int, packet: seq<byte>): (s: seq<byte>)
    requires IsInt32(sender) && 2 <= |packet| < 0x8000 - 4
    ensures |s| == |packet| + 4
  {
    Int16Bytes(|packet| + 4) + Int32Bytes(sender) + packet[2..]
  }

  /** Other clients read back what was serialised, with the id of the sender. */
  lemma TaggedRoundTrip(sender: int, p: Payload, stale: int, rest: seq<byte>)
    requires Sendable(p) && IsInt32(sender)
    ensures Decode(Tagged(sender, Encode(p)) + rest, true, stale)
         == Got(Packet(|Encode(p)| + 4, Some(sender), TypeOf(p), Some(Arrived(p, stale))), rest)
  {
    PayloadRoundTrip(p, stale, rest);
    TaggedHeaderRoundTrip(sender, TypeOf(p), Body(p), stale, Some(Arrived(p, stale)), rest, rest);
  }

  // ---------------------------------------------------------------- truncated packets

  lemma TakeBallExtends(s: seq<byte>, t: seq<byte>)
    requires TakeBall(s).Got?
    ensures TakeBall(s + t) == Got(TakeBall(s).value, TakeBall(s).rest + t)
  {
    TakeInt32Extends(s, t);
    var s1 := TakeInt32(s).rest;
    TakeInt32Extends(s1, t);
    var s2 := TakeInt32(s1).rest;
    TakeInt32Extends(s2, t);
    var s3 := TakeInt32(s2).rest;
    TakeInt32Extends(s3, t);
    var s4 := TakeInt32(s3).rest;
    TakeInt32Extends(s4, t);
    TakeCharsExtends(TakeInt32(s4).rest, N_BUTTONS, t);
  }

  lemma {:induction false} TakeBallsExtends(s: seq<byte>, n: nat, t: seq<byte>)
    requires TakeBalls(s, n).Got?
    ensures TakeBalls(s + t, n) == Got(TakeBalls(s, n).value, TakeBalls(s, n).rest + t)
    decreases n, s
  {
    if n > 0 {
      TakeBallExtends(s, t);
      TakeBallsExtends(TakeBall(s).rest, n - 1, t);
    }
  }

  lemma TakeStateExtends(s: seq<byte>, stale: int, t: seq<byte>)
    requires TakeState(s, stale).Got?
    ensures TakeState(s + t, stale) == Got(TakeState(s, stale).value, TakeState(s, stale).rest + t)
  {
    assert (s + t)[1..] == s[1..] + t;
    var s1 := s[1..];
    TakeInt32Extends(s1, t);
    var s2 := TakeInt32(s1).rest;
    TakeIntsExtends(s2, MAX_PLAYERS, t);
    var s3 := TakeInts(s2, MAX_PLAYERS).rest;
    TakeBallsExtends(s3, N_BALLS, t);
    TakeInt32Extends(TakeBalls(s3, N_BALLS).rest, t);
  }

  lemma TakeEventExtends(s: seq<byte>, t: seq<byte>)
    requires TakeEvent(s).Got?
    ensures TakeEvent(s + t) == Got(TakeEvent(s).value, TakeEvent(s).rest + t)
  {
    TakeInt32Extends(s, t);
    var s1 := TakeInt32(s).rest;
    TakeInt32Extends(s1, t);
    var s2 := TakeInt32(s1).rest;
    TakeInt32Extends(s2, t);
    var s3 := TakeInt32(s2).rest;
    assert (s3 + t)[1..] == s3[1..] + t;
    assert (s3[1..] + t)[1..] == s3[1..][1..] + t;
  }

  lemma TakePayloadExtends(s: seq<byte>, ptype: schar, stale: int, t: seq<byte>)
    requires TakePayload(s, ptype, stale).Got?
    ensures TakePayload(s + t, ptype, stale) == Got(TakePayload(s, ptype, stale).value, TakePayload(s, ptype, stale).rest + t)
  {
    if ptype == 97 || ptype == 50 || ptype == 104 {
      TakeInt32Extends(s, t);
      var s1 := TakeInt32(s).rest;
      if ptype == 97 { assert (s1 + t)[1..] == s1[1..] + t; }
      if ptype == 50 { assert (s1 + t)[2..] == s1[2..] + t; }
    } else if ptype == 116 {
      TakeStringExtends(s, TEXT_SIZE, t);
    } else if ptype == 98 {
      TakeBallExtends(s, t);
    } else if ptype == 115 {
      TakeStateExtends(s, stale, t);
    } else if ptype == 101 {
      TakeEventExtends(s, t);
    }
  }

  lemma DecodeExtends(s: seq<byte>, parseSender: bool, stale: int, t: seq<byte>)
    requires Decode(s, parseSender, stale).Got?
    ensures Decode(s + t, parseSender, stale) == Got(Decode(s, parseSender, stale).value, Decode(s, parseSender, stale).rest + t)
  {
    assert (s + t)[2..] == s[2..] + t;
    var s1 := s[2..];
    if parseSender { TakeInt32Extends(s1, t); }
    var s2 := TakeSender(s1, parseSender).rest;
    assert (s2 + t)[1..] == s2[1..] + t;
    TakePayloadExtends(s2[1..], ByteChar(s2[0]), stale, t);
  }

  /** A packet that was cut short anywhere is rejected. */
  lemma PrefixRejected(p: Payload, stale: int, n: nat)
    requires Sendable(p) && n < |Encode(p)|
    ensures Decode(Encode(p)[..n], false, stale) == Short
  {
    hide Encode, Decode;
    var s, t := Encode(p)[..n], Encode(p)[n..];
    if Decode(s, false, stale).Got? {
      DecodeExtends(s, false, stale, t);
      assert s + t == Encode(p) && Encode(p) + [] == Encode(p);
      RoundTrip(p, stale, []);
    }
  }

  lemma TaggedPrefixRejected(sender: int, p: Payload, stale: int, n: nat)
    requires Sendable(p) && IsInt32(sender) && n < |Encode(p)| + 4
    ensures Decode(Tagged(sender, Encode(p))[..n], true, stale) == Short
  {
    hide Tagged, Encode, Decode;
    var whole := Tagged(sender, Encode(p));
    var s, t := whole[..n], whole[n..];
    if Decode(s, true, stale).Got? {
      DecodeExtends(s, true, stale, t);
      assert s + t == whole && whole + [] == whole;
      TaggedRoundTrip(sender, p, stale, []);
    }
  }
}
