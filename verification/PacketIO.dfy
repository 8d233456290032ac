/**
 The serialise and deserialise functions of src/packets.c, pushing to and
 popping from a `Buffer`. A push has room as its precondition, so that these
 methods verify means that every preallocated size is exact enough; that the
 result is full means it is not too large either.
 */
module PacketIO {
  import opened Options
  import opened Balls
  import opened Buffers
  import opened Packets
  import opened Sequences

  ghost predicate Full(b: Buffer, bytes: seq<byte>)
    reads b, b.data
  {
    b.Valid() && b.Written() == bytes && b.wptr == b.data.Length && b.rptr == 0
  }

  // ---------------------------------------------------------------- serialise

  /** _header_serialize: room for the whole packet, with the header in it. */
  method HeaderSerialize(bodySize: nat, ptype: schar) returns (b: Buffer)
    requires bodySize <= 329
    ensures fresh(b) && fresh(b.data) && b.Valid() && b.rptr == 0
    ensures b.Written() == Header(bodySize, ptype) && b.data.Length == 3 + bodySize
  {
    b := new Buffer.Create(2 + 1 + bodySize);
    b.PushInt16(2 + 1 + bodySize);
    b.PushChar(ptype);
  }

  lemma Regroup(w: seq<byte>, a: seq<byte>, b: seq<byte>, c: seq<byte>, d: seq<byte>, e: seq<byte>, f: seq<byte>)
    ensures w + a + b + c + d + e + f == w + (a + b + c + d + e + f)
  {
  }

  method PushButtons(buttons: Buttons, b: Buffer)
    requires b.Valid() && N_BUTTONS <= b.data.Length - b.wptr
    modifies b`wptr, b.data
    ensures b.Valid() && b.Written() == old(b.Written()) + TextBytes(buttons)
  {
    ghost var before := b.Written();
    for i := 0 to N_BUTTONS
      invariant b.Valid() && b.Written() == before + TextBytes(buttons[..i])
      invariant b.wptr == |before| + i
    {
      b.PushChar(buttons[i]);
      assert TextBytes(buttons[..i + 1]) == TextBytes(buttons[..i]) + [CharByte(buttons[i])];
    }
    assert buttons[..N_BUTTONS] == buttons;
  }

  /** _ball_serialize into an existing buffer. */
  method PushBall(ball: Ball, b: Buffer)
    requires SendableBall(ball)
    requires b.Valid() && 20 + N_BUTTONS <= b.data.Length - b.wptr
    modifies b`wptr, b.data
    ensures b.Valid() && b.Written() == old(b.Written()) + BallBytes(ball)
  {
    ghost var before := b.Written();
    b.PushInt32(ball.px);
    b.PushInt32(ball.py);
    b.PushInt32(ball.vx);
    b.PushInt32(ball.vy);
    b.PushInt32(ball.player);
    assert b.wptr == |before| + 20;
    PushButtons(ball.buttons, b);
    Regroup(before, Int32Bytes(ball.px), Int32Bytes(ball.py), Int32Bytes(ball.vx), Int32Bytes(ball.vy),
            Int32Bytes(ball.player), TextBytes(ball.buttons));
  }

  /** _ball_serialize: with a header of its own when no buffer is given. */
  method BallSerialize(ball: Ball) returns (b: Buffer)
    requires SendableBall(ball)
    ensures fresh(b) && fresh(b.data) && Full(b, Encode(BallPayload(ball)))
  {
    b := HeaderSerialize(20 + N_BUTTONS, 98);
    PushBall(ball, b);
  }

  method PushScores(scores: Scores, b: Buffer)
    requires forall i :: 0 <= i < MAX_PLAYERS ==> IsInt32(scores[i])
    requires b.Valid() && 4 * MAX_PLAYERS <= b.data.Length - b.wptr
    modifies b`wptr, b.data
    ensures b.Valid() && b.Written() == old(b.Written()) + IntsBytes(scores)
  {
    ghost var before := b.Written();
    for i := 0 to MAX_PLAYERS
      invariant b.Valid() && b.wptr == |before| + 4 * i
      invariant b.Written() == before + IntsBytes(scores[..i])
    {
      b.PushInt32(scores[i]);
      assert scores[..i + 1][..i] == scores[..i];
      Associative(before, IntsBytes(scores[..i]), Int32Bytes(scores[i]));
    }
    assert scores[..MAX_PLAYERS] == scores;
  }

  method PushBalls(balls: BallRow, b: Buffer)
    requires forall i :: 0 <= i < N_BALLS ==> SendableBall(balls[i])
    requires b.Valid() && (20 + N_BUTTONS) * N_BALLS <= b.data.Length - b.wptr
    modifies b`wptr, b.data
    ensures b.Valid() && b.Written() == old(b.Written()) + BallsBytes(balls)
  {
    ghost var before := b.Written();
    for i := 0 to N_BALLS
      invariant b.Valid() && b.wptr == |before| + (20 + N_BUTTONS) * i
      invariant b.Written() == before + BallsBytes(balls[..i])
    {
      PushBall(balls[i], b);
      assert balls[..i + 1][..i] == balls[..i];
      Associative(before, BallsBytes(balls[..i]), BallBytes(balls[i]));
    }
    assert balls[..N_BALLS] == balls;
  }

  method StateSerialize(st: State) returns (b: Buffer)
    requires SendableState(st)
    ensures fresh(b) && fresh(b.data) && Full(b, Encode(StatePayload(st)))
  {
    hide Int16Bytes, Int32Bytes, IntsBytes, BallsBytes, Stands8, Stands16, Stands32, SendableBall;
    b := HeaderSerialize(1 + 4 + (4 * MAX_PLAYERS) + ((20 + N_BUTTONS) * N_BALLS) + 4, 115);
    ghost var before := b.Written();
    b.PushChar(st.paused);
    b.PushInt32(st.frame);
    assert b.wptr == 8;
    PushScores(st.scores, b);
    assert b.wptr == 40;
    PushBalls(st.balls, b);
    assert b.wptr == 328;
    b.PushInt32(st.lie);
    Regroup(before, [CharByte(st.paused)], Int32Bytes(st.frame), IntsBytes(st.scores), BallsBytes(st.balls),
            Int32Bytes(st.lie), []);
    assert b.Written() == b.Written() + [];
    assert StateBytes(st) == StateBytes(st) + [];
  }

  method EventSerialize(e: Event) returns (b: Buffer)
    requires Sendable(EventPayload(e))
    ensures fresh(b) && fresh(b.data) && Full(b, Encode(EventPayload(e)))
  {
    hide Int16Bytes, Int32Bytes, Stands8, Stands16, Stands32;
    b := HeaderSerialize(12 + 2, 101);
    b.PushInt32(e.frame);
    b.PushInt32(e.summonFrame);
    b.PushInt32(e.player);
    b.PushChar(e.button);
    b.PushChar(e.pressed);
    assert b.Written() == Header(14, 101) + EventBytes(e);
  }

  method PacketSerialize(p: Payload) returns (b: Buffer)
    requires Sendable(p)
    ensures fresh(b) && fresh(b.data) && Full(b, Encode(p))
  {
    match p
    case TestPacket1(x, c) =>
      b := HeaderSerialize(4 + 1, 97);
      b.PushInt32(x);
      b.PushChar(c);
      assert b.Written() == Encode(p);
    case TestPacket2(x, y) =>
      b := HeaderSerialize(4 + 2, 50);
      b.PushInt32(x);
      b.PushInt16(y);
      assert b.Written() == Encode(p);
    case Handshake(id) =>
      b := HeaderSerialize(4, 104);
      b.PushInt32(id);
    case PlainText(text) =>
      b := HeaderSerialize(2 + |text|, 116);
      b.PushString(text);
      assert b.Written() == Encode(p);
    case Disconnected =>
      b := HeaderSerialize(0, 100);
      assert b.Written() == Encode(p);
    case Connected =>
      b := HeaderSerialize(0, 99);
      assert b.Written() == Encode(p);
    case BallPayload(ball) =>
      b := BallSerialize(ball);
    case StatePayload(st) =>
      b := StateSerialize(st);
    case EventPayload(e) =>
      b := EventSerialize(e);
  }

  // ---------------------------------------------------------------- deserialise

  method BallDeserialize(b: Buffer) returns (r: Option<Ball>)
    requires b.Valid()
    modifies b`rptr
    ensures b.Valid()
    ensures match TakeBall(old(b.Unread()))
            case Short => r == None
            case Got(v, rest) => r == Some(v) && b.Unread() == rest
  {
    var ok, px := b.PopInt32();
    if !ok { return None; }
    var py;
    ok, py := b.PopInt32();
    if !ok { return None; }
    var vx;
    ok, vx := b.PopInt32();
    if !ok { return None; }
    var vy;
    ok, vy := b.PopInt32();
    if !ok { return None; }
    var player;
    ok, player := b.PopInt32();
    if !ok { return None; }
    var buttons;
    ok, buttons := PopButtons(b);
    if !ok { return None; }
    return Some(Ball(px, py, vx, vy, player, buttons));
  }

  /** What is read in `n` more steps, after `read`. */
  function After<T>(read: seq<T>, more: Parsed<seq<T>>): Parsed<seq<T>> {
    match more
    case Short => Short
    case Got(v, rest) => Got(read + v, rest)
  }

  lemma AfterNothing<T>(more: Parsed<seq<T>>)
    ensures After([], more) == more
  {
    if more.Got? { assert [] + more.value == more.value; }
  }

  lemma CharStep(read: seq<schar>, s: seq<byte>, n: nat)
    requires n > 0
    ensures After(read, TakeChars(s, n)) == match TakeChar(s)
            case Short => Short
            case Got(c, rest) => After(read + [c], TakeChars(rest, n - 1))
  {
    if TakeChars(s, n).Got? {
      var c := TakeChar(s).value;
      var more := TakeChars(TakeChar(s).rest, n - 1).value;
      assert read + ([c] + more) == (read + [c]) + more;
    }
  }

  lemma IntStep(read: seq<int>, s: seq<byte>, n: nat)
    requires n > 0
    ensures After(read, TakeInts(s, n)) == match TakeInt32(s)
            case Short => Short
            case Got(x, rest) => After(read + [x], TakeInts(rest, n - 1))
  {
    if TakeInts(s, n).Got? {
      var x := TakeInt32(s).value;
      var more := TakeInts(TakeInt32(s).rest, n - 1).value;
      assert read + ([x] + more) == (read + [x]) + more;
    }
  }

  lemma BallStep(read: seq<Ball>, s: seq<byte>, n: nat)
    requires n > 0
    ensures After(read, TakeBalls(s, n)) == match TakeBall(s)
            case Short => Short
            case Got(b, rest) => After(read + [b], TakeBalls(rest, n - 1))
  {
    if TakeBalls(s, n).Got? {
      var b := TakeBall(s).value;
      var more := TakeBalls(TakeBall(s).rest, n - 1).value;
      assert read + ([b] + more) == (read + [b]) + more;
    }
  }

  method PopButtons(b: Buffer) returns (ok: bool, buttons: Buttons)
    requires b.Valid()
    modifies b`rptr
    ensures b.Valid()
    ensures match TakeChars(old(b.Unread()), N_BUTTONS)
            case Short => !ok
            case Got(v, rest) => ok && buttons == v && b.Unread() == rest
  {
    buttons := [0, 0, 0, 0];
    var read: seq<schar> := [];
    ghost var all := TakeChars(b.Unread(), N_BUTTONS);
    AfterNothing(all);
    for i := 0 to N_BUTTONS
      invariant b.Valid() && |read| == i
      invariant all == After(read, TakeChars(b.Unread(), N_BUTTONS - i))
    {
      CharStep(read, b.Unread(), N_BUTTONS - i);
      var c;
      ok, c := b.PopChar();
      if !ok { return; }
      read := read + [c];
    }
    ok, buttons := true, read;
  }

  method PopScores(b: Buffer) returns (ok: bool, scores: Scores)
    requires b.Valid()
    modifies b`rptr
    ensures b.Valid()
    ensures match TakeInts(old(b.Unread()), MAX_PLAYERS)
            case Short => !ok
            case Got(v, rest) => ok && scores == v && b.Unread() == rest
  {
    scores := [0, 0, 0, 0, 0, 0, 0, 0];
    var read: seq<int> := [];
    ghost var all := TakeInts(b.Unread(), MAX_PLAYERS);
    AfterNothing(all);
    for i := 0 to MAX_PLAYERS
      invariant b.Valid() && |read| == i
      invariant all == After(read, TakeInts(b.Unread(), MAX_PLAYERS - i))
    {
      IntStep(read, b.Unread(), MAX_PLAYERS - i);
      var x;
      ok, x := b.PopInt32();
      if !ok { return; }
      read := read + [x];
    }
    ok, scores := true, read;
  }

  /** One more ball of the ball loop, of which `n` are still to be read. */
  method PopOneMore(b: Buffer, read: seq<Ball>, n: nat) returns (ok: bool, read': seq<Ball>)
    requires b.Valid() && n > 0
    modifies b`rptr
    ensures b.Valid()
    ensures ok ==> |read'| == |read| + 1
    ensures ok ==> After(read, TakeBalls(old(b.Unread()), n)) == After(read', TakeBalls(b.Unread(), n - 1))
    ensures !ok ==> TakeBalls(old(b.Unread()), n) == Short
  {
    BallStep(read, b.Unread(), n);
    var ball := BallDeserialize(b);
    if ball == None { return false, read; }
    return true, read + [ball.value];
  }

  method PopBalls(b: Buffer, n: nat) returns (ok: bool, balls: seq<Ball>)
    requires b.Valid()
    modifies b`rptr
    ensures b.Valid()
    ensures match TakeBalls(old(b.Unread()), n)
            case Short => !ok
            case Got(v, rest) => ok && |balls| == n && balls == v && b.Unread() == rest
  {
    balls := [];
    ghost var all := TakeBalls(b.Unread(), n);
    AfterNothing(all);
    for i := 0 to n
      invariant b.Valid() && |balls| == i
      invariant all == After(balls, TakeBalls(b.Unread(), n - i))
    {
      ok, balls := PopOneMore(b, balls, n - i);
      if !ok { return; }
    }
    ok := true;
    assert balls + [] == balls;
  }

  /** `stale` is whatever the caller's packet held where the death count goes. */
  method StateDeserialize(b: Buffer, stale: int) returns (r: Option<State>)
    requires b.Valid()
    modifies b`rptr
    ensures b.Valid()
    ensures match TakeState(old(b.Unread()), stale)
            case Short => r == None
            case Got(v, rest) => r == Some(v) && b.Unread() == rest
  {
    var ok, paused := b.PopChar();
    if !ok { return None; }
    var frame;
    ok, frame := b.PopInt32();
    if !ok { return None; }
    var scores;
    ok, scores := PopScores(b);
    if !ok { return None; }
    var balls;
    ok, balls := PopBalls(b, N_BALLS);
    if !ok { return None; }
    var lie;
    ok, lie := b.PopInt32();
    if !ok { return None; }
    return Some(State(paused, frame, stale, scores, balls, lie));
  }

  method EventDeserialize(b: Buffer) returns (r: Option<Event>)
    requires b.Valid()
    modifies b`rptr
    ensures b.Valid()
    ensures match TakeEvent(old(b.Unread()))
            case Short => r == None
            case Got(v, rest) => r == Some(v) && b.Unread() == rest
  {
    var ok, frame := b.PopInt32();
    if !ok { return None; }
    var summonFrame;
    ok, summonFrame := b.PopInt32();
    if !ok { return None; }
    var player;
    ok, player := b.PopInt32();
    if !ok { return None; }
    var button;
    ok, button := b.PopChar();
    if !ok { return None; }
    var pressed;
    ok, pressed := b.PopChar();
    if !ok { return None; }
    return Some(Event(frame, summonFrame, player, button, pressed));
  }

  /** The switch over the packet type. Result `None` is the error, `Some(None)` an unknown type. */
  method PayloadDeserialize(b: Buffer, ptype: schar, stale: int) returns (r: Option<Option<Payload>>)
    requires b.Valid()
    modifies b`rptr
    ensures b.Valid()
    ensures match TakePayload(old(b.Unread()), ptype, stale)
            case Short => r == None
            case Got(v, rest) => r == Some(v) && b.Unread() == rest
  {
    if ptype == 97 {
      var ok, x := b.PopInt32();
      if !ok { return None; }
      var c;
      ok, c := b.PopChar();
      if !ok { return None; }
      return Some(Some(TestPacket1(x, c)));
    } else if ptype == 50 {
      var ok, x := b.PopInt32();
      if !ok { return None; }
      var y;
      ok, y := b.PopInt16();
      if !ok { return None; }
      return Some(Some(TestPacket2(x, y)));
    } else if ptype == 104 {
      var ok, id := b.PopInt32();
      return if ok then Some(Some(Handshake(id))) else None;
    } else if ptype == 116 {
      var ok, text := b.PopString(TEXT_SIZE);
      return if ok then Some(Some(PlainText(text))) else None;
    } else if ptype == 100 {
      return Some(Some(Disconnected));
    } else if ptype == 99 {
      return Some(Some(Connected));
    } else if ptype == 98 {
      var ball := BallDeserialize(b);
      return if ball == None then None else Some(Some(BallPayload(ball.value)));
    } else if ptype == 115 {
      var st := StateDeserialize(b, stale);
      return if st == None then None else Some(Some(StatePayload(st.value)));
    } else if ptype == 101 {
      var e := EventDeserialize(b);
      return if e == None then None else Some(Some(EventPayload(e.value)));
    } else {
      return Some(None);
    }
  }

  method PacketDeserialize(b: Buffer, parseSender: bool, stale: int) returns (r: Option<Packet>)
    requires b.Valid()
    modifies b`rptr
    ensures b.Valid()
    ensures match Decode(old(b.Unread()), parseSender, stale)
            case Short => r == None
            case Got(v, rest) => r == Some(v) && b.Unread() == rest
  {
    var ok, size := b.PopInt16();
    if !ok { return None; }
    var sender: Option<int> := None;
    if parseSender {
      var id;
      ok, id := b.PopInt32();
      if !ok { return None; }
      sender := Some(id);
    }
    var ptype;
    ok, ptype := b.PopChar();
    if !ok { return None; }
    var payload := PayloadDeserialize(b, ptype, stale);
    if payload == None { return None; }
    return Some(Packet(size, sender, ptype, payload.value));
  }
}
