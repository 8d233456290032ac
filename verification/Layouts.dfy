/**
 Where each field of a packet is on the wire, byte by byte and in network order:
 what a peer that knows only the format finds in a serialised packet.
 */
module Layouts {
  import opened Balls
  import opened Buffers
  import opened Packets
  import opened Sequences

  /** Size and type are in front of every packet. */
  predicate Headed(s: seq<byte>, code: char) {
    |s| >= 3 && Stands16(s[..2], |s|) && s[2] as int == code as int
  }

  function TypeCode(p: Payload): char {
    match p
    case TestPacket1(_, _) => 'a'
    case TestPacket2(_, _) => '2'
    case Handshake(_) => 'h'
    case PlainText(_) => 't'
    case Disconnected => 'd'
    case Connected => 'c'
    case BallPayload(_) => 'b'
    case StatePayload(_) => 's'
    case EventPayload(_) => 'e'
  }

  lemma EveryPacketHeaded(p: Payload)
    requires Sendable(p)
    ensures Headed(Encode(p), TypeCode(p)) && Encode(p)[3..] == Body(p)
  {
    Int16Stands(3 + |Body(p)|);
    assert Encode(p)[..2] == Int16Bytes(3 + |Body(p)|);
  }

  lemma PlainLayouts(p: Payload)
    requires Sendable(p)
    ensures var s := Encode(p);
            match p
            case TestPacket1(x, c) => |s| == 8 && Stands32(s[3..7], x) && Stands8(s[7], c)
            case TestPacket2(x, y) => |s| == 9 && Stands32(s[3..7], x) && Stands16(s[7..], y)
            case Handshake(id) => |s| == 7 && Stands32(s[3..], id)
            case PlainText(text) => |s| == 5 + |text| && Stands16(s[3..5], |text|)
                                    && forall i :: 0 <= i < |text| ==> Stands8(s[5 + i], text[i])
            case Disconnected => |s| == 3
            case Connected => |s| == 3
            case _ => true
  {
    var s, body := Encode(p), Body(p);
    EveryPacketHeaded(p);
    hide Encode, Int32Bytes, Int16Bytes;
    match p
    case TestPacket1(x, c) =>
      Int32Stands(x);
      assert s[3..7] == body[..4] == Int32Bytes(x) && s[7] == body[4];
    case TestPacket2(x, y) =>
      Int32Stands(x);
      Int16Stands(y);
      assert s[3..7] == body[..4] == Int32Bytes(x) && s[7..] == body[4..] == Int16Bytes(y);
    case Handshake(id) =>
      Int32Stands(id);
    case PlainText(text) =>
      Int16Stands(|text|);
      assert s[3..5] == body[..2] == Int16Bytes(|text|);
      forall i | 0 <= i < |text|
        ensures Stands8(s[5 + i], text[i])
      {
        assert s[5 + i] == s[3..][2 + i] == body[2 + i];
      }
    case _ =>
  }

  /** `Connected`, `Handshake(1)`: the bytes themselves. */
  lemma SomePackets()
    ensures Encode(Payload.Connected) == [0, 3, 'c' as int]
    ensures Encode(Payload.Handshake(1)) == [0, 7, 'h' as int, 0, 0, 0, 1]
  {
  }

  lemma EventLayout(e: Event)
    requires Sendable(EventPayload(e))
    ensures var s := Encode(EventPayload(e));
            && |s| == 17 && Stands32(s[3..7], e.frame) && Stands32(s[7..11], e.summonFrame) && Stands32(s[11..15], e.player)
            && Stands8(s[15], e.button) && Stands8(s[16], e.pressed)
  {
    var s, body := Encode(EventPayload(e)), EventBytes(e);
    EveryPacketHeaded(EventPayload(e));
    hide Encode, Int32Bytes;
    Int32Stands(e.frame);
    Int32Stands(e.summonFrame);
    Int32Stands(e.player);
    assert s[3..7] == body[..4] == Int32Bytes(e.frame);
    assert s[7..11] == body[4..8] == Int32Bytes(e.summonFrame);
    assert s[11..15] == body[8..12] == Int32Bytes(e.player);
    assert s[15] == body[12] && s[16] == body[13];
  }

  /** A ball in the bytes `s`. */
  predicate IsBall(s: seq<byte>, b: Ball) {
    && |s| == 24 && Stands32(s[..4], b.px) && Stands32(s[4..8], b.py) && Stands32(s[8..12], b.vx) && Stands32(s[12..16], b.vy)
    && Stands32(s[16..20], b.player) && forall i :: 0 <= i < N_BUTTONS ==> Stands8(s[20 + i], b.buttons[i])
  }

  lemma BallLayout(b: Ball)
    requires SendableBall(b)
    ensures IsBall(BallBytes(b), b)
  {
    hide Int32Bytes;
    var s := BallBytes(b);
    Int32Stands(b.px);
    Int32Stands(b.py);
    Int32Stands(b.vx);
    Int32Stands(b.vy);
    Int32Stands(b.player);
    assert s[..4] == Int32Bytes(b.px) && s[4..8] == Int32Bytes(b.py) && s[8..12] == Int32Bytes(b.vx);
    assert s[12..16] == Int32Bytes(b.vy) && s[16..20] == Int32Bytes(b.player) && s[20..] == TextBytes(b.buttons);
    forall i | 0 <= i < N_BUTTONS
      ensures Stands8(s[20 + i], b.buttons[i])
    {
      assert s[20 + i] == s[20..][i];
    }
  }

  lemma {:induction false} IntsLayout(xs: seq<int>, i: nat)
    requires i < |xs| && forall j :: 0 <= j < |xs| ==> IsInt32(xs[j])
    ensures Stands32(IntsBytes(xs)[4 * i..4 * i + 4], xs[i])
  {
    hide Int32Bytes;
    var n := |xs| - 1;
    if i < n {
      IntsLayout(xs[..n], i);
      assert IntsBytes(xs)[4 * i..4 * i + 4] == IntsBytes(xs[..n])[4 * i..4 * i + 4];
    } else {
      Int32Stands(xs[n]);
      assert IntsBytes(xs)[4 * n..4 * n + 4] == Int32Bytes(xs[n]);
    }
  }

  lemma {:induction false} BallsLayout(bs: seq<Ball>, i: nat)
    requires i < |bs| && forall j :: 0 <= j < |bs| ==> SendableBall(bs[j])
    ensures IsBall(BallsBytes(bs)[24 * i..24 * i + 24], bs[i])
  {
    hide BallBytes, IsBall, SendableBall;
    var n := |bs| - 1;
    if i < n {
      BallsLayout(bs[..n], i);
      assert BallsBytes(bs)[24 * i..24 * i + 24] == BallsBytes(bs[..n])[24 * i..24 * i + 24];
    } else {
      BallLayout(bs[n]);
      assert BallsBytes(bs)[24 * n..24 * n + 24] == BallBytes(bs[n]);
    }
  }

  lemma BallPacketLayout(b: Ball)
    requires Sendable(BallPayload(b))
    ensures IsBall(Encode(BallPayload(b))[3..], b)
  {
    EveryPacketHeaded(BallPayload(b));
    BallLayout(b);
  }

  lemma Parts<T>(a: seq<T>, b: seq<T>, c: seq<T>, d: seq<T>, e: seq<T>)
    ensures var s := a + b + c + d + e;
            var i, j, k := |a| + |b|, |a| + |b| + |c|, |a| + |b| + |c| + |d|;
            s[..|a|] == a && s[|a|..i] == b && s[i..j] == c && s[j..k] == d && s[k..] == e
  {
  }

  lemma StateParts(st: State)
    requires Sendable(StatePayload(st))
    ensures var s := Encode(StatePayload(st));
            && |s| == 332 && Stands8(s[3], st.paused) && s[4..8] == Int32Bytes(st.frame)
            && s[8..40] == IntsBytes(st.scores) && s[40..328] == BallsBytes(st.balls) && s[328..] == Int32Bytes(st.lie)
  {
    var s, body := Encode(StatePayload(st)), StateBytes(st);
    EveryPacketHeaded(StatePayload(st));
    hide Encode, Int32Bytes, IntsBytes, BallsBytes, SendableBall;
    Parts([CharByte(st.paused)], Int32Bytes(st.frame), IntsBytes(st.scores), BallsBytes(st.balls), Int32Bytes(st.lie));
    assert s[3] == body[0];
    SliceOfSlice(s, 3, 332, 1, 5);
    SliceOfSlice(s, 3, 332, 5, 37);
    SliceOfSlice(s, 3, 332, 37, 325);
    SliceOfSlice(s, 3, 332, 325, 329);
  }

  /** A state: pause, frame, scores, balls and `_lie`; the death count is nowhere. */
  lemma StateLayout(st: State)
    requires Sendable(StatePayload(st))
    ensures var s := Encode(StatePayload(st));
            && |s| == 332 && Stands8(s[3], st.paused) && Stands32(s[4..8], st.frame)
            && (forall i :: 0 <= i < MAX_PLAYERS ==> Stands32(s[8 + 4 * i..12 + 4 * i], st.scores[i]))
            && (forall i :: 0 <= i < N_BALLS ==> IsBall(s[40 + 24 * i..64 + 24 * i], st.balls[i]))
            && Stands32(s[328..], st.lie)
  {
    hide Encode, StateBytes, IntsBytes, BallsBytes, IsBall, Stands32, Stands8, SendableBall;
    StateParts(st);
    Int32Stands(st.frame);
    Int32Stands(st.lie);
    var s := Encode(StatePayload(st));
    forall i | 0 <= i < MAX_PLAYERS
      ensures Stands32(s[8 + 4 * i..12 + 4 * i], st.scores[i])
    {
      IntsLayout(st.scores, i);
      SliceOfSlice(s, 8, 40, 4 * i, 4 * i + 4);
    }
    forall i | 0 <= i < N_BALLS
      ensures IsBall(s[40 + 24 * i..64 + 24 * i], st.balls[i])
    {
      BallsLayout(st.balls, i);
      SliceOfSlice(s, 40, 328, 24 * i, 24 * i + 24);
    }
  }

  /** What the server makes of a packet: the same, with the sender's id between size and type. */
  lemma TaggedLayout(sender: int, packet: seq<byte>)
    requires IsInt32(sender) && 2 <= |packet| < 0x8000 - 4
    ensures var s := Tagged(sender, packet);
            Stands16(s[..2], |packet| + 4) && Stands32(s[2..6], sender) && s[6..] == packet[2..]
  {
    hide Int32Bytes, Int16Bytes;
    Int16Stands(|packet| + 4);
    Int32Stands(sender);
    var s := Tagged(sender, packet);
    assert s[..2] == Int16Bytes(|packet| + 4) && s[2..6] == Int32Bytes(sender);
  }
}
