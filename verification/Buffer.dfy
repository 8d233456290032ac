/**
 Big-endian encodings and the byte buffer of src/buffer.c.

 `Take...` functions read from the front of a byte sequence and return what is
 left; the pop methods of `Buffer` are proved to do the same.
 */
module Buffers {
  import opened Balls

  type byte = x: int | 0 <= x < 256

  /** Result of reading from the front of a byte sequence. */
  datatype Parsed<+T> = Short | Got(value: T, rest: seq<byte>) {
    predicate IsFailure() {
      Short?
    }

    function PropagateFailure<U>(): Parsed<U>
      requires Short?
    {
      Short
    }

    function Extract(): (T, seq<byte>)
      requires Got?
    {
      (value, rest)
    }
  }

  // ---------------------------------------------------------------- what bytes mean

  /** The number that bytes stand for in network order: the most significant byte comes first. */
  function Value(s: seq<byte>): nat {
    if s == [] then 0 else 256 * Value(s[..|s| - 1]) + s[|s| - 1]
  }

  /** Two bytes, or four, that stand for `x` in two's complement. */
  predicate Stands16(s: seq<byte>, x: int) {
    |s| == 2 && IsInt16(x) && Value(s) == if x < 0 then x + 0x1_0000 else x
  }

  predicate Stands32(s: seq<byte>, x: int) {
    |s| == 4 && IsInt32(x) && Value(s) == if x < 0 then x + 0x1_0000_0000 else x
  }

  /** A byte that stands for the character `c`. */
  predicate Stands8(b: byte, c: schar) {
    b == c || b == c + 0x100
  }

  lemma ValueOfTwo(s: seq<byte>)
    requires |s| == 2
    ensures Value(s) == (s[0] as int) * 0x100 + s[1]
  {
    assert s[..1][..0] == [] && Value(s[..1][..0]) == 0;
  }

  lemma ValueOfFour(s: seq<byte>)
    requires |s| == 4
    ensures Value(s) == (s[0] as int) * 0x100_0000 + (s[1] as int) * 0x1_0000 + (s[2] as int) * 0x100 + s[3]
  {
    assert s[..3][..2] == s[..2];
    ValueOfTwo(s[..2]);
  }

  lemma Int16Stands(x: int)
    requires IsInt16(x)
    ensures Stands16(Int16Bytes(x), x)
  {
    ValueOfTwo(Int16Bytes(x));
  }

  lemma FourDigits(u: nat)
    ensures u == u / 0x100_0000 * 0x100_0000 + u / 0x1_0000 % 0x100 * 0x1_0000 + u / 0x100 % 0x100 * 0x100 + u % 0x100
  {
    var a, b := u / 0x100, u / 0x1_0000;
    assert b == a / 0x100 && u / 0x100_0000 == b / 0x100;
    assert u == 0x100 * a + u % 0x100 && a == 0x100 * b + a % 0x100 && b == 0x100 * (u / 0x100_0000) + b % 0x100;
  }

  lemma Int32Stands(x: int)
    requires IsInt32(x)
    ensures Stands32(Int32Bytes(x), x)
  {
    ValueOfFour(Int32Bytes(x));
    FourDigits(if x < 0 then x + 0x1_0000_0000 else x);
  }

  /** No other bytes stand for the same number. */
  lemma {:induction false} ValueDetermines(s: seq<byte>, t: seq<byte>)
    requires |s| == |t| && Value(s) == Value(t)
    ensures s == t
  {
    if s != [] {
      var n := |s| - 1;
      assert s[n] == Value(s) % 256 == t[n];
      ValueDetermines(s[..n], t[..n]);
      assert s == s[..n] + [s[n]] && t == t[..n] + [t[n]];
    }
  }

  lemma Int16OfStands(s: seq<byte>)
    requires |s| == 2
    ensures Stands16(s, Int16Of(s[0], s[1]))
  {
    ValueOfTwo(s);
  }

  lemma Int32OfStands(s: seq<byte>)
    requires |s| == 4
    ensures Stands32(s, Int32Of(s[0], s[1], s[2], s[3]))
  {
    ValueOfFour(s);
  }

  // ---------------------------------------------------------------- encodings

  function CharByte(c: schar): byte {
    if c < 0 then c + 256 else c
  }

  function ByteChar(b: byte): schar {
    if b < 128 then b else b - 256
  }

  function Int16Of(hi: int, lo: int): int {
    var u := hi * 0x100 + lo;
    if u >= 0x8000 then u - 0x1_0000 else u
  }

  function Int32Of(b0: int, b1: int, b2: int, b3: int): int {
    var u := b0 * 0x100_0000 + b1 * 0x1_0000 + b2 * 0x100 + b3;
    if u >= 0x8000_0000 then u - 0x1_0000_0000 else u
  }

  function Int16Bytes(x: int): (s: seq<byte>)
    requires IsInt16(x)
    ensures |s| == 2
  {
    var u := if x < 0 then x + 0x1_0000 else x;
    [u / 0x100, u % 0x100]
  }

  function Int32Bytes(x: int): (s: seq<byte>)
    requires IsInt32(x)
    ensures |s| == 4
  {
    var u := if x < 0 then x + 0x1_0000_0000 else x;
    [u / 0x100_0000, u / 0x1_0000 % 0x100, u / 0x100 % 0x100, u % 0x100]
  }

  function TextBytes(text: seq<schar>): (s: seq<byte>)
    ensures |s| == |text|
  {
    seq(|text|, i requires 0 <= i < |text| => CharByte(text[i]))
  }

  function ByteText(bytes: seq<byte>): (s: seq<schar>)
    ensures |s| == |bytes|
  {
    seq(|bytes|, i requires 0 <= i < |bytes| => ByteChar(bytes[i]))
  }

  function TakeBytes(s: seq<byte>, n: int): Parsed<seq<byte>> {
    if 0 <= n <= |s| then Got(s[..n], s[n..]) else Short
  }

  function TakeChar(s: seq<byte>): Parsed<schar> {
    if |s| >= 1 then Got(ByteChar(s[0]), s[1..]) else Short
  }

  function TakeInt16(s: seq<byte>): (r: Parsed<int>)
    ensures r.Got? ==> IsInt16(r.value)
  {
    if |s| >= 2 then Got(Int16Of(s[0], s[1]), s[2..]) else Short
  }

  function TakeInt32(s: seq<byte>): (r: Parsed<int>)
    ensures r.Got? ==> IsInt32(r.value)
  {
    if |s| >= 4 then Got(Int32Of(s[0], s[1], s[2], s[3]), s[4..]) else Short
  }

  function TakeChars(s: seq<byte>, n: nat): Parsed<seq<schar>> {
    if n == 0 then Got([], s)
    else
      var (c, s1) :- TakeChar(s);
      var (cs, s2) :- TakeChars(s1, n - 1);
      Got([c] + cs, s2)
  }

  function TakeInts(s: seq<byte>, n: nat): Parsed<seq<int>> {
    if n == 0 then Got([], s)
    else
      var (x, s1) :- TakeInt32(s);
      var (xs, s2) :- TakeInts(s1, n - 1);
      Got([x] + xs, s2)
  }

  predicate NulFree(text: seq<schar>) {
    forall i :: 0 <= i < |text| ==> text[i] != 0
  }

  /** What C code sees of a character array: everything before the first NUL. */
  function CString(text: seq<schar>): seq<schar> {
    if text == [] || text[0] == 0 then [] else [text[0]] + CString(text[1..])
  }

  /** It is a beginning without a NUL, and it ends at the first one. */
  lemma {:induction false} CStringLaw(text: seq<schar>)
    ensures CString(text) <= text && NulFree(CString(text))
    ensures |CString(text)| < |text| ==> text[|CString(text)|] == 0
  {
    if text != [] && text[0] != 0 {
      CStringLaw(text[1..]);
    }
  }

  /**
   What a reader with an array of `size` characters takes from `s`: the length and
   `n` characters, as many as the length says and the array holds with its NUL.
   */
  ghost predicate StringAt(s: seq<byte>, size: nat, text: seq<schar>, n: int) {
    && 0 <= n && 2 + n <= |s| && |text| <= n
    && (exists length :: Stands16(s[..2], length) && n == if length < size then length else size - 1)
    && (forall i :: 0 <= i < |text| ==> text[i] != 0 && Stands8(s[2 + i], text[i]))
    && (|text| < n ==> s[2 + |text|] == 0)
  }

  /** A string with its length before it, of which at most `size - 1` characters are taken. */
  function TakeString(s: seq<byte>, size: nat): Parsed<seq<schar>>
    requires size >= 1
  {
    var (length, s1) :- TakeInt16(s);
    var (bytes, s2) :- TakeBytes(s1, if size - 1 < length then size - 1 else length);
    Got(CString(ByteText(bytes)), s2)
  }

  lemma Int16RoundTrip(x: int, rest: seq<byte>)
    requires IsInt16(x)
    ensures TakeInt16(Int16Bytes(x) + rest) == Got(x, rest)
  {
  }

  lemma Int32RoundTrip(x: int, rest: seq<byte>)
    requires IsInt32(x)
    ensures TakeInt32(Int32Bytes(x) + rest) == Got(x, rest)
  {
    var s := Int32Bytes(x) + rest;
    assert s[4..] == rest;
    FourDigits(if x < 0 then x + 0x1_0000_0000 else x);
  }

  lemma {:induction false} CharsRoundTrip(cs: seq<schar>, rest: seq<byte>)
    ensures TakeChars(TextBytes(cs) + rest, |cs|) == Got(cs, rest)
  {
    var s := TextBytes(cs) + rest;
    if cs == [] {
      assert s == rest;
    } else {
      assert s[1..] == TextBytes(cs[1..]) + rest;
      CharsRoundTrip(cs[1..], rest);
      assert cs == [cs[0]] + cs[1..];
    }
  }

  lemma {:induction false} CStringWhole(text: seq<schar>)
    requires NulFree(text)
    ensures CString(text) == text
  {
    if text != [] {
      CStringWhole(text[1..]);
      assert text == [text[0]] + text[1..];
    }
  }

  lemma StringRoundTrip(text: seq<schar>, rest: seq<byte>, size: nat)
    requires |text| < size && |text| < 0x8000 && NulFree(text)
    ensures TakeString(Int16Bytes(|text|) + TextBytes(text) + rest, size) == Got(text, rest)
  {
    var s := Int16Bytes(|text|) + TextBytes(text) + rest;
    assert s == Int16Bytes(|text|) + (TextBytes(text) + rest);
    Int16RoundTrip(|text|, TextBytes(text) + rest);
    var s1 := TextBytes(text) + rest;
    assert s1[..|text|] == TextBytes(text) && s1[|text|..] == rest;
    assert ByteText(TextBytes(text)) == text;
    CStringWhole(text);
  }

  // Reading succeeds with the same value when more bytes follow.

  lemma {:induction false} TakeCharsExtends(s: seq<byte>, n: nat, t: seq<byte>)
    requires TakeChars(s, n).Got?
    ensures TakeChars(s + t, n) == Got(TakeChars(s, n).value, TakeChars(s, n).rest + t)
  {
    if n > 0 {
      assert (s + t)[1..] == s[1..] + t;
      TakeCharsExtends(s[1..], n - 1, t);
    }
  }

  lemma TakeInt32Extends(s: seq<byte>, t: seq<byte>)
    requires TakeInt32(s).Got?
    ensures TakeInt32(s + t) == Got(TakeInt32(s).value, TakeInt32(s).rest + t)
  {
  }

  lemma {:induction false} TakeIntsExtends(s: seq<byte>, n: nat, t: seq<byte>)
    requires TakeInts(s, n).Got?
    ensures TakeInts(s + t, n) == Got(TakeInts(s, n).value, TakeInts(s, n).rest + t)
  {
    if n > 0 {
      TakeInt32Extends(s, t);
      TakeIntsExtends(s[4..], n - 1, t);
    }
  }

  lemma TakeStringExtends(s: seq<byte>, size: nat, t: seq<byte>)
    requires size >= 1 && TakeString(s, size).Got?
    ensures TakeString(s + t, size) == Got(TakeString(s, size).value, TakeString(s, size).rest + t)
  {
    var length := TakeInt16(s).value;
    var n := if size - 1 < length then size - 1 else length;
    assert (s + t)[2..] == s[2..] + t;
    assert (s[2..] + t)[..n] == s[2..][..n];
    assert (s[2..] + t)[n..] == s[2..][n..] + t;
  }

  // ---------------------------------------------------------------- the buffer

  class Buffer {
    var rptr: nat
    var wptr: nat
    var data: array<byte>

    ghost predicate Valid()
      reads this
    {
      rptr <= data.Length && wptr <= data.Length
    }

    /** The bytes pushed so far. */
    ghost function Written(): seq<byte>
      reads this, data
      requires Valid()
    {
      data[..wptr]
    }

    /** The bytes a pop may still read: to the end of the allocation. */
    ghost function Unread(): seq<byte>
      reads this, data
      requires Valid()
    {
      data[rptr..]
    }

    constructor Create(size: nat)
      ensures Valid() && fresh(data) && data.Length == size && wptr == 0 && rptr == 0
    {
      data := new byte[size];
      wptr, rptr := 0, 0;
    }

    constructor FromData(bytes: seq<byte>)
      ensures Valid() && fresh(data) && Written() == bytes && Unread() == bytes
    {
      data := new byte[|bytes|](i requires 0 <= i < |bytes| => bytes[i]);
      wptr, rptr := |bytes|, 0;
    }

    /**
     __buffer_push_any. The code's growing path moves the buffer without telling
     the caller, so a push is modelled only where the bytes fit.
     */
    method PushAny(bytes: seq<byte>)
      requires Valid() && |bytes| <= data.Length - wptr
      modifies this`wptr, data
      ensures Valid() && Written() == old(Written()) + bytes
      ensures data[wptr..] == old(data[wptr + |bytes|..])
    {
      var at := wptr;
      forall i | 0 <= i < |bytes| {
        data[at + i] := bytes[i];
      }
      wptr := wptr + |bytes|;
    }

    method PushChar(c: schar)
      requires Valid() && 1 <= data.Length - wptr
      modifies this`wptr, data
      ensures Valid() && Written() == old(Written()) + [CharByte(c)] && Stands8(Written()[old(wptr)], c)
    {
      data[wptr] := CharByte(c);
      wptr := wptr + 1;
    }

    method PushInt16(x: int)
      requires IsInt16(x)
      requires Valid() && 2 <= data.Length - wptr
      modifies this`wptr, data
      ensures Valid() && Written() == old(Written()) + Int16Bytes(x)
      ensures wptr == old(wptr) + 2 && Stands16(Written()[old(wptr)..], x)
    {
      Int16Stands(x);
      assert (Written() + Int16Bytes(x))[wptr..] == Int16Bytes(x);
      PushAny(Int16Bytes(x));
    }

    method PushInt32(x: int)
      requires IsInt32(x)
      requires Valid() && 4 <= data.Length - wptr
      modifies this`wptr, data
      ensures Valid() && Written() == old(Written()) + Int32Bytes(x)
      ensures wptr == old(wptr) + 4 && Stands32(Written()[old(wptr)..], x)
    {
      Int32Stands(x);
      assert (Written() + Int32Bytes(x))[wptr..] == Int32Bytes(x);
      PushAny(Int32Bytes(x));
    }

    method PushString(text: seq<schar>)
      requires |text| < 0x8000
      requires Valid() && 2 + |text| <= data.Length - wptr
      modifies this`wptr, data
      ensures Valid() && Written() == old(Written()) + Int16Bytes(|text|) + TextBytes(text)
      ensures wptr == old(wptr) + 2 + |text| && Stands16(Written()[old(wptr)..old(wptr) + 2], |text|)
      ensures forall i :: 0 <= i < |text| ==> Stands8(Written()[old(wptr) + 2 + i], text[i])
    {
      Int16Stands(|text|);
      PushInt16(|text|);
      PushAny(TextBytes(text));
      assert Written()[old(wptr)..old(wptr) + 2] == Int16Bytes(|text|);
    }

    /** __buffer_pop_any; a negative size is a huge unsigned one and never available. */
    method PopAny(n: int) returns (ok: bool, bytes: seq<byte>)
      requires Valid()
      modifies this`rptr
      ensures Valid()
      ensures match TakeBytes(old(Unread()), n)
              case Short => !ok && rptr == old(rptr)
              case Got(v, rest) => ok && bytes == v && Unread() == rest
    {
      if n < 0 || n > data.Length - rptr {
        return false, [];
      }
      ok, bytes := true, data[rptr..rptr + n];
      rptr := rptr + n;
    }

    method PopChar() returns (ok: bool, c: schar)
      requires Valid()
      modifies this`rptr
      ensures Valid()
      ensures match TakeChar(old(Unread()))
              case Short => !ok && rptr == old(rptr)
              case Got(v, rest) => ok && c == v && Unread() == rest
      ensures ok <==> |old(Unread())| >= 1
      ensures ok ==> rptr == old(rptr) + 1 && Stands8(old(Unread())[0], c)
    {
      if 1 > data.Length - rptr {
        return false, 0;
      }
      ok, c := true, ByteChar(data[rptr]);
      rptr := rptr + 1;
    }

    method PopInt16() returns (ok: bool, x: int)
      requires Valid()
      modifies this`rptr
      ensures Valid()
      ensures match TakeInt16(old(Unread()))
              case Short => !ok && rptr == old(rptr)
              case Got(v, rest) => ok && x == v && Unread() == rest
      ensures ok <==> |old(Unread())| >= 2
      ensures ok ==> rptr == old(rptr) + 2 && Stands16(old(Unread())[..2], x)
    {
      var got, b := PopAny(2);
      if !got { return false, 0; }
      Int16OfStands(b);
      return true, Int16Of(b[0], b[1]);
    }

    method PopInt32() returns (ok: bool, x: int)
      requires Valid()
      modifies this`rptr
      ensures Valid()
      ensures match TakeInt32(old(Unread()))
              case Short => !ok && rptr == old(rptr)
              case Got(v, rest) => ok && x == v && Unread() == rest
      ensures ok <==> |old(Unread())| >= 4
      ensures ok ==> rptr == old(rptr) + 4 && Stands32(old(Unread())[..4], x)
    {
      var got, b := PopAny(4);
      if !got { return false, 0; }
      Int32OfStands(b);
      return true, Int32Of(b[0], b[1], b[2], b[3]);
    }

    /** buffer_pop_string into an array of `size` characters. */
    method PopString(size: nat) returns (ok: bool, text: seq<schar>)
      requires Valid() && size >= 1
      modifies this`rptr
      ensures Valid()
      ensures match TakeString(old(Unread()), size)
              case Short => !ok
              case Got(v, rest) => ok && text == v && Unread() == rest
      ensures ok ==> StringAt(old(Unread()), size, text, rptr - old(rptr) - 2)
      ensures !ok ==>
                || |old(Unread())| < 2
                || exists length ::
                     && Stands16(old(Unread())[..2], length)
                     && (length < 0 || |old(Unread())| < 2 + (if length < size then length else size - 1))
    {
      var got, length := PopInt16();
      if !got { return false, []; }
      var n := if size - 1 < length then size - 1 else length;
      var bytes;
      got, bytes := PopAny(n);
      if !got { return false, []; }
      CStringLaw(ByteText(bytes));
      assert Stands16(old(Unread())[..2], length) && bytes == old(Unread())[2..][..n];
      return true, CString(ByteText(bytes));
    }
  }
}
