/**
 Sectioning a byte stream into length-delimited packets (src/recvpool.c, and the
 same loop in client_task of src/server.c), and the queue the packets go to.
 */
module Framing {
  import opened Options
  import opened Balls
  import opened Buffers
  import opened Packets
  import opened PacketIO
  import opened Sequences

  // ---------------------------------------------------------------- sections of a stream

  function SizeField(acc: seq<byte>): int
    requires |acc| >= 2
  {
    Int16Of(acc[0], acc[1])
  }

  /** The accumulator starts with a whole packet. */
  predicate Ready(acc: seq<byte>) {
    |acc| > 2 && 0 < SizeField(acc) <= |acc|
  }

  function Sections(acc: seq<byte>): seq<seq<byte>> {
    if Ready(acc) then [acc[..SizeField(acc)]] + Sections(acc[SizeField(acc)..]) else []
  }

  function Residue(acc: seq<byte>): (r: seq<byte>)
    ensures |r| <= |acc| && !Ready(r)
  {
    if Ready(acc) then Residue(acc[SizeField(acc)..]) else acc
  }

  function Flatten(ps: seq<seq<byte>>): seq<byte> {
    if ps == [] then [] else ps[0] + Flatten(ps[1..])
  }

  /** A packet as every serialiser makes it: its size field is its length. */
  predicate WellFormed(p: seq<byte>) {
    3 <= |p| < 0x8000 && SizeField(p) == |p|
  }

  predicate AllWellFormed(ps: seq<seq<byte>>) {
    forall i :: 0 <= i < |ps| ==> WellFormed(ps[i])
  }

  lemma {:induction false} FlattenConcat(ps: seq<seq<byte>>, qs: seq<seq<byte>>)
    ensures Flatten(ps + qs) == Flatten(ps) + Flatten(qs)
  {
    if ps == [] {
      assert ps + qs == qs;
    } else {
      assert (ps + qs)[1..] == ps[1..] + qs;
      FlattenConcat(ps[1..], qs);
    }
  }

  lemma NextSection(acc: seq<byte>)
    ensures !Ready(acc) ==> Sections(acc) == [] && Residue(acc) == acc
    ensures Ready(acc) ==>
              && Sections(acc) == [acc[..SizeField(acc)]] + Sections(acc[SizeField(acc)..])
              && Residue(acc) == Residue(acc[SizeField(acc)..])
  {
  }

  /** No byte is lost, invented or moved. */
  lemma {:induction false} SectionsConserve(acc: seq<byte>)
    ensures Flatten(Sections(acc)) + Residue(acc) == acc
  {
    hide Sections, Residue, Int16Of;
    NextSection(acc);
    if Ready(acc) {
      var n := SizeField(acc);
      SectionsConserve(acc[n..]);
      var ps := Sections(acc[n..]);
      assert ([acc[..n]] + ps)[1..] == ps;
    }
  }

  /** Sectioning what has arrived and later the rest gives what sectioning all at once gives. */
  lemma {:induction false} SectionsOfMore(a: seq<byte>, b: seq<byte>)
    ensures Sections(a + b) == Sections(a) + Sections(Residue(a) + b)
    ensures Residue(a + b) == Residue(Residue(a) + b)
  {
    if Ready(a) {
      var n := SizeField(a);
      assert SizeField(a + b) == n;
      assert (a + b)[..n] == a[..n] && (a + b)[n..] == a[n..] + b;
      SectionsOfMore(a[n..], b);
    }
  }

  /** The packet list depends on the bytes, not on how the network cut them into chunks. */
  ghost function SectionChunks(chunks: seq<seq<byte>>): (seq<seq<byte>>, seq<byte>) {
    if chunks == [] then ([], [])
    else
      var (ps, rest) := SectionChunks(chunks[..|chunks| - 1]);
      var acc := rest + chunks[|chunks| - 1];
      (ps + Sections(acc), Residue(acc))
  }

  lemma {:induction false} ChunksDoNotMatter(chunks: seq<seq<byte>>)
    ensures SectionChunks(chunks) == (Sections(Flatten(chunks)), Residue(Flatten(chunks)))
  {
    if chunks != [] {
      var n := |chunks| - 1;
      ChunksDoNotMatter(chunks[..n]);
      assert chunks == chunks[..n] + [chunks[n]];
      FlattenConcat(chunks[..n], [chunks[n]]);
      assert Flatten([chunks[n]]) == chunks[n] + Flatten([]) && chunks[n] + [] == chunks[n];
      SectionsOfMore(Flatten(chunks[..n]), chunks[n]);
    }
  }

  lemma OneSection(p: seq<byte>, rest: seq<byte>)
    requires WellFormed(p)
    ensures Sections(p + rest) == [p] + Sections(rest) && Residue(p + rest) == Residue(rest)
  {
  }

  /** Sectioning undoes concatenation, whatever incomplete bytes follow. */
  lemma {:induction false} SectionsOfFlatten(ps: seq<seq<byte>>, rest: seq<byte>)
    requires AllWellFormed(ps)
    ensures Sections(Flatten(ps) + rest) == ps + Sections(rest)
    ensures Residue(Flatten(ps) + rest) == Residue(rest)
  {
    hide Sections, Residue, WellFormed;
    if ps == [] {
      assert Flatten(ps) + rest == rest && ps + Sections(rest) == Sections(rest);
    } else {
      assert Flatten(ps) + rest == ps[0] + (Flatten(ps[1..]) + rest);
      OneSection(ps[0], Flatten(ps[1..]) + rest);
      SectionsOfFlatten(ps[1..], rest);
      assert ps == [ps[0]] + ps[1..];
    }
  }

  /** Of a beginning of the stream the sections are the first packets. */
  lemma SectionsOfPrefix(bytes: seq<byte>, ps: seq<seq<byte>>)
    requires AllWellFormed(ps) && bytes <= Flatten(ps)
    ensures Sections(bytes) <= ps
  {
    hide Sections, Residue, WellFormed;
    var rest := Flatten(ps)[|bytes|..];
    SectionsOfMore(bytes, rest);
    SectionsOfFlatten(ps, []);
    NextSection([]);
    assert bytes + rest == Flatten(ps) == Flatten(ps) + [] && ps + [] == ps;
  }

  lemma FlattenPrefix(ps: seq<seq<byte>>, qs: seq<seq<byte>>, rest: seq<byte>)
    requires AllWellFormed(ps) && AllWellFormed(qs) && Flatten(ps) + rest <= Flatten(qs)
    ensures ps <= qs
  {
    hide Sections, Residue, WellFormed;
    SectionsOfPrefix(Flatten(ps) + rest, qs);
    SectionsOfFlatten(ps, rest);
  }

  /** Any packets sent, in any chunks: the sections are the packets. */
  lemma PacketsSurvive(ps: seq<seq<byte>>, chunks: seq<seq<byte>>)
    requires AllWellFormed(ps) && Flatten(chunks) == Flatten(ps)
    ensures SectionChunks(chunks) == (ps, [])
  {
    ChunksDoNotMatter(chunks);
    SectionsOfFlatten(ps, []);
    assert Flatten(ps) + [] == Flatten(ps);
    assert ps + Sections([]) == ps;
  }

  lemma EncodeWellFormed(p: Payload)
    requires Sendable(p)
    ensures WellFormed(Encode(p))
  {
  }

  lemma TaggedWellFormed(sender: int, packet: seq<byte>)
    requires IsInt32(sender) && WellFormed(packet) && |packet| < 0x8000 - 4
    ensures WellFormed(Tagged(sender, packet))
  {
  }

  // ---------------------------------------------------------------- the packet queue

  class Node {
    const data: seq<byte>
    var next: Node?

    constructor (data: seq<byte>)
      ensures this.data == data && next == null
    {
      this.data := data;
      next := null;
    }
  }

  class PacketQueue {
    var head: Node?
    var tail: Node?
    ghost var spine: seq<Node>

    ghost predicate Valid()
      reads this, spine
    {
      && (head == null <==> spine == [])
      && (tail == null <==> spine == [])
      && (spine != [] ==> head == spine[0] && tail == spine[|spine| - 1] && tail.next == null)
      && (forall i :: 0 <= i < |spine| - 1 ==> spine[i].next == spine[i + 1])
      && (forall i, j :: 0 <= i < j < |spine| ==> spine[i] != spine[j])
    }

    ghost function Contents(): seq<seq<byte>>
      reads this
    {
      seq(|spine|, i requires 0 <= i < |spine| reads this => spine[i].data)
    }

    constructor ()
      ensures Valid() && Contents() == [] && spine == []
    {
      head, tail := null, null;
      spine := [];
    }

    /** pqueue_push */
    method Push(data: seq<byte>)
      requires Valid()
      modifies this, spine
      ensures Valid() && Contents() == old(Contents()) + [data]
      ensures |spine| == |old(spine)| + 1 && spine[..|spine| - 1] == old(spine) && fresh(spine[|spine| - 1])
    {
      var node := new Node(data);
      if head == null {
        head := node;
        tail := node;
      } else {
        tail.next := node;
        tail := node;
      }
      spine := spine + [node];
    }

    /** pqueue_pop */
    method Pop() returns (node: Node?)
      requires Valid()
      modifies this
      ensures Valid()
      ensures old(Contents()) == [] ==> node == null && spine == old(spine)
      ensures old(Contents()) != [] ==>
                && node != null && node.data == old(Contents())[0]
                && spine == old(spine)[1..] && Contents() == old(Contents())[1..]
    {
      node := head;
      if head != null {
        assert |spine| > 1 ==> spine[0].next == spine[1];
        head := head.next;
        spine := spine[1..];
        if head == null {
          tail := null;
        }
      }
    }
  }

  // ---------------------------------------------------------------- the receiving pool

  class RecvPool {
    const queue: PacketQueue
    var acc: seq<byte>
    /** Everything received, and how many packets have been retrieved. */
    ghost var received: seq<byte>
    ghost var retrieved: nat

    /** The queue holds the sections of all received bytes but for those retrieved, in order. */
    ghost predicate Valid()
      reads this, queue, queue.spine
    {
      && queue.Valid()
      && acc == Residue(received)
      && retrieved <= |Sections(received)|
      && queue.Contents() == Sections(received)[retrieved..]
    }

    constructor ()
      ensures Valid() && fresh(queue) && queue.spine == [] && received == [] && retrieved == 0
    {
      queue := new PacketQueue();
      acc := [];
      received, retrieved := [], 0;
    }

    /**
     One turn of the receiving thread. `leaves` tells whether the sectioning
     loop as it is written comes to an end; where it would turn for ever over
     an incomplete packet, the model follows the design and waits for more.
     */
    method Receive(chunk: seq<byte>) returns (leaves: bool)
      requires Valid()
      modifies this, queue, queue.spine
      ensures Valid() && received == old(received) + chunk && retrieved == old(retrieved)
      ensures queue.Contents() == old(queue.Contents()) + Sections(old(acc) + chunk)
      ensures Flatten(Sections(received)) + acc == received
      ensures leaves <==> |acc| <= 2
      ensures forall i :: 0 <= i < |queue.spine| ==> queue.spine[i] in old(queue.spine) || fresh(queue.spine[i])
    {
      hide Sections, Residue, Flatten;
      SectionsOfMore(received, chunk);
      SectionsConserve(received + chunk);
      acc := acc + chunk;
      leaves := SectionAll();
      received := received + chunk;
    }

    /** The sectioning loop of the receiving thread. */
    method SectionAll() returns (leaves: bool)
      requires queue.Valid()
      modifies this`acc, queue, queue.spine
      ensures queue.Valid() && queue.Contents() == old(queue.Contents()) + Sections(old(acc))
      ensures acc == Residue(old(acc)) && (leaves <==> |acc| <= 2)
      ensures forall i :: 0 <= i < |queue.spine| ==> queue.spine[i] in old(queue.spine) || fresh(queue.spine[i])
    {
      hide Sections, Residue, Int16Of;
      ghost var before := queue.Contents();
      ghost var pushed: seq<seq<byte>> := [];
      while |acc| > 2
        invariant queue.Valid() && queue.Contents() == before + pushed
        invariant Sections(old(acc)) == pushed + Sections(acc) && Residue(old(acc)) == Residue(acc)
        invariant forall i :: 0 <= i < |queue.spine| ==> queue.spine[i] in old(queue.spine) || fresh(queue.spine[i])
        decreases |acc|
      {
        var packetSize := Int16Of(acc[0], acc[1]);
        NextSection(acc);
        if 0 < packetSize && |acc| >= packetSize {
          var packet := acc[..packetSize];
          queue.Push(packet);
          acc := acc[packetSize..];
          Associative(pushed, [packet], Sections(acc));
          assert (before + pushed) + [packet] == before + (pushed + [packet]);
          pushed := pushed + [packet];
        } else {
          return false;
        }
      }
      NextSection(acc);
      return true;
    }

    /** recvpool_retrieve: an empty queue and a packet that cannot be read both give nothing. */
    method Retrieve(parseSender: bool, stale: int) returns (r: Option<Packet>)
      requires Valid()
      modifies this, queue
      ensures Valid() && received == old(received) && acc == old(acc)
      ensures queue.spine == if old(queue.spine) == [] then [] else old(queue.spine)[1..]
      ensures old(retrieved) == |Sections(received)| ==> r == None && retrieved == old(retrieved)
      ensures old(retrieved) < |Sections(received)| ==>
                && retrieved == old(retrieved) + 1
                && r == match Decode(Sections(received)[old(retrieved)], parseSender, stale)
                        case Short => None
                        case Got(p, _) => Some(p)
    {
      var node := queue.Pop();
      if node == null { return None; }
      retrieved := retrieved + 1;
      var b := new Buffer.FromData(node.data);
      r := PacketDeserialize(b, parseSender, stale);
    }
  }
}
