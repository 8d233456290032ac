/**
 From one client's packets to what another retrieves: codec, framing on both
 sides, and the server in between.
 */
module EndToEnd {
  import opened Options
  import opened Balls
  import opened Buffers
  import opened Packets
  import opened Framing
  import opened Servers

  // ---------------------------------------------------------------- items as bytes

  predicate Fits(item: Item) {
    match item
    case Hello(id) => IsInt32(id)
    case From(sender, packet) => IsInt32(sender) && Broadcastable(packet)
  }

  function ItemBytes(item: Item): seq<byte>
    requires Fits(item)
  {
    match item
    case Hello(id) => Encode(Handshake(id))
    case From(sender, packet) => Tagged(sender, packet)
  }

  predicate AllFit(items: seq<Item>) {
    forall i :: 0 <= i < |items| ==> Fits(items[i])
  }

  /** What a send buffer holds, packet by packet. */
  function Wire(items: seq<Item>): (packets: seq<seq<byte>>)
    requires AllFit(items)
    ensures |packets| == |items| && forall i :: 0 <= i < |items| ==> packets[i] == ItemBytes(items[i])
  {
    seq(|items|, i requires 0 <= i < |items| => ItemBytes(items[i]))
  }

  lemma WireWellFormed(items: seq<Item>)
    requires AllFit(items)
    ensures AllWellFormed(Wire(items))
  {
  }

  // ---------------------------------------------------------------- what the receiver makes of it

  /** The packets that recvpool_retrieve returns for these sections; one that cannot be read gives none. */
  function Retrieved(sections: seq<seq<byte>>, stale: int): seq<Packet> {
    if sections == [] then []
    else
      var n := |sections| - 1;
      Retrieved(sections[..n], stale)
      + match Decode(sections[n], true, stale)
        case Short => []
        case Got(p, _) => [p]
  }

  /** The payloads that come from one sender. */
  function By(packets: seq<Packet>, sender: int): seq<Payload> {
    if packets == [] then []
    else
      var p := packets[|packets| - 1];
      By(packets[..|packets| - 1], sender)
      + (if p.sender == Some(sender) && p.payload.Some? then [p.payload.value] else [])
  }

  function EncodeAll(ps: seq<Payload>): (packets: seq<seq<byte>>)
    requires forall i :: 0 <= i < |ps| ==> Sendable(ps[i])
    ensures |packets| == |ps|
  {
    seq(|ps|, i requires 0 <= i < |ps| => Encode(ps[i]))
  }

  function ArrivedAll(ps: seq<Payload>, stale: int): (qs: seq<Payload>)
    ensures |qs| == |ps|
  {
    seq(|ps|, i requires 0 <= i < |ps| => Arrived(ps[i], stale))
  }

  /** The id that was put in is the id that is read, whatever the rest of the packet says. */
  lemma SenderSurvives(sender: int, packet: seq<byte>, stale: int)
    requires IsInt32(sender) && Broadcastable(packet)
    ensures var r := Decode(Tagged(sender, packet), true, stale); r.Got? ==> r.value.sender == Some(sender)
  {
    hide TakePayload;
    var s := Tagged(sender, packet);
    var rest := Int32Bytes(sender) + packet[2..];
    assert s == Int16Bytes(|packet| + 4) + rest;
    Int16RoundTrip(|packet| + 4, rest);
    Int32RoundTrip(sender, packet[2..]);
  }

  /** What one section adds to the payloads of a sender. */
  function Adds(section: seq<byte>, s: int, stale: int): seq<Payload> {
    match Decode(section, true, stale)
    case Short => []
    case Got(p, _) => if p.sender == Some(s) && p.payload.Some? then [p.payload.value] else []
  }

  lemma OneMoreSection(sections: seq<seq<byte>>, section: seq<byte>, s: int, stale: int)
    ensures By(Retrieved(sections + [section], stale), s) == By(Retrieved(sections, stale), s) + Adds(section, s, stale)
  {
    hide Decode;
    var packets := Retrieved(sections, stale);
    assert (sections + [section])[..|sections|] == sections;
    match Decode(section, true, stale)
    case Short => assert packets + [] == packets && By(packets, s) + [] == By(packets, s);
    case Got(p, _) => assert (packets + [p])[..|packets|] == packets;
  }

  lemma OthersAddNothing(item: Item, s: nat, stale: int)
    requires Fits(item) && item.From? && item.sender != s
    ensures Adds(ItemBytes(item), s, stale) == []
  {
    hide Decode, Tagged;
    SenderSurvives(item.sender, item.packet, stale);
  }

  lemma SenderAdds(item: Item, s: nat, p: Payload, stale: int)
    requires Fits(item) && item.From? && item.sender == s && Sendable(p) && item.packet == Encode(p)
    ensures Adds(ItemBytes(item), s, stale) == [Arrived(p, stale)]
  {
    hide Decode, Tagged, Encode;
    TaggedReads(s, p, stale);
  }

  lemma WireOneMore(items: seq<Item>)
    requires AllFit(items) && items != []
    ensures Wire(items) == Wire(items[..|items| - 1]) + [ItemBytes(items[|items| - 1])]
  {
  }

  lemma LastOfAll(ps: seq<Payload>, packets: seq<seq<byte>>, packet: seq<byte>, stale: int)
    requires (forall i :: 0 <= i < |ps| ==> Sendable(ps[i])) && packets + [packet] == EncodeAll(ps)
    ensures ps != [] && packet == Encode(ps[|ps| - 1]) && packets == EncodeAll(ps[..|ps| - 1])
    ensures ArrivedAll(ps, stale) == ArrivedAll(ps[..|ps| - 1], stale) + [Arrived(ps[|ps| - 1], stale)]
  {
    hide Encode;
    assert (packets + [packet])[..|packets|] == packets && (packets + [packet])[|packets|] == packet;
  }

  /** A receiver reads the packets of one sender out of its stream, in their order. */
  lemma {:induction false} StreamIsRead(items: seq<Item>, s: nat, ps: seq<Payload>, stale: int)
    requires AllFit(items) && (forall i :: 0 <= i < |items| ==> items[i].From?)
    requires (forall i :: 0 <= i < |ps| ==> Sendable(ps[i])) && Only(items, s) == EncodeAll(ps)
    ensures By(Retrieved(Wire(items), stale), s) == ArrivedAll(ps, stale)
  {
    hide Encode, Sendable, Arrived, Fits, ItemBytes, Wire;
    if items == [] {
      assert ps == [] && Wire(items) == [];
    } else {
      hide By, Retrieved, EncodeAll, ArrivedAll, Adds;
      var n := |items| - 1;
      var front, last := items[..n], items[n];
      WireOneMore(items);
      OneMoreSection(Wire(front), ItemBytes(last), s, stale);
      if last.sender == s {
        LastOfAll(ps, Only(front, s), last.packet, stale);
        StreamIsRead(front, s, ps[..|ps| - 1], stale);
        SenderAdds(last, s, ps[|ps| - 1], stale);
      } else {
        assert Only(items, s) == Only(front, s);
        StreamIsRead(front, s, ps, stale);
        OthersAddNothing(last, s, stale);
      }
    }
  }

  lemma TaggedReads(s: nat, p: Payload, stale: int)
    requires IsInt32(s) && Sendable(p) && Broadcastable(Encode(p))
    ensures Decode(Tagged(s, Encode(p)), true, stale)
         == Got(Packet(|Encode(p)| + 4, Some(s), TypeOf(p), Some(Arrived(p, stale))), [])
  {
    TaggedRoundTrip(s, p, stale, []);
    assert Tagged(s, Encode(p)) + [] == Tagged(s, Encode(p));
  }

  // ---------------------------------------------------------------- the items of a run fit

  lemma {:induction false} OnlyHas(items: seq<Item>, i: nat)
    requires i < |items| && items[i].From?
    ensures items[i].packet in Only(items, items[i].sender)
  {
    var n := |items| - 1;
    if i < n {
      OnlyHas(items[..n], i);
    }
  }

  lemma LoggedFits(v: Server, s: nat, packet: seq<byte>)
    requires Valid(v) && s < |v.clients| && packet in Logged(v.clients[s])
    ensures Broadcastable(packet)
  {
  }

  /** With 32-bit ids, all that a run sends can be sent. */
  lemma RunFits(steps: seq<Step>, v: Server, r: nat)
    requires After(steps) == Some(v) && r < |v.clients| <= 0x8000_0000
    ensures AllFit(Out(v.clients[r]))
  {
    hide After, Only;
    var out := Out(v.clients[r]);
    assert Local(v.clients[r], r);
    forall i | 0 <= i < |out|
      ensures Fits(out[i])
    {
      if out[i].From? {
        var s := out[i].sender;
        OnlyHas(out, i);
        assert StreamOk(v, r, s);
        LoggedFits(v, s, out[i].packet);
      }
    }
  }

  // ---------------------------------------------------------------- the whole way

  lemma RepeatedEncodes(ps: seq<Payload>, k: nat)
    requires k < |ps| && forall i :: 0 <= i < |ps| ==> Sendable(ps[i])
    ensures EncodeAll(Repeated(ps, k)) == Repeated(EncodeAll(ps), k)
  {
  }

  lemma RepeatedArrives(ps: seq<Payload>, k: nat, stale: int)
    requires k < |ps|
    ensures ArrivedAll(Repeated(ps, k), stale) == Repeated(ArrivedAll(ps, stale), k)
  {
  }

  /** The history is what the client sent, if all of it has been read. */
  lemma InputIsLogged(steps: seq<Step>, v: Server, s: nat, ps: seq<Payload>)
    requires After(steps) == Some(v) && s < |v.clients| && v.clients[s].phase.Reading? && !Ready(v.clients[s].acc)
    requires (forall i :: 0 <= i < |ps| ==> Sendable(ps[i])) && v.clients[s].received == Flatten(EncodeAll(ps))
    ensures Logged(v.clients[s]) == EncodeAll([Payload.Connected] + ps)
  {
    hide After, Encode;
    HistoryIsInput(steps, v, s);
    var packets := EncodeAll(ps);
    forall i | 0 <= i < |packets|
      ensures WellFormed(packets[i])
    {
      EncodeWellFormed(ps[i]);
    }
    SectionsOfFlatten(packets, []);
    assert Flatten(packets) + [] == Flatten(packets) && packets + Sections([]) == packets;
  }

  /**
   What `r` makes of the sections of its stream, if `s` said the payloads `said`:
   its own handshake, and after it from `s` exactly those, in their order, but
   for at most one that comes twice in a row; and none does if `r` was there first.
   */
  ghost predicate Hears(sections: seq<seq<byte>>, r: nat, s: nat, said: seq<Payload>, stale: int) {
    && sections != []
    && Decode(sections[0], false, stale) == Got(Packet(7, None, 104, Some(Handshake(r))), [])
    && var heard := By(Retrieved(sections[1..], stale), s);
       heard == said || (s < r && exists k :: 0 <= k < |said| && heard == Repeated(said, k))
  }

  /**
   End to end. Client `s` sent the payloads `ps`, the server has read and
   broadcast all of it and flushed `r`, and the bytes reached `r` in some chunks:
   `r` hears that `s` connected, and all of `ps`.
   */
  lemma Relayed(steps: seq<Step>, v: Server, r: nat, s: nat, ps: seq<Payload>, chunks: seq<seq<byte>>, stale: int)
    requires After(steps) == Some(v) && r < |v.list| && s < |v.list| && r != s && |v.list| <= |v.clients| <= 0x8000_0000
    requires v.clients[s].phase.Reading? && !Ready(v.clients[s].acc)
    requires (forall i :: 0 <= i < |ps| ==> Sendable(ps[i])) && v.clients[s].received == Flatten(EncodeAll(ps))
    requires v.clients[r].sbuffer == []
    ensures AllFit(v.clients[r].sent)
    ensures Flatten(chunks) == Flatten(Wire(v.clients[r].sent)) ==>
              && SectionChunks(chunks).1 == []
              && Hears(SectionChunks(chunks).0, r, s, ArrivedAll([Payload.Connected] + ps, stale), stale)
  {
    hide After, Encode, Logged, Stream, Retrieved, By, Valid, Streams, Flatten, Only, Wire, SectionChunks, Hears;
    RunFits(steps, v, r);
    var sent := v.clients[r].sent;
    assert Out(v.clients[r]) == sent;
    HandshakeFirst(steps, v, r);
    InputIsLogged(steps, v, s, ps);
    NothingMissing(steps, v, r, s);
    if Flatten(chunks) == Flatten(Wire(sent)) {
      WireWellFormed(sent);
      PacketsSurvive(Wire(sent), chunks);
      SentIsHeard(v, r, s, [Payload.Connected] + ps, stale);
    }
  }

  lemma SentIsHeard(v: Server, r: nat, s: nat, all: seq<Payload>, stale: int)
    requires r < |v.clients| <= 0x8000_0000 && s < |v.clients| && v.clients[r].sbuffer == []
    requires AllFit(v.clients[r].sent) && Greeted(v.clients[r].sent, r)
    requires (forall i :: 0 <= i < |all| ==> Sendable(all[i])) && Logged(v.clients[s]) == EncodeAll(all)
    requires Stream(v, r, s) == Logged(v.clients[s])
          || (s < r && exists k :: 0 <= k < |all| && Stream(v, r, s) == Repeated(Logged(v.clients[s]), k))
    ensures Hears(Wire(v.clients[r].sent), r, s, ArrivedAll(all, stale), stale)
  {
    hide Encode, Logged, Stream, Retrieved, By, Only, Decode;
    var sent := v.clients[r].sent;
    SentIsStream(v, r, s);
    assert Wire(sent)[1..] == Wire(sent[1..]);
    HelloReads(r, stale);
    if Stream(v, r, s) == Logged(v.clients[s]) {
      StreamIsRead(sent[1..], s, all, stale);
    } else {
      var k :| 0 <= k < |all| && Stream(v, r, s) == Repeated(Logged(v.clients[s]), k);
      RepeatedEncodes(all, k);
      StreamIsRead(sent[1..], s, Repeated(all, k), stale);
      RepeatedArrives(all, k, stale);
    }
  }

  lemma SentIsStream(v: Server, r: nat, s: nat)
    requires r < |v.clients| && v.clients[r].sbuffer == [] && v.clients[r].sent != [] && v.clients[r].sent[0] == Hello(r)
    ensures Only(v.clients[r].sent[1..], s) == Stream(v, r, s)
  {
    var sent := v.clients[r].sent;
    assert sent + [] == sent && sent == [Hello(r)] + sent[1..];
    OnlyConcat([Hello(r)], sent[1..], s);
    OnlyOne(Hello(r), s);
  }

  lemma HelloReads(r: nat, stale: int)
    requires IsInt32(r)
    ensures Decode(Encode(Handshake(r)), false, stale) == Got(Packet(7, None, 104, Some(Handshake(r))), [])
  {
    RoundTrip(Handshake(r), stale, []);
    assert Encode(Handshake(r)) + [] == Encode(Handshake(r));
  }

  // ---------------------------------------------------------------- while the game goes on

  /** Of what was `said` a beginning has been heard, with at most one thing twice in a row. */
  ghost predicate SoFar<T>(heard: seq<T>, said: seq<T>) {
    heard <= said || exists k :: 0 <= k < |said| && heard <= Repeated(said, k)
  }

  lemma SoFarPrefix<T>(heard: seq<T>, more: seq<T>, said: seq<T>)
    requires SoFar(more, said) && heard <= more
    ensures SoFar(heard, said)
  {
    if !(more <= said) {
      var k :| 0 <= k < |said| && more <= Repeated(said, k);
      assert heard <= Repeated(said, k);
    }
  }

  lemma {:induction false} ByConcat(a: seq<Packet>, b: seq<Packet>, sender: int)
    ensures By(a + b, sender) == By(a, sender) + By(b, sender)
  {
    if b == [] {
      assert a + b == a;
    } else {
      var n := |b| - 1;
      assert (a + b)[..|a| + n] == a + b[..n];
      ByConcat(a, b[..n], sender);
    }
  }

  lemma ByPrefix(a: seq<Packet>, b: seq<Packet>, sender: int)
    requires a <= b
    ensures By(a, sender) <= By(b, sender)
  {
    hide By;
    ByConcat(a, b[|a|..], sender);
    assert a + b[|a|..] == b;
  }

  lemma OnlyPrefix(a: seq<Item>, b: seq<Item>, s: nat)
    requires a <= b
    ensures Only(a, s) <= Only(b, s)
  {
    hide Only;
    OnlyConcat(a, b[|a|..], s);
    assert a + b[|a|..] == b;
  }

  lemma PrefixIsRead(items: seq<Item>, s: nat, said: seq<Payload>, stale: int)
    requires AllFit(items) && (forall i :: 0 <= i < |items| ==> items[i].From?)
    requires (forall i :: 0 <= i < |said| ==> Sendable(said[i])) && Only(items, s) <= EncodeAll(said)
    ensures By(Retrieved(Wire(items), stale), s) <= ArrivedAll(said, stale)
  {
    hide Encode, By, Retrieved, Only, Wire;
    var n := |Only(items, s)|;
    assert EncodeAll(said[..n]) == EncodeAll(said)[..n];
    StreamIsRead(items, s, said[..n], stale);
    assert ArrivedAll(said[..n], stale) == ArrivedAll(said, stale)[..n];
  }

  /** A beginning of a sender's packets is read as a beginning of its payloads. */
  lemma SoFarIsRead(items: seq<Item>, s: nat, said: seq<Payload>, stale: int)
    requires AllFit(items) && (forall i :: 0 <= i < |items| ==> items[i].From?)
    requires (forall i :: 0 <= i < |said| ==> Sendable(said[i])) && SoFar(Only(items, s), EncodeAll(said))
    ensures SoFar(By(Retrieved(Wire(items), stale), s), ArrivedAll(said, stale))
  {
    hide Encode, By, Retrieved, Only, Wire, EncodeAll, ArrivedAll, Sendable;
    if Only(items, s) <= EncodeAll(said) {
      PrefixIsRead(items, s, said, stale);
    } else {
      var k :| 0 <= k < |said| && Only(items, s) <= Repeated(EncodeAll(said), k);
      RepeatedEncodes(said, k);
      PrefixIsRead(items, s, Repeated(said, k), stale);
      RepeatedArrives(said, k, stale);
    }
  }

  lemma EncodingsWellFormed(ps: seq<Payload>)
    requires forall i :: 0 <= i < |ps| ==> Sendable(ps[i])
    ensures AllWellFormed(EncodeAll(ps))
  {
    hide Encode;
    forall i | 0 <= i < |ps|
      ensures WellFormed(EncodeAll(ps)[i])
    {
      EncodeWellFormed(ps[i]);
    }
  }

  /** At any moment the history is a beginning of what the client serialised. */
  lemma HistoryIsPrefix(steps: seq<Step>, v: Server, s: nat, ps: seq<Payload>)
    requires After(steps) == Some(v) && s < |v.clients|
    requires (forall i :: 0 <= i < |ps| ==> Sendable(ps[i])) && v.clients[s].received <= Flatten(EncodeAll(ps))
    ensures Logged(v.clients[s]) <= EncodeAll([Payload.Connected] + ps)
  {
    hide After, Encode;
    var c := v.clients[s];
    assert Local(c, s);
    EncodingsWellFormed(ps);
    HistoryBytes(c, s);
    var rest :| Flatten(c.history) + rest == c.received;
    FlattenPrefix(c.history, EncodeAll(ps), rest);
    assert EncodeAll([Payload.Connected] + ps) == [ConnectedPacket()] + EncodeAll(ps);
  }

  lemma HistoryBytes(c: Client, id: nat)
    requires Local(c, id)
    ensures AllWellFormed(c.history) && exists rest :: Flatten(c.history) + rest == c.received
  {
    forall i | 0 <= i < |c.history|
      ensures WellFormed(c.history[i])
    {
      assert Broadcastable(c.history[i]);
    }
    if c.phase.Pending? {
      var n := |c.history| - 1;
      var p, rest := NextPacket(c.acc), c.acc[SizeField(c.acc)..];
      assert c.history == c.history[..n] + [p] && c.acc == p + rest;
      FlattenLast(c.history[..n], p);
      assert Flatten(c.history) + rest == c.received;
    } else {
      assert Flatten(c.history) + c.acc == c.received;
    }
  }

  /** What is put in a client's send buffer is from others that there are. */
  lemma SendersAreOthers(steps: seq<Step>, v: Server, r: nat, i: nat)
    requires After(steps) == Some(v) && r < |v.clients| && i < |Out(v.clients[r])| && Out(v.clients[r])[i].From?
    ensures Out(v.clients[r])[i].sender < |v.clients| && Out(v.clients[r])[i].sender != r
  {
    hide After, Only;
    OnlyHas(Out(v.clients[r]), i);
    NothingOfItsOwn(steps, v, r);
    var item := Out(v.clients[r])[i];
    assert item.packet in Stream(v, r, item.sender);
  }

  lemma {:induction false} SendersAreRead(items: seq<Item>, r: nat, n: nat, stale: int, p: Packet)
    requires AllFit(items) && forall i :: 0 <= i < |items| ==> items[i].From? && items[i].sender < n && items[i].sender != r
    requires p in Retrieved(Wire(items), stale)
    ensures p.sender.Some? && 0 <= p.sender.value < n && p.sender.value != r
  {
    hide Decode, ItemBytes, Fits;
    var m := |items| - 1;
    if p in Retrieved(Wire(items[..m]), stale) {
      SendersAreRead(items[..m], r, n, stale, p);
    } else {
      WireOneMore(items);
      LastRead(items[m], stale, p, Wire(items[..m]));
    }
  }

  lemma LastRead(item: Item, stale: int, p: Packet, before: seq<seq<byte>>)
    requires Fits(item) && item.From?
    requires p in Retrieved(before + [ItemBytes(item)], stale) && p !in Retrieved(before, stale)
    ensures p.sender == Some(item.sender)
  {
    hide Decode, Tagged;
    assert (before + [ItemBytes(item)])[..|before|] == before;
    SenderSurvives(item.sender, item.packet, stale);
  }

  /** The packets a client can retrieve after its handshake. */
  function PacketsOf(sections: seq<seq<byte>>, stale: int): seq<Packet> {
    if sections == [] then [] else Retrieved(sections[1..], stale)
  }

  /** The first bytes of a client's stream are sectioned into the bytes of its first items. */
  lemma SectionsAreItems(steps: seq<Step>, v: Server, r: nat, chunks: seq<seq<byte>>) returns (items: seq<Item>)
    requires After(steps) == Some(v) && r < |v.clients| <= 0x8000_0000
    requires AllFit(v.clients[r].sent) && Flatten(chunks) <= Flatten(Wire(v.clients[r].sent))
    ensures items <= v.clients[r].sent && AllFit(items) && SectionChunks(chunks).0 == Wire(items)
    ensures items != [] ==> items[0] == Hello(r) && forall i :: 1 <= i < |items| ==> items[i].From?
  {
    hide After, Flatten, Sections, SectionChunks;
    var sent := v.clients[r].sent;
    WireWellFormed(sent);
    ChunksDoNotMatter(chunks);
    SectionsOfPrefix(Flatten(chunks), Wire(sent));
    items := sent[..|Sections(Flatten(chunks))|];
    assert Wire(items) == Sections(Flatten(chunks));
    HandshakeFirst(steps, v, r);
  }

  /**
   At any moment of any run: of what `s` said, `r` can retrieve a beginning, in order,
   with at most one payload twice in a row, however much is still under way.
   */
  lemma RelayedSoFar(steps: seq<Step>, v: Server, r: nat, s: nat, ps: seq<Payload>, chunks: seq<seq<byte>>, stale: int)
    requires After(steps) == Some(v) && r < |v.list| && s < |v.list| && r != s && |v.list| <= |v.clients| <= 0x8000_0000
    requires (forall i :: 0 <= i < |ps| ==> Sendable(ps[i])) && v.clients[s].received <= Flatten(EncodeAll(ps))
    requires AllFit(v.clients[r].sent) && Flatten(chunks) <= Flatten(Wire(v.clients[r].sent))
    ensures SoFar(By(PacketsOf(SectionChunks(chunks).0, stale), s), ArrivedAll([Payload.Connected] + ps, stale))
  {
    hide After, Encode, Logged, Retrieved, By, Valid, Streams, Flatten, Only, Wire, SectionChunks, ArrivedAll, Repeated;
    var items := SectionsAreItems(steps, v, r, chunks);
    var said := [Payload.Connected] + ps;
    if items == [] {
      NothingRead(s, stale);
      assert SoFar([], ArrivedAll(said, stale));
    } else {
      assert items <= Out(v.clients[r]);
      HistoryIsPrefix(steps, v, s, ps);
      NothingOutOfOrder(steps, v, r, s);
      StreamOfItems(v, r, s, items, EncodeAll(said));
      assert Wire(items)[1..] == Wire(items[1..]) by { WireTail(items); }
      SoFarIsRead(items[1..], s, said, stale);
    }
  }

  lemma NothingRead(s: nat, stale: int)
    ensures Wire([]) == [] && By([], s) == []
  {
  }

  lemma WireTail(items: seq<Item>)
    requires AllFit(items) && items != []
    ensures Wire(items)[1..] == Wire(items[1..])
  {
  }

  lemma RepeatedPrefix<T>(heard: seq<T>, log: seq<T>, said: seq<T>, k: nat)
    requires k < |log| && log <= said && heard <= Repeated(log, k)
    ensures heard <= Repeated(said, k)
  {
    assert Repeated(said, k) == Repeated(log, k) + said[|log|..];
  }

  lemma StreamOfItems(v: Server, r: nat, s: nat, items: seq<Item>, said: seq<seq<byte>>)
    requires r < |v.clients| && s < |v.clients| && items != [] && items[0] == Hello(r) && items <= Out(v.clients[r])
    requires Logged(v.clients[s]) <= said && SoFar(Stream(v, r, s), Logged(v.clients[s]))
    ensures SoFar(Only(items[1..], s), said)
  {
    hide Only, Logged, Repeated, Out;
    OnlyPrefix(items, Out(v.clients[r]), s);
    assert items == [Hello(r)] + items[1..];
    OnlyConcat([Hello(r)], items[1..], s);
    OnlyOne(Hello(r), s);
    var log, stream := Logged(v.clients[s]), Only(items[1..], s);
    assert stream <= Stream(v, r, s);
    SoFarPrefix(stream, Stream(v, r, s), log);
    if !(stream <= log) {
      var k :| 0 <= k < |log| && stream <= Repeated(log, k);
      RepeatedPrefix(stream, log, said, k);
    }
  }

  /** And all that `r` can retrieve is from others that there are. */
  lemma RelayedFromOthers(steps: seq<Step>, v: Server, r: nat, chunks: seq<seq<byte>>, stale: int, p: Packet)
    requires After(steps) == Some(v) && r < |v.clients| <= 0x8000_0000
    requires AllFit(v.clients[r].sent) && Flatten(chunks) <= Flatten(Wire(v.clients[r].sent))
    requires p in PacketsOf(SectionChunks(chunks).0, stale)
    ensures p.sender.Some? && 0 <= p.sender.value < |v.clients| && p.sender.value != r
  {
    hide After, Retrieved, Flatten, Wire, SectionChunks;
    var items := SectionsAreItems(steps, v, r, chunks);
    NothingRead(0, stale);
    WireTail(items);
    forall i | 1 <= i < |items|
      ensures items[i].sender < |v.clients| && items[i].sender != r
    {
      assert Out(v.clients[r])[i] == items[i];
      SendersAreOthers(steps, v, r, i);
    }
    SendersAreRead(items[1..], r, |v.clients|, stale, p);
  }

  // ---------------------------------------------------------------- what the game clients rely on

  function EventPayloads(evs: seq<Event>): (ps: seq<Payload>)
    ensures |ps| == |evs|
  {
    seq(|evs|, i requires 0 <= i < |evs| => EventPayload(evs[i]))
  }

  lemma RepeatedSame<T>(log: seq<T>, k: nat, x: T)
    requires k < |log|
    ensures x in Repeated(log, k) <==> x in log
  {
  }

  /** Handed on or repeated, it is the same set of events that `r` hears from `s` and that `s` sent. */
  lemma SameEvents(sections: seq<seq<byte>>, r: nat, s: nat, evs: seq<Event>, stale: int, x: Event)
    requires Hears(sections, r, s, ArrivedAll([Payload.Connected] + EventPayloads(evs), stale), stale)
    ensures EventPayload(x) in By(Retrieved(sections[1..], stale), s) <==> x in evs
  {
    hide By, Retrieved, Decode, Repeated;
    var said := ArrivedAll([Payload.Connected] + EventPayloads(evs), stale);
    var heard := By(Retrieved(sections[1..], stale), s);
    if heard != said {
      var k :| 0 <= k < |said| && heard == Repeated(said, k);
      RepeatedSame(said, k, EventPayload(x));
    }
    assert said[0] == Payload.Connected && forall i :: 0 <= i < |evs| ==> said[i + 1] == EventPayload(evs[i]);
    if x in evs {
      var i :| 0 <= i < |evs| && evs[i] == x;
      assert said[i + 1] == EventPayload(x);
    }
  }
}
