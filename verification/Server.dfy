/**
 The broadcast server (src/server.c) as a transition system.

 One thread accepts and registers clients; each client has a thread that reads
 its socket, appends every packet to its history, broadcasts it, and flushes its
 own send buffer. A step is one critical section or one action on data that no
 other thread sees, so every interleaving of the threads is a sequence of steps.
 Packets are whole: a buffer is the concatenation of the packets put in it.
 */
module Servers {
  import opened Options
  import opened Balls
  import opened Buffers
  import opened Packets
  import opened Framing

  /** What is put in a send buffer: the handshake, or a packet tagged with its sender's id. */
  datatype Item = Hello(id: nat) | From(sender: nat, packet: seq<byte>)

  /** Where a client's thread is: not created, before its greeting, in its loop, or between history and broadcast. */
  datatype Phase = Waiting | Starting | Reading | Pending

  /** A copy made at registration: `upTo` packets were copied, broadcasts follow from packet `from` on. */
  datatype Copy = Copy(upTo: nat, from: nat)

  /**
   `received`, `sent` and `copies` record what happened; no step depends on them.
   `pipe` counts the bytes in the notification pipe.
   */
  datatype Client = Client(
    history: seq<seq<byte>>,
    received: seq<byte>,
    acc: seq<byte>,
    sbuffer: seq<Item>,
    sent: seq<Item>,
    pipe: nat,
    phase: Phase,
    copies: map<nat, Copy>)

  /** The context mutex, with what its holder still has to do: the rest of the client list. */
  datatype Lock = Free | Registering(todo: seq<nat>) | Broadcasting(sender: nat, packet: seq<byte>, todo: seq<nat>)

  /** Clients are numbered in the order they are accepted; `list` is the linked list of the registered ones. */
  datatype Server = Server(clients: seq<Client>, list: seq<nat>, lock: Lock)

  datatype Step =
    | Accept
    | RegisterBegin
    | RegisterCopy
    | RegisterEnd
    | StartThread
    | Read(id: nat, chunk: seq<byte>)
    | AppendHistory(id: nat)
    | BroadcastBegin(id: nat)
    | BroadcastNext
    | BroadcastEnd
    | Flush(id: nat)

  // ---------------------------------------------------------------- what clients have said

  function ConnectedPacket(): seq<byte> {
    Encode(Payload.Connected)
  }

  /** A packet with a true length that leaves room for the sender's id. */
  predicate Broadcastable(p: seq<byte>) {
    WellFormed(p) && |p| < 0x8000 - 4
  }

  /** What everybody else is to hear from a client: that it connected, and its packets. */
  function Logged(c: Client): (log: seq<seq<byte>>)
    ensures |log| == 1 + |c.history|
  {
    [ConnectedPacket()] + c.history
  }

  /** How many of these have been broadcast completely. */
  function Done(c: Client): (n: nat)
    ensures n <= |Logged(c)|
  {
    match c.phase
    case Waiting => 0
    case Starting => 0
    case Reading => |Logged(c)|
    case Pending => |Logged(c)| - 1
  }

  function NextPacket(acc: seq<byte>): seq<byte>
    requires Ready(acc)
  {
    acc[..SizeField(acc)]
  }

  function Tag(sender: nat, packets: seq<seq<byte>>): (items: seq<Item>)
    ensures |items| == |packets|
  {
    seq(|packets|, i requires 0 <= i < |packets| => From(sender, packets[i]))
  }

  /** Everything ever put in a client's send buffer. */
  function Out(c: Client): seq<Item> {
    c.sent + c.sbuffer
  }

  /** The packets of one sender in a stream. */
  function Only(items: seq<Item>, sender: nat): seq<seq<byte>> {
    if items == [] then []
    else
      var last := items[|items| - 1];
      Only(items[..|items| - 1], sender) + (if last.From? && last.sender == sender then [last.packet] else [])
  }

  /** What client `r` gets, or will get at the next flush, from client `s`. */
  function Stream(v: Server, r: nat, s: nat): seq<seq<byte>>
    requires r < |v.clients|
  {
    Only(Out(v.clients[r]), s)
  }

  // ---------------------------------------------------------------- the steps

  function Start(): Server {
    Server([], [], Free)
  }

  function NewClient(id: nat): Client {
    Client([], [], [], [Hello(id)], [], 1, Waiting, map[])
  }

  /** The newest client is at the head of the list; a traversal has a tail of it still to do. */
  predicate Countdown(l: seq<nat>) {
    forall i :: 0 <= i < |l| ==> l[i] == |l| - 1 - i
  }

  predicate Shape(v: Server) {
    && Countdown(v.list) && |v.list| <= |v.clients| <= |v.list| + 1
    && match v.lock
       case Free => true
       case Registering(todo) => |v.clients| == |v.list| + 1 && Countdown(todo) && |todo| <= |v.list|
       case Broadcasting(sender, packet, todo) =>
         && sender < |v.list| && Countdown(todo) && |todo| <= |v.list|
         && (v.clients[sender].phase.Starting? || v.clients[sender].phase.Pending?)
         && packet == Logged(v.clients[sender])[Done(v.clients[sender])]
  }

  /** What a client's thread and its data promise by themselves. */
  ghost predicate Local(c: Client, id: nat) {
    && Greeted(Out(c), id)
    && (c.sbuffer != [] <==> c.pipe > 0) && (c.phase.Waiting? ==> c.sbuffer != [])
    && (forall i :: 0 <= i < |c.history| ==> Broadcastable(c.history[i]))
    && (c.phase.Waiting? || c.phase.Starting? ==> c.history == [] && c.acc == [] && c.received == [])
    && (c.phase.Reading? ==> Flatten(c.history) + c.acc == c.received)
    && (c.phase.Pending? ==>
          && c.history != [] && Ready(c.acc) && c.history[|c.history| - 1] == NextPacket(c.acc)
          && Flatten(c.history[..|c.history| - 1]) + c.acc == c.received)
  }

  /** Handshake first, then nothing but tagged packets. */
  predicate Greeted(items: seq<Item>, id: nat) {
    && items != [] && items[0] == Hello(id)
    && forall i :: 1 <= i < |items| ==> items[i].From?
  }

  ghost predicate Locals(v: Server) {
    forall id :: 0 <= id < |v.clients| ==> Local(v.clients[id], id)
  }

  /** Only the newest client may be unregistered or without a thread. */
  predicate Threads(v: Server) {
    && (forall id :: 0 <= id < |v.clients| - 1 ==> !v.clients[id].phase.Waiting?)
    && (forall id :: |v.list| <= id < |v.clients| ==> v.clients[id].phase.Waiting?)
  }

  ghost predicate Valid(v: Server) {
    Shape(v) && Locals(v) && Threads(v)
  }

  predicate Enabled(v: Server, step: Step)
    requires Shape(v)
  {
    var n := |v.clients|;
    match step
    case Accept => |v.list| == n && (n > 0 ==> !v.clients[n - 1].phase.Waiting?)
    case RegisterBegin => v.lock.Free? && |v.list| < n
    case RegisterCopy => v.lock.Registering? && v.lock.todo != []
    case RegisterEnd => v.lock.Registering? && v.lock.todo == []
    case StartThread => |v.list| == n > 0 && v.clients[n - 1].phase.Waiting?
    case Read(id, chunk) => id < n && v.clients[id].phase.Reading? && !Ready(v.clients[id].acc)
    case AppendHistory(id) =>
      && id < n && v.clients[id].phase.Reading?
      && Ready(v.clients[id].acc) && Broadcastable(NextPacket(v.clients[id].acc))
    case BroadcastBegin(id) =>
      && v.lock.Free? && id < |v.list|
      && (v.clients[id].phase.Starting? || (v.clients[id].phase.Pending? && Ready(v.clients[id].acc)))
    case BroadcastNext => v.lock.Broadcasting? && v.lock.todo != []
    case BroadcastEnd =>
      && v.lock.Broadcasting? && v.lock.todo == []
      && (v.clients[v.lock.sender].phase.Pending? ==> Ready(v.clients[v.lock.sender].acc))
    case Flush(id) => id < n && v.clients[id].phase.Reading? && !Ready(v.clients[id].acc) && v.clients[id].pipe > 0
  }

  function Put(v: Server, id: nat, c: Client): Server
    requires id < |v.clients|
  {
    v.(clients := v.clients[id := c])
  }

  /** server_client_register, one turn: the new client gets a CONNECTED packet and the history of a registered one. */
  function CopyNext(v: Server): Server
    requires Shape(v) && Enabled(v, RegisterCopy)
  {
    var newest, source := |v.clients| - 1, v.lock.todo[0];
    var c, log := v.clients[newest], Logged(v.clients[source]);
    var copy := Copy(|log|, Done(v.clients[source]));
    Put(v, newest, c.(sbuffer := c.sbuffer + Tag(source, log), copies := c.copies[source := copy]))
    .(lock := Registering(v.lock.todo[1..]))
  }

  /** server_broadcast, one turn: append to the send buffer and notify, except for the sender itself. */
  function SendNext(v: Server): Server
    requires Shape(v) && Enabled(v, BroadcastNext)
  {
    var r, s := v.lock.todo[0], v.lock.sender;
    var c := v.clients[r];
    var w := if r == s then v else Put(v, r, c.(sbuffer := c.sbuffer + [From(s, v.lock.packet)], pipe := c.pipe + 1));
    w.(lock := Broadcasting(s, v.lock.packet, v.lock.todo[1..]))
  }

  function Next(v: Server, step: Step): Server
    requires Shape(v) && Enabled(v, step)
  {
    var n := |v.clients|;
    match step
    case Accept => v.(clients := v.clients + [NewClient(n)])
    case RegisterBegin => v.(lock := Registering(v.list))
    case RegisterCopy => CopyNext(v)
    case RegisterEnd => v.(list := [n - 1] + v.list, lock := Free)
    case StartThread => Put(v, n - 1, v.clients[n - 1].(phase := Starting))
    case Read(id, chunk) =>
      var c := v.clients[id];
      Put(v, id, c.(acc := c.acc + chunk, received := c.received + chunk))
    case AppendHistory(id) =>
      var c := v.clients[id];
      Put(v, id, c.(history := c.history + [NextPacket(c.acc)], phase := Pending))
    case BroadcastBegin(id) =>
      var c := v.clients[id];
      v.(lock := Broadcasting(id, if c.phase.Starting? then ConnectedPacket() else NextPacket(c.acc), v.list))
    case BroadcastNext => SendNext(v)
    case BroadcastEnd =>
      var c := v.clients[v.lock.sender];
      var rest := if c.phase.Pending? then c.acc[SizeField(c.acc)..] else c.acc;
      Put(v, v.lock.sender, c.(phase := Reading, acc := rest)).(lock := Free)
    case Flush(id) =>
      var c := v.clients[id];
      Put(v, id, c.(sent := c.sent + c.sbuffer, sbuffer := [], pipe := 0))
  }

  // ---------------------------------------------------------------- every step keeps `Valid`

  lemma ShapeKept(v: Server, step: Step)
    requires Valid(v) && Enabled(v, step)
    ensures Shape(Next(v, step))
  {
    hide Encode, Flatten, Threads, Greeted, Broadcastable;
    match step
    case BroadcastBegin(id) => assert Local(v.clients[id], id);
    case _ =>
  }

  lemma ThreadsKept(v: Server, step: Step)
    requires Valid(v) && Enabled(v, step)
    ensures Threads(Next(v, step))
  {
    hide Encode, Greeted, Broadcastable, Flatten, Locals;
  }

  lemma GreetedExtends(items: seq<Item>, more: seq<Item>, id: nat)
    requires Greeted(items, id) && forall i :: 0 <= i < |more| ==> more[i].From?
    ensures Greeted(items + more, id)
  {
  }

  lemma FlattenLast(ps: seq<seq<byte>>, p: seq<byte>)
    ensures Flatten(ps + [p]) == Flatten(ps) + p
  {
    FlattenConcat(ps, [p]);
    assert Flatten([p]) == p + Flatten([]) && p + [] == p;
  }

  lemma LocalAppended(c: Client, items: seq<Item>, pipe: nat, copies: map<nat, Copy>, id: nat)
    requires Local(c, id) && pipe > 0 && (items != [] || c.sbuffer != []) && forall i :: 0 <= i < |items| ==> items[i].From?
    ensures Local(c.(sbuffer := c.sbuffer + items, pipe := pipe, copies := copies), id)
  {
    var d := c.(sbuffer := c.sbuffer + items, pipe := pipe, copies := copies);
    assert Out(d) == Out(c) + items;
    GreetedExtends(Out(c), items, id);
  }

  lemma LocalShifted(c: Client, id: nat)
    requires Local(c, id) && c.phase.Pending?
    ensures Local(c.(phase := Reading, acc := c.acc[SizeField(c.acc)..]), id)
  {
    var n := |c.history| - 1;
    var p, rest := NextPacket(c.acc), c.acc[SizeField(c.acc)..];
    assert c.history == c.history[..n] + [p] && c.acc == p + rest;
    FlattenLast(c.history[..n], p);
    assert Flatten(c.history[..n]) + (p + rest) == Flatten(c.history[..n]) + p + rest;
  }

  lemma LocalRead(c: Client, chunk: seq<byte>, id: nat)
    requires Local(c, id) && c.phase.Reading?
    ensures Local(c.(acc := c.acc + chunk, received := c.received + chunk), id)
  {
  }

  lemma LocalRecorded(c: Client, id: nat)
    requires Local(c, id) && c.phase.Reading? && Ready(c.acc) && Broadcastable(NextPacket(c.acc))
    ensures Local(c.(history := c.history + [NextPacket(c.acc)], phase := Pending), id)
  {
  }

  lemma LocalFlushed(c: Client, id: nat)
    requires Local(c, id) && c.phase.Reading?
    ensures Local(c.(sent := c.sent + c.sbuffer, sbuffer := [], pipe := 0), id)
  {
  }

  /** A thread that starts, or has greeted, has read nothing. */
  lemma LocalPhase(c: Client, phase: Phase, id: nat)
    requires Local(c, id) && ((c.phase.Waiting? && phase.Starting?) || (c.phase.Starting? && phase.Reading?))
    ensures Local(c.(phase := phase), id)
  {
  }

  lemma LocalKept(v: Server, step: Step, id: nat)
    requires Valid(v) && Enabled(v, step) && id < |Next(v, step).clients|
    ensures Local(Next(v, step).clients[id], id)
  {
    if id == |v.clients| {
      assert Local(NewClient(id), id);
    } else {
      assert Local(v.clients[id], id);
      OldLocalKept(v, step, id);
    }
  }

  lemma OldLocalKept(v: Server, step: Step, id: nat)
    requires Valid(v) && Enabled(v, step) && id < |v.clients| && Local(v.clients[id], id)
    ensures Local(Next(v, step).clients[id], id)
  {
    hide Logged, Local, Locals, Threads, Done, Ready;
    var c, d := v.clients[id], Next(v, step).clients[id];
    if d != c {
      match step
      case StartThread => LocalPhase(c, Starting, id);
      case RegisterCopy => CopyKeepsLocal(v, id);
      case BroadcastNext => LocalAppended(c, [From(v.lock.sender, v.lock.packet)], c.pipe + 1, c.copies, id);
      case Read(_, chunk) => LocalRead(c, chunk, id);
      case AppendHistory(_) => LocalRecorded(c, id);
      case BroadcastEnd =>
        if c.phase.Pending? { LocalShifted(c, id); } else { LocalPhase(c, Reading, id); }
      case Flush(_) => LocalFlushed(c, id);
      case _ =>
    }
  }

  lemma CopyKeepsLocal(v: Server, id: nat)
    requires Valid(v) && Enabled(v, RegisterCopy) && id < |v.clients|
    ensures Local(CopyNext(v).clients[id], id)
  {
    hide Logged, Greeted;
    var c := v.clients[id];
    assert Local(c, id);
    if id == |v.clients| - 1 {
      var source := v.lock.todo[0];
      LocalAppended(c, Tag(source, Logged(v.clients[source])), c.pipe, CopyNext(v).clients[id].copies, id);
    }
  }

  lemma ValidKept(v: Server, step: Step)
    requires Valid(v) && Enabled(v, step)
    ensures Valid(Next(v, step))
  {
    hide Local, Next, Enabled;
    ShapeKept(v, step);
    ThreadsKept(v, step);
    forall id | 0 <= id < |Next(v, step).clients|
      ensures Local(Next(v, step).clients[id], id)
    {
      LocalKept(v, step, id);
    }
  }

  // ---------------------------------------------------------------- who has heard what

  lemma {:induction false} OnlyConcat(a: seq<Item>, b: seq<Item>, s: nat)
    ensures Only(a + b, s) == Only(a, s) + Only(b, s)
  {
    if b == [] {
      assert a + b == a;
    } else {
      var n := |b| - 1;
      assert (a + b)[..|a| + n] == a + b[..n];
      OnlyConcat(a, b[..n], s);
    }
  }

  lemma OnlyOne(item: Item, s: nat)
    ensures Only([item], s) == if item.From? && item.sender == s then [item.packet] else []
  {
  }

  lemma {:induction false} OnlyTag(sender: nat, packets: seq<seq<byte>>, s: nat)
    ensures Only(Tag(sender, packets), s) == if s == sender then packets else []
  {
    if packets != [] {
      var n := |packets| - 1;
      assert Tag(sender, packets)[..n] == Tag(sender, packets[..n]);
      OnlyTag(sender, packets[..n], s);
      assert packets == packets[..n] + [packets[n]];
    }
  }

  /** The broadcast in progress is from `s`, and `r` has been served. */
  predicate Served(v: Server, r: nat, s: nat) {
    v.lock.Broadcasting? && v.lock.sender == s && |v.lock.todo| <= r < |v.list|
  }

  /** How much of what `s` has to say has been broadcast to `r`, had it been registered all along. */
  function Heard(v: Server, r: nat, s: nat): (n: nat)
    requires Shape(v) && s < |v.clients|
    ensures Done(v.clients[s]) <= n <= |Logged(v.clients[s])|
  {
    Done(v.clients[s]) + if Served(v, r, s) then 1 else 0
  }

  /** `r` has taken its copy of what `s` had said before. */
  predicate Copied(v: Server, r: nat, s: nat) {
    r < |v.list| || (v.lock.Registering? && |v.lock.todo| <= s)
  }

  predicate CopyFits(v: Server, s: nat, copy: Copy)
    requires s < |v.clients|
  {
    copy.from <= copy.upTo <= copy.from + 1 && copy.upTo <= |Logged(v.clients[s])| && copy.from <= Done(v.clients[s])
  }

  /**
   What `r` has from `s`. One who was there before hears the broadcasts. One who
   came later gets a copy and then the broadcasts from `from` on, which repeats
   one packet when the copy already had the packet then waiting to be broadcast.
   */
  predicate StreamOk(v: Server, r: nat, s: nat)
    requires Shape(v) && r < |v.clients|
  {
    var stream, copies := Stream(v, r, s), v.clients[r].copies;
    if s == r || s >= |v.clients| then stream == [] && s !in copies
    else
      var log := Logged(v.clients[s]);
      if s > r then stream == log[..Heard(v, r, s)] && s !in copies
      else
        && (s in copies <==> Copied(v, r, s))
        && (s !in copies ==> stream == [])
        && (s in copies ==>
              && CopyFits(v, s, copies[s])
              && stream == log[..copies[s].upTo] + log[copies[s].from..Heard(v, r, s)])
  }

  ghost predicate Streams(v: Server)
    requires Shape(v)
  {
    forall r, s :: 0 <= r < |v.clients| && 0 <= s ==> StreamOk(v, r, s)
  }

  /** A step that adds nothing to the stream, and at most a packet not yet broadcast to the log. */
  lemma StreamUntouched(v: Server, w: Server, r: nat, s: nat)
    requires Shape(v) && Shape(w) && r < |v.clients| == |w.clients|
    requires StreamOk(v, r, s) && Stream(w, r, s) == Stream(v, r, s) && w.clients[r].copies == v.clients[r].copies
    requires s < r ==> Copied(v, r, s) == Copied(w, r, s)
    requires s < |v.clients| && s != r ==>
               && Logged(v.clients[s]) <= Logged(w.clients[s])
               && Done(v.clients[s]) <= Done(w.clients[s])
               && (s > r || Copied(v, r, s) ==> Heard(v, r, s) == Heard(w, r, s))
    ensures StreamOk(w, r, s)
  {
  }

  lemma AcceptKeeps(v: Server, r: nat, s: nat)
    requires Valid(v) && Enabled(v, Accept) && r <= |v.clients| && (r < |v.clients| ==> StreamOk(v, r, s))
    requires Shape(Next(v, Accept))
    ensures StreamOk(Next(v, Accept), r, s)
  {
    hide Encode, Only, Locals, Threads;
    var n := |v.clients|;
    var w := Next(v, Accept);
    if r == n {
      OnlyOne(Hello(n), s);
      assert Out(w.clients[n]) == [Hello(n)];
    } else {
      assert w.clients[r] == v.clients[r];
      assert s == n ==> Logged(w.clients[n])[..Heard(w, r, n)] == [];
    }
  }

  /** A thread broadcasts what it has put in the history before it reads on. */
  lemma BroadcastsFollow(v: Server, id: nat)
    requires Locals(v) && id < |v.clients|
    ensures |Logged(v.clients[id])| - 1 <= Done(v.clients[id])
  {
  }

  lemma CopyKeeps(v: Server, r: nat, s: nat)
    requires Valid(v) && Enabled(v, RegisterCopy) && r < |v.clients| && StreamOk(v, r, s)
    requires Shape(CopyNext(v))
    ensures StreamOk(CopyNext(v), r, s)
  {
    hide Only, Encode, Local, Locals;
    var w := CopyNext(v);
    var source := v.lock.todo[0];
    if r == |v.clients| - 1 {
      var log := Logged(v.clients[source]);
      assert Out(w.clients[r]) == Out(v.clients[r]) + Tag(source, log);
      OnlyConcat(Out(v.clients[r]), Tag(source, log), s);
      OnlyTag(source, log, s);
      if s != source {
        assert Stream(w, r, s) == Stream(v, r, s) + [];
      } else {
        BroadcastsFollow(v, s);
        assert Stream(w, r, s) == [] + log;
        assert log == log[..|log|] + log[Heard(w, r, s)..Heard(w, r, s)];
      }
    } else {
      StreamUntouched(v, w, r, s);
    }
  }

  lemma OneMore(log: seq<seq<byte>>, from: nat, n: nat)
    requires from <= n < |log|
    ensures log[from..n + 1] == log[from..n] + [log[n]]
  {
  }

  lemma ServedNow(v: Server, r: nat)
    requires Valid(v) && Enabled(v, BroadcastNext) && r == v.lock.todo[0] && r != v.lock.sender && StreamOk(v, r, v.lock.sender)
    requires Shape(SendNext(v)) && Stream(SendNext(v), r, v.lock.sender) == Stream(v, r, v.lock.sender) + [v.lock.packet]
    ensures StreamOk(SendNext(v), r, v.lock.sender)
  {
    hide Only, Encode, Local, Locals, Stream, Threads;
    var s := v.lock.sender;
    var log, n := Logged(v.clients[s]), Heard(v, r, s);
    OneMore(log, 0, n);
    if s < r {
      OneMore(log, v.clients[r].copies[s].from, n);
    }
  }

  lemma BroadcastKeeps(v: Server, r: nat, s: nat)
    requires Valid(v) && Enabled(v, BroadcastNext) && r < |v.clients| && StreamOk(v, r, s)
    requires Shape(SendNext(v))
    ensures StreamOk(SendNext(v), r, s)
  {
    hide Only, Encode, Local, Locals, Threads;
    var w := SendNext(v);
    var sender := v.lock.sender;
    if r == v.lock.todo[0] && r != sender {
      var item := From(sender, v.lock.packet);
      assert Out(w.clients[r]) == Out(v.clients[r]) + [item];
      OnlyConcat(Out(v.clients[r]), [item], s);
      OnlyOne(item, s);
      if s == sender {
        ServedNow(v, r);
      } else {
        assert Stream(w, r, s) == Stream(v, r, s) + [];
        StreamUntouched(v, w, r, s);
      }
    } else {
      assert w.clients[r] == v.clients[r];
      if s != r {
        StreamUntouched(v, w, r, s);
      }
    }
  }

  lemma HeardKept(v: Server, step: Step, r: nat, s: nat)
    requires Valid(v) && Enabled(v, step) && !step.Accept? && !step.RegisterCopy? && !step.BroadcastNext?
    requires r < |v.clients| && s < |v.clients| && s != r && Shape(Next(v, step)) && |Logged(v.clients[s])| - 1 <= Done(v.clients[s])
    ensures Logged(v.clients[s]) <= Logged(Next(v, step).clients[s])
    ensures Done(v.clients[s]) <= Done(Next(v, step).clients[s])
    ensures s > r || Copied(v, r, s) ==> Heard(v, r, s) == Heard(Next(v, step), r, s)
  {
    hide Encode, Local, Locals, Threads, Countdown;
  }

  lemma OthersKeep(v: Server, step: Step, r: nat, s: nat)
    requires Valid(v) && Enabled(v, step) && !step.Accept? && !step.RegisterCopy? && !step.BroadcastNext?
    requires r < |v.clients| && StreamOk(v, r, s) && Shape(Next(v, step))
    ensures StreamOk(Next(v, step), r, s)
  {
    hide Only, Encode, Local, Locals;
    var w := Next(v, step);
    assert Out(w.clients[r]) == Out(v.clients[r]);
    if s < |v.clients| {
      BroadcastsFollow(v, s);
      if s != r { HeardKept(v, step, r, s); }
    }
    StreamUntouched(v, w, r, s);
  }

  lemma StreamsKept(v: Server, step: Step)
    requires Valid(v) && Streams(v) && Enabled(v, step)
    ensures Valid(Next(v, step)) && Streams(Next(v, step))
  {
    hide StreamOk, Locals, Threads;
    ValidKept(v, step);
    var w := Next(v, step);
    forall r, s | 0 <= r < |w.clients| && 0 <= s
      ensures StreamOk(w, r, s)
    {
      assert r < |v.clients| ==> StreamOk(v, r, s);
      match step
      case Accept => AcceptKeeps(v, r, s);
      case RegisterCopy => CopyKeeps(v, r, s);
      case BroadcastNext => BroadcastKeeps(v, r, s);
      case _ => OthersKeep(v, step, r, s);
    }
  }

  // ---------------------------------------------------------------- whole runs

  /** The server after a sequence of steps, if each was possible when it was taken. */
  ghost function After(steps: seq<Step>): (end: Option<Server>)
    ensures end.Some? ==> Valid(end.value) && Streams(end.value)
  {
    if steps == [] then Some(Start())
    else
      var n := |steps| - 1;
      match After(steps[..n])
      case None => None
      case Some(v) =>
        if !Enabled(v, steps[n]) then None
        else
          StreamsKept(v, steps[n]);
          Some(Next(v, steps[n]))
  }

  lemma {:induction false} RunsHavePrefixes(steps: seq<Step>, k: nat)
    requires After(steps).Some? && k <= |steps|
    ensures After(steps[..k]).Some?
    decreases |steps| - k
  {
    if k < |steps| {
      RunsHavePrefixes(steps, k + 1);
      assert steps[..k + 1][..k] == steps[..k];
    } else {
      assert steps[..k] == steps;
    }
  }

  /** Packet `k` of a log twice, everything else once, in order. */
  function Repeated<T>(log: seq<T>, k: nat): (r: seq<T>)
    requires k < |log|
    ensures |r| == |log| + 1
  {
    log[..k + 1] + log[k..]
  }

  /**
   In every run, once `s` has broadcast what it read, every other registered
   client has exactly what `s` had to say, in order and without gaps, but for at
   most one packet that it has twice in a row; and that only if it was
   registered after `s`.
   */
  lemma NothingMissing(steps: seq<Step>, v: Server, r: nat, s: nat)
    requires After(steps) == Some(v) && r < |v.list| && s < |v.list| && r != s && v.clients[s].phase.Reading?
    ensures var log := Logged(v.clients[s]);
            var copies := v.clients[r].copies;
            if s in copies && copies[s].from < copies[s].upTo
            then s < r && copies[s].from < |log| && Stream(v, r, s) == Repeated(log, copies[s].from)
            else Stream(v, r, s) == log
  {
    hide Only, After, Logged;
    assert StreamOk(v, r, s);
    var log := Logged(v.clients[s]);
    assert log[..|log|] == log;
    if s < r {
      var copy := v.clients[r].copies[s];
      if copy.from == copy.upTo {
        assert log[..copy.upTo] + log[copy.from..] == log;
      }
      assert log[copy.from..|log|] == log[copy.from..];
    }
  }

  lemma CopyThenBroadcasts(log: seq<seq<byte>>, copy: Copy, n: nat)
    requires copy.from <= copy.upTo <= copy.from + 1 && copy.upTo <= |log| && copy.from <= n <= |log|
    ensures var stream := log[..copy.upTo] + log[copy.from..n];
            stream <= log || (copy.from < |log| && stream <= Repeated(log, copy.from))
  {
  }

  /** At any moment the stream is a beginning of that: nothing out of order, nothing skipped. */
  lemma NothingOutOfOrder(steps: seq<Step>, v: Server, r: nat, s: nat)
    requires After(steps) == Some(v) && r < |v.list| && s < |v.list| && r != s
    ensures Stream(v, r, s) <= Logged(v.clients[s])
         || exists k :: 0 <= k < |Logged(v.clients[s])| && Stream(v, r, s) <= Repeated(Logged(v.clients[s]), k)
  {
    hide Only, After, Logged, Repeated, Locals, Threads, Countdown;
    assert StreamOk(v, r, s);
    if s < r {
      var copy := v.clients[r].copies[s];
      CopyThenBroadcasts(Logged(v.clients[s]), copy, Heard(v, r, s));
    }
  }

  /** A client never gets its own packets, nor any of a client that does not exist. */
  lemma NothingOfItsOwn(steps: seq<Step>, v: Server, r: nat)
    requires After(steps) == Some(v) && r < |v.clients|
    ensures Stream(v, r, r) == [] && forall s :: s >= |v.clients| ==> Stream(v, r, s) == []
  {
    assert StreamOk(v, r, r);
    forall s | s >= |v.clients|
      ensures Stream(v, r, s) == []
    {
      assert StreamOk(v, r, s);
    }
  }

  lemma CopiesStay(v: Server, step: Step, r: nat, s: nat)
    requires Valid(v) && Streams(v) && Enabled(v, step) && r < |v.clients| && s in v.clients[r].copies
    ensures r < |Next(v, step).clients| && s in Next(v, step).clients[r].copies
    ensures Next(v, step).clients[r].copies[s] == v.clients[r].copies[s]
  {
    hide Only, Encode, Locals, Threads;
    assert StreamOk(v, r, s);
  }

  lemma {:induction false} CopiesLast(steps: seq<Step>, k: nat, v: Server, w: Server, r: nat, s: nat)
    requires k <= |steps| && After(steps[..k]) == Some(v) && After(steps) == Some(w)
    requires r < |v.clients| && s in v.clients[r].copies
    ensures r < |w.clients| && s in w.clients[r].copies && w.clients[r].copies[s] == v.clients[r].copies[s]
    decreases |steps| - k
  {
    hide StreamOk, Next, Encode;
    if k < |steps| {
      RunsHavePrefixes(steps, k + 1);
      assert steps[..k + 1][..k] == steps[..k];
      CopiesStay(v, steps[k], r, s);
      CopiesLast(steps, k + 1, Next(v, steps[k]), w, r, s);
    } else {
      assert steps[..k] == steps;
    }
  }

  /**
   The exact condition for the repetition. `r` copied what `s` had said in step
   `k` of the run; it gets a packet of `s` twice if and only if `s` was then
   between putting a packet in its history and broadcasting it (or had not yet
   greeted), and the packet is that one.
   */
  lemma RepeatedIffCaughtBetween(steps: seq<Step>, k: nat, v: Server, w: Server)
    requires k < |steps| && steps[k] == RegisterCopy && After(steps[..k]) == Some(v) && After(steps) == Some(w)
    requires Enabled(v, RegisterCopy) && v.lock.todo[0] < |w.clients|
    requires w.clients[v.lock.todo[0]].phase.Reading? && |v.clients| - 1 < |w.list|
    ensures var r, s := |v.clients| - 1, v.lock.todo[0];
            var log := Logged(w.clients[s]);
            && (Stream(w, r, s) == log <==> v.clients[s].phase.Reading?)
            && (!v.clients[s].phase.Reading? ==>
                  |v.clients[s].history| < |log| && Stream(w, r, s) == Repeated(log, |v.clients[s].history|))
  {
    hide Only, Encode, Stream, Streams, Locals, Threads, After, Logged, Countdown;
    var r, s := |v.clients| - 1, v.lock.todo[0];
    var next := CopyNext(v);
    assert steps[..k + 1][..k] == steps[..k];
    AfterOneMore(steps[..k + 1], v);
    CopyTaken(v);
    CopiesLast(steps, k + 1, next, w, r, s);
    NothingMissing(steps, w, r, s);
  }

  lemma AfterOneMore(steps: seq<Step>, v: Server)
    requires steps != [] && After(steps[..|steps| - 1]) == Some(v) && Enabled(v, steps[|steps| - 1])
    ensures After(steps) == Some(Next(v, steps[|steps| - 1]))
  {
  }

  lemma RunFurther(steps: seq<Step>, v: Server, step: Step) returns (longer: seq<Step>, w: Server)
    requires After(steps) == Some(v) && Enabled(v, step)
    ensures After(longer) == Some(w) && w == Next(v, step)
  {
    longer, w := steps + [step], Next(v, step);
    assert longer[..|steps|] == steps;
  }

  lemma NoSteps()
    ensures After([]) == Some(Start())
  {
  }

  lemma OneClient() returns (steps: seq<Step>, v: Server)
    ensures After(steps) == Some(v) && v.list == [0] && |v.clients| == 1 && v.lock.Free?
    ensures v.clients[0].phase.Starting? && v.clients[0].history == []
  {
    hide Encode, Valid, Streams, After;
    NoSteps();
    steps, v := [], Start();
    steps, v := RunFurther(steps, v, Accept);
    assert v == Server([NewClient(0)], [], Free);
    steps, v := RunFurther(steps, v, RegisterBegin);
    steps, v := RunFurther(steps, v, RegisterEnd);
    steps, v := RunFurther(steps, v, StartThread);
  }

  lemma JoinedEarly() returns (steps: seq<Step>, v: Server)
    ensures After(steps) == Some(v) && v.list == [1, 0] && |v.clients| == 2 && v.lock.Free?
    ensures v.clients[0].phase.Starting? && v.clients[0].history == [] && v.clients[1].copies == map[0 := Copy(1, 0)]
  {
    hide Encode, Valid, Streams;
    steps, v := OneClient();
    steps, v := RunFurther(steps, v, Accept);
    steps, v := RunFurther(steps, v, RegisterBegin);
    steps, v := RunFurther(steps, v, RegisterCopy);
    steps, v := RunFurther(steps, v, RegisterEnd);
  }

  /** It does happen: client 1 registers before client 0 has greeted, and hears twice that 0 connected. */
  lemma ConnectedTwice() returns (steps: seq<Step>, v: Server)
    ensures After(steps) == Some(v) && |v.list| == 2 && v.clients[0].phase.Reading?
    ensures Stream(v, 1, 0) == [ConnectedPacket(), ConnectedPacket()]
  {
    hide Encode, Valid, Streams;
    steps, v := JoinedEarly();
    steps, v := RunFurther(steps, v, BroadcastBegin(0));
    steps, v := RunFurther(steps, v, BroadcastNext);
    steps, v := RunFurther(steps, v, BroadcastNext);
    steps, v := RunFurther(steps, v, BroadcastEnd);
    assert Logged(v.clients[0]) == [ConnectedPacket()];
    NothingMissing(steps, v, 1, 0);
  }

  lemma CopyTaken(v: Server)
    requires Valid(v) && Enabled(v, RegisterCopy)
    ensures var r, s := |v.clients| - 1, v.lock.todo[0];
            var copies := CopyNext(v).clients[r].copies;
            && s < r && s in copies
            && if v.clients[s].phase.Reading? then copies[s].from == copies[s].upTo
               else copies[s].from == |v.clients[s].history| && copies[s].upTo == copies[s].from + 1
  {
  }

  /**
   A client has been notified if and only if it has something to be sent; and when its
   thread gets round to it, all is sent and the notifications are gone.
   */
  lemma NoLostWakeup(steps: seq<Step>, v: Server, id: nat)
    requires After(steps) == Some(v) && id < |v.clients|
    ensures v.clients[id].sbuffer != [] <==> v.clients[id].pipe > 0
    ensures v.clients[id].sbuffer != [] && v.clients[id].phase.Reading? && !Ready(v.clients[id].acc) ==>
              && Enabled(v, Flush(id))
              && var c := Next(v, Flush(id)).clients[id];
                 c.sent == Out(v.clients[id]) && c.sbuffer == [] && c.pipe == 0
  {
    assert Local(v.clients[id], id);
  }

  /** What goes out to a client is its handshake and then only tagged packets. */
  lemma HandshakeFirst(steps: seq<Step>, v: Server, id: nat)
    requires After(steps) == Some(v) && id < |v.clients|
    ensures Greeted(Out(v.clients[id]), id)
    ensures v.clients[id].sent != [] ==> Greeted(v.clients[id].sent, id)
  {
    hide After, Streams;
    var c := v.clients[id];
    assert Local(c, id);
    assert forall i :: 0 <= i < |c.sent| ==> c.sent[i] == Out(c)[i];
  }

  /** Once a thread waits for input, its history is the packets of everything its client has sent. */
  lemma HistoryIsInput(steps: seq<Step>, v: Server, id: nat)
    requires After(steps) == Some(v) && id < |v.clients| && v.clients[id].phase.Reading? && !Ready(v.clients[id].acc)
    ensures v.clients[id].history == Sections(v.clients[id].received)
    ensures v.clients[id].acc == Residue(v.clients[id].received)
  {
    var c := v.clients[id];
    assert Local(c, id);
    forall i | 0 <= i < |c.history|
      ensures WellFormed(c.history[i])
    {
      assert Broadcastable(c.history[i]);
    }
    SectionsOfFlatten(c.history, c.acc);
    assert c.history + [] == c.history;
  }

  /** The holder of the context mutex can always go on, and each turn leaves it less to do. */
  lemma HolderGoesOn(steps: seq<Step>, v: Server)
    requires After(steps) == Some(v) && !v.lock.Free?
    ensures exists step ::
      && step in [RegisterCopy, RegisterEnd, BroadcastNext, BroadcastEnd] && Enabled(v, step)
      && var lock := Next(v, step).lock; (lock.Free? || |lock.todo| == |v.lock.todo| - 1)
  {
    if v.lock.Registering? {
      assert Enabled(v, if v.lock.todo == [] then RegisterEnd else RegisterCopy);
    } else {
      var sender := v.clients[v.lock.sender];
      assert Local(sender, v.lock.sender);
      assert Enabled(v, if v.lock.todo == [] then BroadcastEnd else BroadcastNext);
    }
  }

  /**
   No thread has to wait for anything but the context mutex and its input: the main
   thread can register, start or accept, and each client's thread can go on.
   */
  lemma EveryThreadGoesOn(steps: seq<Step>, v: Server)
    requires After(steps) == Some(v)
    ensures v.lock.Free? && |v.list| < |v.clients| ==> Enabled(v, RegisterBegin)
    ensures |v.list| == |v.clients| ==> Enabled(v, Accept) || Enabled(v, StartThread)
    ensures forall id :: 0 <= id < |v.list| ==>
              var c := v.clients[id];
              && (v.lock.Free? && (c.phase.Starting? || c.phase.Pending?) ==> Enabled(v, BroadcastBegin(id)))
              && (c.phase.Reading? && Ready(c.acc) && Broadcastable(NextPacket(c.acc)) ==> Enabled(v, AppendHistory(id)))
              && (c.phase.Reading? && !Ready(c.acc) ==> forall chunk :: Enabled(v, Read(id, chunk)))
  {
    hide After, Streams, Encode;
    forall id | 0 <= id < |v.list| && v.clients[id].phase.Pending?
      ensures Ready(v.clients[id].acc)
    {
      assert Local(v.clients[id], id);
    }
  }

  // ---------------------------------------------------------------- the sectioning loop as it is written

  /**
   The steps that the code as written can take: a thread is back at its `select`, to
   read or to flush, only with at most two bytes left in its accumulator.
   */
  predicate Written(v: Server, step: Step)
    requires Shape(v)
  {
    Enabled(v, step) && (step.Read? || step.Flush? ==> |v.clients[step.id].acc| <= 2)
  }

  /** The loop as written turns for ever over an incomplete packet. */
  predicate Spins(c: Client) {
    c.phase.Reading? && |c.acc| > 2 && !Ready(c.acc)
  }

  /** In steps `k ..` of the run the code takes only the steps it can take as written. */
  ghost predicate WrittenFrom(steps: seq<Step>, k: nat) {
    forall i :: k <= i < |steps| ==>
      After(steps[..i]).Some? && Written(After(steps[..i]).value, steps[i])
  }

  lemma SpinningStep(v: Server, step: Step, id: nat)
    requires Valid(v) && Written(v, step) && id < |v.clients| && Spins(v.clients[id])
    ensures id < |Next(v, step).clients| && Spins(Next(v, step).clients[id])
    ensures Next(v, step).clients[id].sent == v.clients[id].sent
    ensures Next(v, step).clients[id].history == v.clients[id].history
  {
    hide Local, Locals, Threads, Encode;
  }

  /** From there on the thread of `id` reads and sends nothing any more, whatever the others do. */
  lemma {:induction false} SpinsForEver(steps: seq<Step>, k: nat, v: Server, w: Server, id: nat)
    requires k <= |steps| && After(steps[..k]) == Some(v) && After(steps) == Some(w) && WrittenFrom(steps, k)
    requires id < |v.clients| && Spins(v.clients[id])
    ensures id < |w.clients| && Spins(w.clients[id])
    ensures w.clients[id].sent == v.clients[id].sent && w.clients[id].history == v.clients[id].history
    decreases |steps| - k
  {
    hide Next, Spins, Enabled;
    if k < |steps| {
      assert Written(v, steps[k]);
      assert steps[..k + 1][..k] == steps[..k];
      SpinningStep(v, steps[k], id);
      AfterOneMore(steps[..k + 1], v);
      SpinsForEver(steps, k + 1, Next(v, steps[k]), w, id);
    } else {
      assert steps[..k] == steps;
    }
  }

  /** Three bytes of a handshake of seven make a thread spin. */
  lemma ThreeBytesOfSeven(v: Server, id: nat, n: int)
    requires Valid(v) && id < |v.clients| && v.clients[id].acc == [] && IsInt32(n)
    requires Written(v, Read(id, Encode(Handshake(n))[..3]))
    ensures Spins(Next(v, Read(id, Encode(Handshake(n))[..3])).clients[id])
  {
    EncodeWellFormed(Handshake(n));
  }

  /** A thread that has taken all whole packets out of its accumulator is back at its `select` if and only if it does not spin. */
  lemma BackAtSelect(v: Server, id: nat)
    requires Shape(v) && id < |v.clients| && v.clients[id].phase.Reading? && !Ready(v.clients[id].acc)
    ensures !Spins(v.clients[id]) <==> forall chunk :: Written(v, Read(id, chunk))
  {
    if |v.clients[id].acc| > 2 {
      assert !Written(v, Read(id, []));
    }
  }
}
