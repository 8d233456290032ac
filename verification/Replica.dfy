/**
 The rollback client shared by src/game_timewarp.c and
 src/game_fasteventordering.c. The two programs are the same loop; they differ
 in how far ahead a client files its own events and in the frame a remote
 event is executed in.

 The specification is the *log*: what the player pressed and what packets were
 retrieved in each frame. From it `Filed` says which events every frame must
 hold, and `StateAt` replays them from the initial state. `Client` is proved to
 keep its traces equal to that, although it only ever repairs them.
 */
module Replicas {
  import opened Options
  import opened Balls
  import opened BallsLaws
  import opened EvVecs
  import opened Packets

  datatype Protocol = Timewarp(localLag: nat) | FastEventOrdering(delays: seq<int>)

  /**
   A client's id, its row of the simulated network lags, its protocol (with its row
   of the delays), and the room of a slot of its traces: how many events it takes
   before a growth moves it (`EvVecs.Room`).
   */
  datatype Config = Config(player: nat, lags: seq<int>, protocol: Protocol, room: nat)

  datatype Key = Key(button: schar, pressed: schar)

  /** What happens to a client during one frame. */
  datatype Input = Input(keys: seq<Key>, packets: seq<Packet>)

  predicate ValidConfig(cfg: Config) {
    && cfg.player < MAX_PLAYERS && |cfg.lags| == MAX_PLAYERS && cfg.room >= SLOT_SIZE
    && (cfg.protocol.FastEventOrdering? ==>
          |cfg.protocol.delays| == MAX_PLAYERS && cfg.protocol.delays[cfg.player] >= 0)
  }

  // ---------------------------------------------------------------- the frames of an event

  function OwnDelay(cfg: Config): (d: int)
    requires ValidConfig(cfg)
    ensures d >= 0
  {
    match cfg.protocol
    case Timewarp(localLag) => localLag
    case FastEventOrdering(delays) => delays[cfg.player]
  }

  predicate KnownPlayer(e: Event) {
    0 <= e.player < MAX_PLAYERS
  }

  /** Timewarp executes a remote event when its sender says, fast event ordering when the delays say. */
  function ExecFrame(cfg: Config, e: Event): int
    requires ValidConfig(cfg)
  {
    if cfg.protocol.FastEventOrdering? && KnownPlayer(e) then e.summonFrame + cfg.protocol.delays[e.player] else e.frame
  }

  function Rewritten(cfg: Config, e: Event): Event
    requires ValidConfig(cfg)
  {
    e.(frame := ExecFrame(cfg, e))
  }

  /** The frame in which an event received in frame `arrival` leaves the hold queue. */
  function HoldFrame(cfg: Config, arrival: int, e: Event): (q: int)
    requires ValidConfig(cfg)
    ensures q >= arrival
  {
    var lag := if KnownPlayer(e) then cfg.lags[e.player] else 0;
    if lag == 0 || e.summonFrame + lag < arrival then arrival else e.summonFrame + lag
  }

  // ---------------------------------------------------------------- the same, said of any event and frame

  /** Event `e` is the received `x` as it is executed: unchanged in timewarp, in the frame of the delays otherwise. */
  predicate Executes(cfg: Config, x: Event, e: Event)
    requires ValidConfig(cfg)
  {
    match cfg.protocol
    case Timewarp(_) => e == x
    case FastEventOrdering(delays) =>
      e == if KnownPlayer(x) then x.(frame := x.summonFrame + delays[x.player]) else x
  }

  /** Without a lag an event waits for no frame but that of its arrival, with one for the later of that and the lag's end. */
  predicate Waits(cfg: Config, arrival: int, x: Event, q: int)
    requires ValidConfig(cfg)
  {
    if !KnownPlayer(x) || cfg.lags[x.player] == 0 then q == arrival
    else
      var end := x.summonFrame + cfg.lags[x.player];
      q >= arrival && q >= end && (q == arrival || q == end)
  }

  /** By frame `now` an event has arrived and its simulated lag is over. */
  predicate DueBy(cfg: Config, arrival: int, x: Event, now: int)
    requires ValidConfig(cfg)
  {
    arrival <= now && (KnownPlayer(x) && cfg.lags[x.player] != 0 ==> x.summonFrame + cfg.lags[x.player] <= now)
  }

  /** Event `e` was summoned by the player itself in frame `s`: its connection, or a key. */
  predicate SummonedIn(cfg: Config, log: seq<Input>, s: int, e: Event)
    requires ValidConfig(cfg)
  {
    && e.summonFrame == s && e.player == cfg.player
    && e.frame == s + (if cfg.protocol.Timewarp? then cfg.protocol.localLag else cfg.protocol.delays[cfg.player])
    && ((s == 1 && e.button == 4 && e.pressed == 1)
        || (1 <= s <= |log| && Key(e.button, e.pressed) in log[s - 1].keys))
  }

  // ---------------------------------------------------------------- what the log says

  function Received(packets: seq<Packet>): seq<Event> {
    if packets == [] then []
    else
      var p := packets[|packets| - 1].payload;
      Received(packets[..|packets| - 1]) + (if p.Some? && p.value.EventPayload? then [p.value.event] else [])
  }

  /** Event `x` was retrieved in frame `a`. */
  predicate ReceivedIn(log: seq<Input>, a: int, x: Event) {
    1 <= a <= |log| && x in Received(log[a - 1].packets)
  }

  /** The received events are the payloads of the EVENT packets. */
  lemma {:induction false} ReceivedMembers(packets: seq<Packet>, x: Event)
    ensures x in Received(packets) <==> exists p :: p in packets && p.payload == Some(EventPayload(x))
  {
    if packets != [] {
      var n := |packets| - 1;
      ReceivedMembers(packets[..n], x);
      assert packets == packets[..n] + [packets[n]];
      assert forall p :: p in packets <==> p in packets[..n] || p == packets[n];
    }
  }

  predicate LegalKey(k: Key) {
    0 <= k.button < N_BUTTONS && 0 <= k.pressed <= 1
  }

  predicate LegalKeys(log: seq<Input>) {
    forall i, j :: 0 <= i < |log| && 0 <= j < |log[i].keys| ==> LegalKey(log[i].keys[j])
  }

  /** Remote events come from known players and execute in frame 1 or later. */
  predicate LegalInput(cfg: Config, input: Input)
    requires ValidConfig(cfg)
  {
    && (forall i :: 0 <= i < |input.keys| ==> LegalKey(input.keys[i]))
    && (forall e :: e in Received(input.packets) ==> KnownPlayer(e) && ExecFrame(cfg, e) >= 1)
  }

  predicate LegalLog(cfg: Config, log: seq<Input>)
    requires ValidConfig(cfg)
  {
    forall i :: 0 <= i < |log| ==> LegalInput(cfg, log[i])
  }

  /** The events that become due in frame `q` among those received in frame `arrival`. */
  function Due(cfg: Config, evs: seq<Event>, arrival: int, q: int): seq<Event>
    requires ValidConfig(cfg)
  {
    if evs == [] then []
    else
      var e := evs[|evs| - 1];
      Due(cfg, evs[..|evs| - 1], arrival, q) + (if HoldFrame(cfg, arrival, e) == q then [Rewritten(cfg, e)] else [])
  }

  /** Everything ever received that becomes due in frame `q`. */
  function Held(cfg: Config, log: seq<Input>, q: int): seq<Event>
    requires ValidConfig(cfg)
  {
    if log == [] then []
    else Held(cfg, log[..|log| - 1], q) + Due(cfg, Received(log[|log| - 1].packets), |log|, q)
  }

  /** The events for frame `k` that are due by frame `now`, among those received in frame `arrival`. */
  function Ripe(cfg: Config, evs: seq<Event>, arrival: int, now: int, k: int): seq<Event>
    requires ValidConfig(cfg)
  {
    if evs == [] then []
    else
      var e := evs[|evs| - 1];
      Ripe(cfg, evs[..|evs| - 1], arrival, now, k)
      + (if HoldFrame(cfg, arrival, e) <= now && ExecFrame(cfg, e) == k then [Rewritten(cfg, e)] else [])
  }

  /** Everything received for frame `k` and due by frame `now`: each received event once. */
  function Delivered(cfg: Config, log: seq<Input>, now: int, k: int): seq<Event>
    requires ValidConfig(cfg)
  {
    if log == [] then []
    else Delivered(cfg, log[..|log| - 1], now, k) + Ripe(cfg, Received(log[|log| - 1].packets), |log|, now, k)
  }

  function KeyEvents(cfg: Config, s: int, keys: seq<Key>): seq<Event>
    requires ValidConfig(cfg)
  {
    seq(|keys|, i requires 0 <= i < |keys| =>
      Event(s + OwnDelay(cfg), s, cfg.player, keys[i].button, keys[i].pressed))
  }

  function ConnectEvent(cfg: Config): Event
    requires ValidConfig(cfg)
  {
    Event(1 + OwnDelay(cfg), 1, cfg.player, N_BUTTONS, 1)
  }

  /** The events the client itself summons in frame `s`: its connection first of all, then its keys. */
  function OwnEvents(cfg: Config, log: seq<Input>, s: int): seq<Event>
    requires ValidConfig(cfg)
  {
    (if s == 1 then [ConnectEvent(cfg)] else [])
    + (if 1 <= s <= |log| then KeyEvents(cfg, s, log[s - 1].keys) else [])
  }

  /** What frame `k` must hold after the log. */
  function Filed(cfg: Config, log: seq<Input>, k: int): seq<Event>
    requires ValidConfig(cfg)
  {
    OwnEvents(cfg, log, k - OwnDelay(cfg)) + Delivered(cfg, log, |log|, k)
  }

  ghost function Slots(cfg: Config, log: seq<Input>, k: nat): (slots: seq<set<Action>>)
    requires ValidConfig(cfg)
    ensures |slots| == k
  {
    seq(k, i => Actions(Filed(cfg, log, i + 1)))
  }

  /** The state of frame `k`: a replay from scratch of everything filed up to `k`. */
  ghost function StateAt(cfg: Config, log: seq<Input>, k: nat): State
    requires ValidConfig(cfg)
  {
    Replay(Slots(cfg, log, k))
  }

  /** Of the frames of the held events and the present one, `m` is the oldest: where the rollback starts. */
  predicate OldestTouched(m: int, now: int, held: seq<Event>) {
    && m <= now && (forall e :: e in held ==> m <= e.frame)
    && (m == now || exists e :: e in held && e.frame == m)
  }

  /** No slot has ever been given more events than it can take without being moved away from its trace. */
  ghost predicate SlotsFit(cfg: Config, log: seq<Input>)
    requires ValidConfig(cfg)
  {
    && (forall k :: |Filed(cfg, log, k)| <= cfg.room)
    && (forall q :: |Held(cfg, log, q)| <= cfg.room)
  }

  // ---------------------------------------------------------------- how a log grows

  function For(evs: seq<Event>, k: int): seq<Event> {
    if evs == [] then []
    else For(evs[..|evs| - 1], k) + (if evs[|evs| - 1].frame == k then [evs[|evs| - 1]] else [])
  }

  lemma {:induction false} ForConcat(a: seq<Event>, b: seq<Event>, k: int)
    ensures For(a + b, k) == For(a, k) + For(b, k)
  {
    if b == [] {
      assert a + b == a;
    } else {
      var n := |b| - 1;
      assert (a + b)[..|a| + n] == a + b[..n];
      ForConcat(a, b[..n], k);
    }
  }

  lemma ForOne(e: Event, k: int)
    ensures For([e], k) == if e.frame == k then [e] else []
  {
  }

  lemma {:induction false} ForCount(evs: seq<Event>, k: int, e: Event)
    ensures multiset(For(evs, k))[e] == if e.frame == k then multiset(evs)[e] else 0
  {
    if evs != [] {
      var n := |evs| - 1;
      assert evs == evs[..n] + [evs[n]];
      ForCount(evs[..n], k, e);
    }
  }

  /** Which events are for frame `k` does not depend on their order. */
  lemma ForMultiset(a: seq<Event>, b: seq<Event>, k: int)
    requires multiset(a) == multiset(b)
    ensures multiset(For(a, k)) == multiset(For(b, k))
  {
    forall e
      ensures multiset(For(a, k))[e] == multiset(For(b, k))[e]
    {
      ForCount(a, k, e);
      ForCount(b, k, e);
    }
  }

  lemma {:induction false} DueFor(cfg: Config, evs: seq<Event>, arrival: int, now: int, k: int)
    requires ValidConfig(cfg) && evs != []
    ensures var e := evs[|evs| - 1];
            For(Due(cfg, evs, arrival, now), k) == For(Due(cfg, evs[..|evs| - 1], arrival, now), k)
              + (if HoldFrame(cfg, arrival, e) == now && ExecFrame(cfg, e) == k then [Rewritten(cfg, e)] else [])
  {
    var e := evs[|evs| - 1];
    var front := Due(cfg, evs[..|evs| - 1], arrival, now);
    if HoldFrame(cfg, arrival, e) == now {
      ForConcat(front, [Rewritten(cfg, e)], k);
      ForOne(Rewritten(cfg, e), k);
    } else {
      assert front + [] == front;
    }
  }

  lemma {:induction false} RipeStep(cfg: Config, evs: seq<Event>, arrival: int, now: int, k: int)
    requires ValidConfig(cfg)
    ensures multiset(Ripe(cfg, evs, arrival, now, k))
         == multiset(Ripe(cfg, evs, arrival, now - 1, k)) + multiset(For(Due(cfg, evs, arrival, now), k))
  {
    if evs != [] {
      RipeStep(cfg, evs[..|evs| - 1], arrival, now, k);
      DueFor(cfg, evs, arrival, now, k);
    }
  }

  lemma {:induction false} NothingRipeBeforeArrival(cfg: Config, evs: seq<Event>, arrival: int, k: int)
    requires ValidConfig(cfg)
    ensures Ripe(cfg, evs, arrival, arrival - 1, k) == []
  {
    if evs != [] { NothingRipeBeforeArrival(cfg, evs[..|evs| - 1], arrival, k); }
  }

  /** One more frame delivers exactly what was held for it. */
  lemma {:induction false} DeliveredStep(cfg: Config, log: seq<Input>, now: int, k: int)
    requires ValidConfig(cfg)
    ensures multiset(Delivered(cfg, log, now, k))
         == multiset(Delivered(cfg, log, now - 1, k)) + multiset(For(Held(cfg, log, now), k))
  {
    if log != [] {
      var n := |log| - 1;
      var evs := Received(log[n].packets);
      DeliveredStep(cfg, log[..n], now, k);
      RipeStep(cfg, evs, |log|, now, k);
      ForConcat(Held(cfg, log[..n], now), Due(cfg, evs, |log|, now), k);
    }
  }

  /** What the keys of the frame after `log` add to slot `k`. */
  function NewOwn(cfg: Config, log: seq<Input>, input: Input, k: int): seq<Event>
    requires ValidConfig(cfg)
  {
    if k == |log| + 1 + OwnDelay(cfg) then KeyEvents(cfg, |log| + 1, input.keys) else []
  }

  lemma OwnEventSummoned(cfg: Config, log: seq<Input>, s: int, e: Event)
    requires ValidConfig(cfg) && e in OwnEvents(cfg, log, s)
    ensures s >= 1 && e.player == cfg.player && e.summonFrame == s && e.frame == s + OwnDelay(cfg)
  {
  }

  /** Frames that are over do not change any more. */
  lemma OwnEventsStay(cfg: Config, log: seq<Input>, input: Input, s: int)
    requires ValidConfig(cfg)
    ensures s != |log| + 1 ==> OwnEvents(cfg, log + [input], s) == OwnEvents(cfg, log, s)
    ensures s == |log| + 1 ==> OwnEvents(cfg, log + [input], s) == OwnEvents(cfg, log, s) + KeyEvents(cfg, s, input.keys)
  {
    hide KeyEvents, ConnectEvent;
    if 1 <= s <= |log| {
      assert (log + [input])[s - 1] == log[s - 1];
    }
  }

  /** The events a client summons are its connection and its keys, stamped for `OwnDelay` frames later, and no others. */
  lemma OwnMembers(cfg: Config, log: seq<Input>, s: int, e: Event)
    requires ValidConfig(cfg)
    ensures e in OwnEvents(cfg, log, s) <==> SummonedIn(cfg, log, s, e)
  {
    if 1 <= s <= |log| {
      var keys, evs := log[s - 1].keys, KeyEvents(cfg, s, log[s - 1].keys);
      if SummonedIn(cfg, log, s, e) && Key(e.button, e.pressed) in keys {
        var j :| 0 <= j < |keys| && keys[j] == Key(e.button, e.pressed);
        assert evs[j] == e;
      }
    }
  }

  lemma OwnStep(cfg: Config, log: seq<Input>, input: Input, k: int)
    requires ValidConfig(cfg)
    ensures OwnEvents(cfg, log + [input], k - OwnDelay(cfg))
            == OwnEvents(cfg, log, k - OwnDelay(cfg)) + NewOwn(cfg, log, input, k)
  {
    hide KeyEvents, OwnEvents;
    OwnEventsStay(cfg, log, input, k - OwnDelay(cfg));
    assert OwnEvents(cfg, log, k - OwnDelay(cfg)) + [] == OwnEvents(cfg, log, k - OwnDelay(cfg));
  }

  lemma DeliveredNow(cfg: Config, log: seq<Input>, input: Input, k: int)
    requires ValidConfig(cfg)
    ensures multiset(Delivered(cfg, log + [input], |log| + 1, k))
            == multiset(Delivered(cfg, log, |log|, k)) + multiset(For(Held(cfg, log + [input], |log| + 1), k))
  {
    hide For, Ripe, Held;
    var f := |log| + 1;
    var log' := log + [input];
    assert log'[..|log|] == log;
    DeliveredStep(cfg, log', f, k);
    NothingRipeBeforeArrival(cfg, Received(input.packets), f, k);
    assert Delivered(cfg, log', f - 1, k) == Delivered(cfg, log, f - 1, k) + [];
  }

  /** The keys of a frame file their events in the slot `OwnDelay` frames ahead, the merge those that were held. */
  lemma FiledStep(cfg: Config, log: seq<Input>, input: Input, k: int)
    requires ValidConfig(cfg)
    ensures multiset(Filed(cfg, log + [input], k))
            == multiset(Filed(cfg, log, k)) + multiset(NewOwn(cfg, log, input, k))
             + multiset(For(Held(cfg, log + [input], |log| + 1), k))
  {
    hide Delivered, OwnEvents, For, Held, NewOwn;
    OwnStep(cfg, log, input, k);
    DeliveredNow(cfg, log, input, k);
  }

  // ---------------------------------------------------------------- what is filed is legal

  /** The frames that the model computes are those rules. */
  lemma SameRules(cfg: Config, arrival: int, x: Event, e: Event, q: int)
    requires ValidConfig(cfg)
    ensures HoldFrame(cfg, arrival, x) == q <==> Waits(cfg, arrival, x, q)
    ensures HoldFrame(cfg, arrival, x) <= q <==> DueBy(cfg, arrival, x, q)
    ensures e == Rewritten(cfg, x) <==> Executes(cfg, x, e)
    ensures ExecFrame(cfg, x) == Rewritten(cfg, x).frame
  {
  }

  lemma {:induction false} RipeMembers(cfg: Config, evs: seq<Event>, arrival: int, now: int, k: int, e: Event)
    requires ValidConfig(cfg)
    ensures e in Ripe(cfg, evs, arrival, now, k) <==>
              exists x :: x in evs && DueBy(cfg, arrival, x, now) && Executes(cfg, x, e) && e.frame == k
  {
    hide HoldFrame, ExecFrame, Rewritten, Waits, DueBy, Executes, ValidConfig;
    if evs != [] {
      var n := |evs| - 1;
      SameRules(cfg, arrival, evs[n], e, now);
      RipeMembers(cfg, evs[..n], arrival, now, k, e);
      assert forall x :: x in evs <==> x in evs[..n] || x == evs[n];
    }
  }

  /** An event is in frame `k` because it was received, in some frame, and is due. */
  ghost predicate DeliveredFrom(cfg: Config, log: seq<Input>, now: int, k: int, e: Event, a: int, x: Event)
    requires ValidConfig(cfg)
  {
    && 1 <= a <= |log| && x in Received(log[a - 1].packets)
    && DueBy(cfg, a, x, now) && Executes(cfg, x, e) && e.frame == k
  }

  lemma {:induction false} DeliveredMembers(cfg: Config, log: seq<Input>, now: int, k: int, e: Event)
    requires ValidConfig(cfg)
    ensures e in Delivered(cfg, log, now, k) <==> exists a, x :: DeliveredFrom(cfg, log, now, k, e, a, x)
  {
    hide HoldFrame, ExecFrame, Rewritten, Waits, DueBy, Executes, ValidConfig, Ripe;
    if log != [] {
      var n := |log| - 1;
      DeliveredMembers(cfg, log[..n], now, k, e);
      var evs := Received(log[n].packets);
      RipeMembers(cfg, evs, |log|, now, k, e);
      if e in Ripe(cfg, evs, |log|, now, k) {
        var x :| x in evs && DueBy(cfg, |log|, x, now) && Executes(cfg, x, e) && e.frame == k;
        assert DeliveredFrom(cfg, log, now, k, e, |log|, x);
      }
      if a, x :| DeliveredFrom(cfg, log[..n], now, k, e, a, x) {
        assert DeliveredFrom(cfg, log, now, k, e, a, x);
      }
      if a, x :| DeliveredFrom(cfg, log, now, k, e, a, x) {
        if a < |log| {
          assert DeliveredFrom(cfg, log[..n], now, k, e, a, x);
        }
      }
    }
  }

  lemma FiledLegal(cfg: Config, log: seq<Input>, k: int, e: Event)
    requires ValidConfig(cfg) && LegalLog(cfg, log) && e in Filed(cfg, log, k)
    ensures Legal(e) && KnownPlayer(e) && e.frame == k
  {
    if e in Delivered(cfg, log, |log|, k) {
      DeliveredMembers(cfg, log, |log|, k, e);
      var a, x :| DeliveredFrom(cfg, log, |log|, k, e, a, x);
      assert LegalInput(cfg, log[a - 1]);
    } else {
      var s := k - OwnDelay(cfg);
      if 1 <= s <= |log| {
        assert LegalInput(cfg, log[s - 1]);
      }
    }
  }

  lemma SlotsLegal(cfg: Config, log: seq<Input>, k: nat)
    requires ValidConfig(cfg) && LegalLog(cfg, log)
    ensures LegalScript(Slots(cfg, log, k))
  {
    hide Filed, LegalLog;
    forall i, a | 0 <= i < k && a in Slots(cfg, log, k)[i]
      ensures a.button == N_BUTTONS ==> 0 <= a.player < MAX_PLAYERS
    {
      assert a in Actions(Filed(cfg, log, i + 1));
      var e :| e in Filed(cfg, log, i + 1) && ActionOf(e) == a;
      FiledLegal(cfg, log, i + 1, e);
    }
  }

  lemma {:induction false} DueMembers(cfg: Config, evs: seq<Event>, arrival: int, q: int, e: Event)
    requires ValidConfig(cfg)
    ensures e in Due(cfg, evs, arrival, q) <==>
              exists x :: x in evs && Waits(cfg, arrival, x, q) && Executes(cfg, x, e)
  {
    hide HoldFrame, ExecFrame, Rewritten, Waits, DueBy, Executes, ValidConfig;
    if evs != [] {
      var n := |evs| - 1;
      SameRules(cfg, arrival, evs[n], e, q);
      DueMembers(cfg, evs[..n], arrival, q, e);
      assert forall x :: x in evs <==> x in evs[..n] || x == evs[n];
    }
  }

  ghost predicate HeldFrom(cfg: Config, log: seq<Input>, q: int, e: Event, a: int, x: Event)
    requires ValidConfig(cfg)
  {
    1 <= a <= |log| && x in Received(log[a - 1].packets) && Waits(cfg, a, x, q) && Executes(cfg, x, e)
  }

  lemma {:induction false} HeldMembers(cfg: Config, log: seq<Input>, q: int, e: Event)
    requires ValidConfig(cfg)
    ensures e in Held(cfg, log, q) <==> exists a, x :: HeldFrom(cfg, log, q, e, a, x)
  {
    hide HoldFrame, ExecFrame, Rewritten, Waits, DueBy, Executes, ValidConfig, Due;
    if log != [] {
      var n := |log| - 1;
      HeldMembers(cfg, log[..n], q, e);
      var evs := Received(log[n].packets);
      DueMembers(cfg, evs, |log|, q, e);
      if e in Due(cfg, evs, |log|, q) {
        var x :| x in evs && Waits(cfg, |log|, x, q) && Executes(cfg, x, e);
        assert HeldFrom(cfg, log, q, e, |log|, x);
      }
      if a, x :| HeldFrom(cfg, log[..n], q, e, a, x) {
        assert HeldFrom(cfg, log, q, e, a, x);
      }
      if a, x :| HeldFrom(cfg, log, q, e, a, x) {
        if a < |log| {
          assert HeldFrom(cfg, log[..n], q, e, a, x);
        }
      }
    }
  }

  lemma HeldLegal(cfg: Config, log: seq<Input>, q: int, e: Event)
    requires ValidConfig(cfg) && LegalLog(cfg, log) && e in Held(cfg, log, q)
    ensures e.frame >= 1
  {
    HeldMembers(cfg, log, q, e);
    var a, x :| HeldFrom(cfg, log, q, e, a, x);
    assert LegalInput(cfg, log[a - 1]);
  }

  /** In the slots of a legal log the event order never overflows: the C comparison is `Compare`. */
  lemma SlotsCompareFits(cfg: Config, log: seq<Input>, k: int, a: Event, b: Event)
    requires ValidConfig(cfg) && LegalLog(cfg, log) && a in Filed(cfg, log, k) && b in Filed(cfg, log, k)
    ensures CompareInt32(a, b) == Compare(a, b)
  {
    hide Filed, LegalLog;
    FiledLegal(cfg, log, k, a);
    FiledLegal(cfg, log, k, b);
    CompareFits(a, b);
  }

  // ---------------------------------------------------------------- the room that a run needs

  function KeyCount(log: seq<Input>): nat {
    if log == [] then 0 else KeyCount(log[..|log| - 1]) + |log[|log| - 1].keys|
  }

  function ReceivedCount(log: seq<Input>): nat {
    if log == [] then 0 else ReceivedCount(log[..|log| - 1]) + |Received(log[|log| - 1].packets)|
  }

  lemma {:induction false} KeysCounted(log: seq<Input>, i: nat)
    requires i < |log|
    ensures |log[i].keys| <= KeyCount(log)
  {
    if i < |log| - 1 { KeysCounted(log[..|log| - 1], i); }
  }

  lemma {:induction false} RipeAtMost(cfg: Config, evs: seq<Event>, arrival: int, now: int, k: int)
    requires ValidConfig(cfg)
    ensures |Ripe(cfg, evs, arrival, now, k)| <= |evs| && |Due(cfg, evs, arrival, k)| <= |evs|
  {
    if evs != [] { RipeAtMost(cfg, evs[..|evs| - 1], arrival, now, k); }
  }

  lemma {:induction false} ReceivedAtMost(cfg: Config, log: seq<Input>, now: int, k: int)
    requires ValidConfig(cfg)
    ensures |Delivered(cfg, log, now, k)| <= ReceivedCount(log) && |Held(cfg, log, k)| <= ReceivedCount(log)
  {
    if log != [] {
      var n := |log| - 1;
      ReceivedAtMost(cfg, log[..n], now, k);
      RipeAtMost(cfg, Received(log[n].packets), |log|, now, k);
    }
  }

  /** Every run fits where the allocator leaves its slots room enough: what was pressed and received bounds what is needed. */
  lemma RoomIsEnough(cfg: Config, log: seq<Input>)
    requires ValidConfig(cfg) && 1 + KeyCount(log) + ReceivedCount(log) <= cfg.room
    ensures SlotsFit(cfg, log)
  {
    hide Delivered, Held, Received;
    forall k
      ensures |Filed(cfg, log, k)| <= cfg.room && |Held(cfg, log, k)| <= cfg.room
    {
      ReceivedAtMost(cfg, log, |log|, k);
      var s := k - OwnDelay(cfg);
      if 1 <= s <= |log| { KeysCounted(log, s - 1); }
    }
  }

  lemma {:induction false} AllDueNow(cfg: Config, evs: seq<Event>, now: int)
    requires ValidConfig(cfg) && forall e :: e in evs ==> HoldFrame(cfg, now, e) == now
    ensures |Due(cfg, evs, now, now)| == |evs|
  {
    if evs != [] {
      var n := |evs| - 1;
      assert forall e :: e in evs[..n] ==> e in evs;
      AllDueNow(cfg, evs[..n], now);
      assert evs[n] in evs;
    }
  }

  /**
   And some do not: a client that retrieves more events in one frame than a slot has
   room for, all of them due at once, as a late joiner does with a longer history.
   */
  lemma LongHistoryDoesNotFit(cfg: Config, log: seq<Input>)
    requires ValidConfig(cfg) && log != []
    requires var evs := Received(log[|log| - 1].packets);
             |evs| > cfg.room && forall e :: e in evs ==> HoldFrame(cfg, |log|, e) == |log|
    ensures !SlotsFit(cfg, log)
  {
    AllDueNow(cfg, Received(log[|log| - 1].packets), |log|);
    assert |Held(cfg, log, |log|)| > cfg.room;
  }
}
