/**
 Dead reckoning: the client of src/game_deadreckoning.c, which loads delayed
 snapshots of the server's state and goes on from them with its own events, and
 the authoritative server of src/dr_server.c.
 */
module DeadReckoning {
  import opened Options
  import opened Balls
  import opened BallsLaws
  import opened Packets
  import opened Replicas
  import opened Rollback
  import opened StaleCounts

  // ---------------------------------------------------------------- what a client has to go on

  /** The states among some packets. */
  function States(packets: seq<Packet>): seq<State> {
    if packets == [] then []
    else
      var p := packets[|packets| - 1].payload;
      States(packets[..|packets| - 1]) + (if p.Some? && p.value.StatePayload? then [p.value.state] else [])
  }

  lemma {:induction false} StatesMembers(packets: seq<Packet>, st: State)
    ensures st in States(packets) <==> exists p :: p in packets && p.payload == Some(StatePayload(st))
  {
    if packets != [] {
      var n := |packets| - 1;
      StatesMembers(packets[..n], st);
      assert packets == packets[..n] + [packets[n]];
      assert forall p :: p in packets <==> p in packets[..n] || p == packets[n];
    }
  }

  function Snapshots(log: seq<Input>): seq<State> {
    if log == [] then []
    else Snapshots(log[..|log| - 1]) + States(log[|log| - 1].packets)
  }

  /** A received state gives every ball to a player that there is, or to none. */
  predicate LegalStates(states: seq<State>) {
    forall i :: 0 <= i < |states| ==> OwnersInRange(states[i].balls)
  }

  /** What the client's own events do that are stamped for frame `i`: those the server is to consume in its step `i`. */
  ghost function StampedFor(cfg: Config, log: seq<Input>, i: int): set<Action>
    requires ValidConfig(cfg)
  {
    set s, e | 1 <= s <= 1 + |log| && e in OwnEvents(cfg, log, s) && e.frame == i :: ActionOf(e)
  }

  /** These are the events summoned the local lag before. */
  lemma StampedIsSummoned(cfg: Config, log: seq<Input>, i: int)
    requires ValidConfig(cfg)
    ensures StampedFor(cfg, log, i) == Actions(OwnEvents(cfg, log, i - OwnDelay(cfg)))
  {
    hide OwnEvents;
    forall act | act in StampedFor(cfg, log, i)
      ensures act in Actions(OwnEvents(cfg, log, i - OwnDelay(cfg)))
    {
      var s, e :| 1 <= s <= 1 + |log| && e in OwnEvents(cfg, log, s) && e.frame == i && ActionOf(e) == act;
      OwnEventSummoned(cfg, log, s, e);
    }
    var s := i - OwnDelay(cfg);
    forall e | e in OwnEvents(cfg, log, s)
      ensures ActionOf(e) in StampedFor(cfg, log, i)
    {
      OwnEventSummoned(cfg, log, s, e);
      NotYetSummoned(cfg, log, e);
    }
  }

  /** From `base` to frame `f` on the client's own events. */
  ghost function Predicted(cfg: Config, log: seq<Input>, base: State, f: int): State
    requires ValidConfig(cfg) && base.frame <= f
    decreases f - base.frame
  {
    if f == base.frame then base else Advance(Predicted(cfg, log, base, f - 1), StampedFor(cfg, log, f - 1))
  }

  lemma {:induction false} PredictedFrame(cfg: Config, log: seq<Input>, base: State, f: int)
    requires ValidConfig(cfg) && base.frame <= f
    ensures Predicted(cfg, log, base, f).frame == f
    decreases f - base.frame
  {
    hide AdvanceWorld, StampedFor;
    if f > base.frame { PredictedFrame(cfg, log, base, f - 1); }
  }

  lemma {:induction false} PredictionStays(cfg: Config, log: seq<Input>, input: Input, base: State, f: int)
    requires ValidConfig(cfg) && base.frame <= f <= |log| + 1
    ensures Predicted(cfg, log + [input], base, f) == Predicted(cfg, log, base, f)
    decreases f - base.frame
  {
    hide OwnEvents, Advance, StampedFor;
    if f > base.frame {
      PredictionStays(cfg, log, input, base, f - 1);
      StampedIsSummoned(cfg, log, f - 1);
      StampedIsSummoned(cfg, log + [input], f - 1);
      OwnEventsStay(cfg, log, input, f - 1 - OwnDelay(cfg));
    }
  }

  lemma LegalKeysGrow(log: seq<Input>, input: Input)
    requires LegalKeys(log) && LegalKeys([input])
    ensures LegalKeys(log + [input])
  {
    forall i, j | 0 <= i < |log| + 1 && 0 <= j < |(log + [input])[i].keys|
      ensures LegalKey((log + [input])[i].keys[j])
    {
      if i == |log| { assert [input][0] == input; }
    }
  }

  lemma OwnEventsLegal(cfg: Config, log: seq<Input>, s: int, slot: seq<Event>)
    requires ValidConfig(cfg) && LegalKeys(log) && multiset(slot) == multiset(OwnEvents(cfg, log, s))
    ensures forall e :: e in slot ==> Legal(e)
  {
    forall e | e in slot
      ensures Legal(e)
    {
      assert e in multiset(slot) && e in OwnEvents(cfg, log, s);
    }
  }

  /** Up to the order within a frame, the trace has the own events of each frame. */
  ghost predicate Keeps(cfg: Config, log: seq<Input>, t: Trace)
    requires ValidConfig(cfg)
  {
    forall s {:trigger Slot(t, s)} :: multiset(Slot(t, s)) == multiset(OwnEvents(cfg, log, s))
  }

  /** From slot `s` on the traces are the same. */
  ghost predicate SameFrom(t: Trace, t': Trace, s: int) {
    forall k {:trigger Slot(t', k)} :: k >= s ==> Slot(t', k) == Slot(t, k)
  }

  lemma KeepsOneSlot(cfg: Config, log: seq<Input>, t: Trace, t': Trace, s: int)
    requires ValidConfig(cfg) && Keeps(cfg, log, t)
    requires multiset(Slot(t', s)) == multiset(OwnEvents(cfg, log, s)) && forall k :: k != s ==> Slot(t', k) == Slot(t, k)
    ensures Keeps(cfg, log, t')
  {
    hide OwnEvents, Slot;
    forall k
      ensures multiset(Slot(t', k)) == multiset(OwnEvents(cfg, log, k))
    {
      assert multiset(Slot(t, k)) == multiset(OwnEvents(cfg, log, k));
    }
  }

  lemma KeepsFiled(cfg: Config, log: seq<Input>, input: Input, t: Trace, t': Trace)
    requires ValidConfig(cfg) && Keeps(cfg, log, t) && Slot(t, |log| + 1) == OwnEvents(cfg, log, |log| + 1)
    requires SlotExtended(t, t', |log| + 1, KeyEvents(cfg, |log| + 1, input.keys))
    ensures Keeps(cfg, log + [input], t') && Slot(t', |log| + 1) == OwnEvents(cfg, log + [input], |log| + 1)
  {
    hide OwnEvents, Slot, KeyEvents;
    OwnEventsStay(cfg, log, input, |log| + 1);
    forall k
      ensures multiset(Slot(t', k)) == multiset(OwnEvents(cfg, log + [input], k))
    {
      OwnEventsStay(cfg, log, input, k);
      assert multiset(Slot(t, k)) == multiset(OwnEvents(cfg, log, k));
    }
  }

  lemma RoomForPressed(cfg: Config, log: seq<Input>, input: Input)
    requires ValidConfig(cfg)
    ensures |OwnEvents(cfg, log + [input], |log| + 1)| == |OwnEvents(cfg, log, |log| + 1)| + |input.keys|
  {
  }

  lemma KeepsNothing(cfg: Config)
    requires ValidConfig(cfg)
    ensures Keeps(cfg, [], map[1 := [ConnectEvent(cfg)]])
    ensures OwnEvents(cfg, [], 1) == [ConnectEvent(cfg)]
  {
    hide ConnectEvent;
  }

  /** The client has no events of frame 0 and before. */
  lemma NothingBefore(cfg: Config, log: seq<Input>, s: int, slot: seq<Event>)
    requires ValidConfig(cfg) && multiset(slot) == multiset(OwnEvents(cfg, log, s))
    ensures s < 0 ==> slot == []
  {
    if s < 0 {
      assert OwnEvents(cfg, log, s) == [];
      assert |multiset(slot)| == |slot|;
    }
  }

  lemma NothingYet(cfg: Config, log: seq<Input>, t: Trace)
    requires ValidConfig(cfg) && log != [] && Keeps(cfg, log, t)
    ensures Slot(t, |log| + 1) == OwnEvents(cfg, log, |log| + 1)
  {
  }

  // ---------------------------------------------------------------- the client

  class Predictor {
    /** The player, and the local lag as the protocol's; the server's states come `inputLag` frames late. */
    const cfg: Config
    const inputLag: nat
    var frame: int
    var stat: State
    var stateMemory: seq<State>
    var access: nat
    var eventTrace: Trace
    var sent: seq<Event>
    ghost var log: seq<Input>
    /** The state of which `stat` is the continuation: the last snapshot loaded, or the initial one. */
    ghost var base: State

    /** Between two frames `stat` is the prediction for the frame just shown. */
    ghost predicate Valid()
      reads this
    {
      && ValidConfig(cfg) && LegalKeys(log) && LegalStates(Snapshots(log))
      && frame == |log| + 1 && Keeps(cfg, log, eventTrace) && Slot(eventTrace, frame) == OwnEvents(cfg, log, frame)
      && stateMemory == Snapshots(log) && access <= |stateMemory|
      && base == (if access == 0 then Initial(0) else stateMemory[access - 1])
      && base.frame <= frame - 1 && stat == Predicted(cfg, log, base, frame - 1)
      && OwnersInRange(stat.balls)
    }

    constructor (cfg: Config, inputLag: nat)
      requires ValidConfig(cfg)
      ensures Valid() && this.cfg == cfg && this.inputLag == inputLag && log == [] && sent == [ConnectEvent(cfg)]
    {
      this.cfg := cfg;
      this.inputLag := inputLag;
      var st := InitialState(0);
      var connect := ConnectEvent(cfg);
      stat := st;
      stateMemory, access, frame := [], 0, 1;
      eventTrace := map[1 := [connect]];
      sent := [connect];
      log, base := [], st;
      new;
      hide OwnEvents, ConnectEvent, Keeps;
      KeepsNothing(cfg);
    }

    /** File the pressed keys under the present frame. */
    method FileOwn(keys: seq<Key>)
      requires ValidConfig(cfg) && |Slot(eventTrace, frame)| + |keys| <= cfg.room
      modifies this`eventTrace
      ensures SlotExtended(old(eventTrace), eventTrace, frame, KeyEvents(cfg, frame, keys)) && frame in eventTrace
    {
      if frame !in eventTrace {
        eventTrace := eventTrace[frame := []];
      }
      hide SlotExtended, Slot, OwnDelay, KeyEvents;
      NothingFiled(old(eventTrace), eventTrace, frame);
      ghost var evs := KeyEvents(cfg, frame, keys);
      KeyEventsLength(cfg, frame, keys);
      for i := 0 to |keys|
        invariant frame in eventTrace
        invariant SlotExtended(old(eventTrace), eventTrace, frame, evs[..i])
      {
        var ev := Event(frame + OwnDelay(cfg), frame, cfg.player, keys[i].button, keys[i].pressed);
        SlotsOneMore(old(eventTrace), eventTrace, frame, evs[..i], ev);
        eventTrace := eventTrace[frame := eventTrace[frame] + [ev]];
        KeyEventAt(cfg, frame, keys, i);
      }
      assert evs[..|keys|] == evs;
    }

    /** Send all events of the present frame. */
    method Send()
      requires frame in eventTrace
      modifies this`sent
      ensures sent == old(sent) + Slot(eventTrace, frame)
    {
      var slot := eventTrace[frame];
      for i := 0 to |slot|
        invariant sent == old(sent) + slot[..i]
      {
        sent := sent + [slot[i]];
        assert slot[..i + 1] == slot[..i] + [slot[i]];
      }
      assert slot[..|slot|] == slot;
    }

    /** Remember the received states. */
    method Receive(packets: seq<Packet>)
      modifies this`stateMemory
      ensures stateMemory == old(stateMemory) + States(packets)
    {
      for i := 0 to |packets|
        invariant stateMemory == old(stateMemory) + States(packets[..i])
      {
        assert packets[..i + 1][..i] == packets[..i];
        var p := packets[i].payload;
        if p.Some? && p.value.StatePayload? {
          stateMemory := stateMemory + [p.value.state];
        } else {
          assert States(packets[..i + 1]) == States(packets[..i]) + [];
        }
      }
      assert packets[..|packets|] == packets;
    }

    /** Load the next remembered state once its simulated arrival has come. */
    method Load()
      requires access <= |stateMemory|
      modifies this`stat, this`access
      ensures var due := old(access) < |stateMemory| && frame >= stateMemory[old(access)].frame + inputLag;
              && access == old(access) + (if due then 1 else 0)
              && stat == if due then stateMemory[old(access)] else old(stat)
    {
      if access < |stateMemory| {
        var looked := stateMemory[access];
        if frame >= looked.frame + inputLag {
          stat := looked;
          access := access + 1;
        }
      }
    }

    /** Go on from the loaded state to the present frame. */
    method Predict(ghost log: seq<Input>, ghost base: State)
      requires ValidConfig(cfg) && LegalKeys(log) && base.frame <= stat.frame <= frame
      requires stat == Predicted(cfg, log, base, stat.frame)
      requires Keeps(cfg, log, eventTrace) && OwnersInRange(stat.balls)
      modifies this`stat, this`eventTrace
      ensures stat == Predicted(cfg, log, base, frame) && OwnersInRange(stat.balls)
      ensures Keeps(cfg, log, eventTrace) && SameFrom(old(eventTrace), eventTrace, frame)
    {
      hide OwnEvents, Advance, Slot, LegalKeys, StampedFor;
      var i := stat.frame;
      while i < frame
        invariant base.frame <= i <= frame
        invariant stat == Predicted(cfg, log, base, i) && OwnersInRange(stat.balls)
        invariant Keeps(cfg, log, eventTrace) && SameFrom(old(eventTrace), eventTrace, frame)
      {
        ghost var t := eventTrace;
        var s := i - OwnDelay(cfg);
        assert multiset(Slot(t, s)) == multiset(OwnEvents(cfg, log, s));
        PredictNext(s, log);
        StampedIsSummoned(cfg, log, i);
        KeepsOneSlot(cfg, log, t, eventTrace, s);
        i := i + 1;
      }
    }

    method PredictNext(s: int, ghost log: seq<Input>)
      requires ValidConfig(cfg) && LegalKeys(log) && OwnersInRange(stat.balls)
      requires multiset(Slot(eventTrace, s)) == multiset(OwnEvents(cfg, log, s))
      modifies this`stat, this`eventTrace
      ensures stat == Advance(old(stat), Actions(OwnEvents(cfg, log, s))) && OwnersInRange(stat.balls)
      ensures multiset(Slot(eventTrace, s)) == multiset(OwnEvents(cfg, log, s))
      ensures forall k :: k != s ==> Slot(eventTrace, k) == old(Slot(eventTrace, k))
    {
      hide Advance, LegalKeys, Legal, OwnEvents, Actions;
      SameActions(Slot(eventTrace, s), OwnEvents(cfg, log, s));
      OwnEventsLegal(cfg, log, s, Slot(eventTrace, s));
      NothingBefore(cfg, log, s, Slot(eventTrace, s));
      if s >= 0 && s in eventTrace {
        var slot := eventTrace[s];
        var evs := new Event[|slot|](j requires 0 <= j < |slot| => slot[j]);
        assert evs[..] == slot;
        stat := AdvanceState(stat, evs);
        eventTrace := eventTrace[s := evs[..]];
      } else {
        var none := new Event[0];
        assert none[..] == [];
        stat := AdvanceState(stat, none);
      }
    }

    /** Load what is due and go on from there. */
    method LoadAndPredict(ghost log: seq<Input>)
      requires ValidConfig(cfg) && LegalKeys(log) && Keeps(cfg, log, eventTrace)
      requires access <= |stateMemory| && LegalStates(stateMemory) && OwnersInRange(stat.balls)
      requires base.frame <= frame - 1 && stat == Predicted(cfg, log, base, frame - 1)
      modifies this`stat, this`access, this`base, this`eventTrace
      ensures var due := old(access) < |stateMemory| && frame >= stateMemory[old(access)].frame + inputLag;
              access == old(access) + (if due then 1 else 0)
      ensures access <= |stateMemory|
      ensures base == if access == old(access) then old(base) else stateMemory[old(access)]
      ensures base.frame <= frame && stat == Predicted(cfg, log, base, frame) && OwnersInRange(stat.balls)
      ensures Keeps(cfg, log, eventTrace) && SameFrom(old(eventTrace), eventTrace, frame)
    {
      hide OwnEvents, Slot, Advance, LegalKeys, Keeps, SameFrom;
      PredictedFrame(cfg, log, base, frame - 1);
      Load();
      if access > old(access) {
        base := stat;
      }
      Predict(log, base);
    }

    /** One frame. It ends with the prediction for the present frame, whatever was received and loaded. */
    method Step(input: Input)
      requires Valid() && LegalKeys([input]) && LegalStates(States(input.packets))
      requires |OwnEvents(cfg, log + [input], frame)| <= cfg.room
      modifies this
      ensures Valid() && log == old(log) + [input] && stat.frame == old(frame)
      ensures sent == old(sent) + OwnEvents(cfg, log, |log|)
      ensures var due := old(access) < |Snapshots(log)| && old(frame) >= Snapshots(log)[old(access)].frame + inputLag;
              access == old(access) + (if due then 1 else 0)
    {
      hide OwnEvents, KeyEvents, Slot, Advance, LegalKeys, SlotExtended, Predicted, Keeps;
      ghost var log' := log + [input];
      ghost var t := eventTrace;
      LegalKeysGrow(log, input);
      RoomForPressed(cfg, log, input);
      FileOwn(input.keys);
      KeepsFiled(cfg, log, input, t, eventTrace);
      Send();
      assert log'[..|log|] == log;
      Receive(input.packets);
      PredictionStays(cfg, log, input, base, frame - 1);
      LoadAndPredict(log');
      PredictedFrame(cfg, log', base, frame);
      frame := frame + 1;
      log := log';
      NothingYet(cfg, log, eventTrace);
    }
  }

  // ---------------------------------------------------------------- the server

  /** All events the players' pools give in one frame, player after player. */
  function AllEvents(inboxes: seq<seq<Packet>>): seq<Event> {
    if inboxes == [] then []
    else AllEvents(inboxes[..|inboxes| - 1]) + Received(inboxes[|inboxes| - 1])
  }

  /** They are the events of each player's packets, of all players. */
  lemma {:induction false} AllEventsMembers(inboxes: seq<seq<Packet>>, e: Event)
    ensures e in AllEvents(inboxes) <==> exists i :: 0 <= i < |inboxes| && e in Received(inboxes[i])
  {
    hide Received;
    if inboxes != [] {
      var n := |inboxes| - 1;
      AllEventsMembers(inboxes[..n], e);
      if i :| 0 <= i < |inboxes| && e in Received(inboxes[i]) {
        if i < n { assert inboxes[..n][i] == inboxes[i]; }
      }
      if i :| 0 <= i < n && e in Received(inboxes[..n][i]) {
        assert inboxes[..n][i] == inboxes[i];
      }
    }
  }

  const EVENT_CAPACITY: nat := MAX_PLAYERS * 10

  class Server {
    var stat: State
    var lies: seq<int>
    ghost var slots: seq<set<Action>>

    /** The state is the replay of everything consumed so far. */
    ghost predicate Valid()
      reads this
    {
      WorldOf(stat) == WorldOf(Replay(slots)) && stat.frame == |slots| && OwnersInRange(stat.balls)
    }

    constructor ()
      ensures Valid() && lies == [] && slots == []
    {
      var st := InitialState(0);
      stat := st;
      lies, slots := [], [];
    }

    /** A player connects, while there is a place in the table. */
    method Accept()
      requires Valid() && |lies| < MAX_PLAYERS
      modifies this`lies
      ensures Valid() && lies == old(lies) + [0]
    {
      lies := lies + [0];
    }

    /** One step: collect the events of all players, advance, and send each player the state with its own `lie`. */
    method Step(inboxes: seq<seq<Packet>>) returns (sent: seq<State>)
      requires Valid() && |inboxes| == |lies|
      requires |AllEvents(inboxes)| <= EVENT_CAPACITY && forall e :: e in AllEvents(inboxes) ==> Legal(e)
      modifies this
      ensures Valid() && slots == old(slots) + [Actions(AllEvents(inboxes))]
      ensures |sent| == |lies| == |old(lies)|
      ensures forall i :: 0 <= i < |lies| ==>
                var evs := Received(inboxes[i]);
                lies[i] == if evs == [] then old(lies[i]) else evs[|evs| - 1].summonFrame
      ensures forall i :: 0 <= i < |lies| ==>
                sent[i].lie == lies[i] && sent[i].frame == stat.frame && WorldOf(sent[i]) == WorldOf(stat)
    {
      hide AdvanceWorld, Received, AllEvents;
      var evs := CollectAll(inboxes);
      var events := new Event[|evs|](j requires 0 <= j < |evs| => evs[j]);
      assert events[..] == evs;
      stat := AdvanceState(stat, events);
      slots := slots + [Actions(evs)];
      assert slots[..|slots| - 1] == old(slots);
      sent := SendAll();
    }

    /** Set each player's `lie` and send it the state. */
    method SendAll() returns (sent: seq<State>)
      modifies this`stat
      ensures stat == old(stat).(lie := stat.lie) && |sent| == |lies|
      ensures forall i :: 0 <= i < |lies| ==> sent[i] == old(stat).(lie := lies[i])
    {
      sent := [];
      for i := 0 to |lies|
        invariant |sent| == i && stat == old(stat).(lie := stat.lie)
        invariant forall j :: 0 <= j < i ==> sent[j] == old(stat).(lie := lies[j])
      {
        stat := stat.(lie := lies[i]);
        sent := sent + [stat];
      }
    }

    /** Take the events of all players, and note the last influential one of each. */
    method CollectAll(inboxes: seq<seq<Packet>>) returns (evs: seq<Event>)
      requires |inboxes| == |lies|
      modifies this`lies
      ensures evs == AllEvents(inboxes) && |lies| == |old(lies)|
      ensures forall i :: 0 <= i < |lies| ==>
                var evs := Received(inboxes[i]);
                lies[i] == if evs == [] then old(lies[i]) else evs[|evs| - 1].summonFrame
    {
      hide Received;
      evs := [];
      for i := 0 to |lies|
        invariant |lies| == |old(lies)| && evs == AllEvents(inboxes[..i])
        invariant forall j :: 0 <= j < i ==>
                    var evs := Received(inboxes[j]);
                    lies[j] == if evs == [] then old(lies[j]) else evs[|evs| - 1].summonFrame
        invariant forall j :: i <= j < |lies| ==> lies[j] == old(lies[j])
      {
        assert inboxes[..i + 1][..i] == inboxes[..i];
        var more, lie := Collect(inboxes[i], lies[i]);
        evs := evs + more;
        lies := lies[i := lie];
      }
      assert inboxes[..|lies|] == inboxes;
    }

    static method Collect(packets: seq<Packet>, before: int) returns (evs: seq<Event>, lie: int)
      ensures evs == Received(packets) && lie == if evs == [] then before else evs[|evs| - 1].summonFrame
    {
      evs, lie := [], before;
      for i := 0 to |packets|
        invariant evs == Received(packets[..i]) && lie == if evs == [] then before else evs[|evs| - 1].summonFrame
      {
        assert packets[..i + 1][..i] == packets[..i];
        var p := packets[i].payload;
        if p.Some? && p.value.EventPayload? {
          lie := p.value.event.summonFrame;
          evs := evs + [p.value.event];
        } else {
          assert Received(packets[..i + 1]) == Received(packets[..i]) + [];
        }
      }
      assert packets[..|packets|] == packets;
    }
  }

  // ---------------------------------------------------------------- prediction against the server

  /** State `st` is what the server had at that frame, except for the death count and the `lie`. */
  ghost predicate SnapshotOf(st: State, slots: seq<set<Action>>) {
    && 0 <= st.frame <= |slots|
    && var server := Replay(slots[..st.frame]);
       WorldOf(st) == Off(WorldOf(server), st.deathCount - server.deathCount)
  }

  /** What a client receives of a state the server sent is a snapshot, whatever death count it finds. */
  lemma SentIsSnapshot(s: Server, st: State, stale: int)
    requires s.Valid() && WorldOf(st) == WorldOf(s.stat) && st.frame == s.stat.frame
    ensures SnapshotOf(Arrived(StatePayload(st), stale).state, s.slots)
  {
    assert s.slots[..|s.slots|] == s.slots;
  }

  /** A snapshot stays one when the server goes on. */
  lemma SnapshotStays(st: State, slots: seq<set<Action>>, more: seq<set<Action>>)
    requires SnapshotOf(st, slots)
    ensures SnapshotOf(st, slots + more)
  {
    assert (slots + more)[..st.frame] == slots[..st.frame];
  }

  /** In step `i` the server gets a connection of the client again, whose ball it has long given to it. */
  ghost predicate ConnectsAgain(slots: seq<set<Action>>, cfg: Config, log: seq<Input>, i: nat)
    requires ValidConfig(cfg) && i < |slots|
  {
    var w := WorldOf(Replay(slots[..i]));
    && slots[i] == StampedFor(cfg, log, i) + {Action(cfg.player, N_BUTTONS, 1)}
    && w.paused == 0 && w.balls[cfg.player].player == cfg.player
  }

  /**
   The server consumes, in each step, exactly the client's events that are stamped for
   it. The client sends its connection twice, so one may come again at any time later.
   */
  ghost predicate ConsumesOnly(slots: seq<set<Action>>, cfg: Config, log: seq<Input>)
    requires ValidConfig(cfg)
  {
    forall i :: 0 <= i < |slots| ==> slots[i] == StampedFor(cfg, log, i) || ConnectsAgain(slots, cfg, log, i)
  }

  lemma {:induction false} DeathsGrow(slots: seq<set<Action>>, m: nat, n: nat)
    requires m <= n <= |slots|
    ensures 0 <= Replay(slots[..m]).deathCount <= Replay(slots[..n]).deathCount
  {
    hide AdvanceWorld;
    if n > 0 {
      assert slots[..n][..n - 1] == slots[..n - 1];
      AdvanceCounts(WorldOf(Replay(slots[..n - 1])), slots[n - 1]);
      if m < n { DeathsGrow(slots, m, n - 1); } else { DeathsGrow(slots, m - 1, n - 1); }
    }
  }

  /** Since the snapshot no ball was reset, or its death count chooses the places that the server's does. */
  ghost predicate CountHarmless(base: State, slots: seq<set<Action>>, f: nat)
    requires 0 <= base.frame <= f <= |slots|
  {
    var deaths := Replay(slots[..base.frame]).deathCount;
    Replay(slots[..f]).deathCount == deaths || (base.deathCount >= 0 && (base.deathCount - deaths) % 9 == 0)
  }

  /**
   The prediction from a snapshot is the server's state, when the server consumes
   what the client assumes: all of it but the death count, as long as the stale
   death count is harmless.
   */
  lemma {:induction false} PredictionIsServer(cfg: Config, log: seq<Input>, base: State, slots: seq<set<Action>>, f: nat)
    requires ValidConfig(cfg) && ConsumesOnly(slots, cfg, log) && SnapshotOf(base, slots)
    requires base.frame <= f <= |slots| && CountHarmless(base, slots, f)
    ensures WorldOf(Predicted(cfg, log, base, f))
         == Off(WorldOf(Replay(slots[..f])), base.deathCount - Replay(slots[..base.frame]).deathCount)
    decreases f
  {
    hide AdvanceWorld, StampedFor;
    if f > base.frame {
      var deaths := Replay(slots[..base.frame]).deathCount;
      var before := Replay(slots[..f - 1]);
      assert slots[..f][..f - 1] == slots[..f - 1];
      DeathsGrow(slots, base.frame, f - 1);
      DeathsGrow(slots, f - 1, f);
      PredictionIsServer(cfg, log, base, slots, f - 1);
      if slots[f - 1] != StampedFor(cfg, log, f - 1) {
        ConnectionsRepeat(WorldOf(before), StampedFor(cfg, log, f - 1), cfg.player);
      }
      AdvanceOff(WorldOf(before), StampedFor(cfg, log, f - 1), base.deathCount - deaths);
    }
  }

  /**
   A client that has loaded any of the server's snapshots, at any time, shows the
   server's state of the present frame.
   */
  lemma ClientShowsServer(c: Predictor, slots: seq<set<Action>>)
    requires c.Valid() && c.frame - 1 <= |slots| && ConsumesOnly(slots, c.cfg, c.log)
    requires forall i :: 0 <= i < |c.stateMemory| ==> SnapshotOf(c.stateMemory[i], slots)
    requires 0 <= c.base.frame && CountHarmless(c.base, slots, c.frame - 1)
    ensures c.stat.frame == c.frame - 1
    ensures WorldOf(c.stat).(deathCount := 0) == WorldOf(Replay(slots[..c.frame - 1])).(deathCount := 0)
  {
    hide OwnEvents, AdvanceWorld, Keeps, LegalKeys, StampedFor, ConsumesOnly, CountHarmless, Snapshots, Predicted;
    assert SnapshotOf(Initial(0), slots) by { assert slots[..0] == []; }
    PredictedFrame(c.cfg, c.log, c.base, c.frame - 1);
    PredictionIsServer(c.cfg, c.log, c.base, slots, c.frame - 1);
  }
}
