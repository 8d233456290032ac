/**
 The rollback client itself: the main loop of src/game_timewarp.c and
 src/game_fasteventordering.c, one method for each part of its body.
 */
module Rollback {
  import opened Balls
  import opened BallsLaws
  import opened Packets
  import opened Replicas
  import opened Sequences

  /**
   An event trace: slots that were never created read as empty. A slot stands for
   its events as long as it stays where the trace points to; pushing requires room
   for that (`EvVecs.PushAll`).
   */
  type Trace = map<int, seq<Event>>

  function Slot(t: Trace, k: int): seq<Event> {
    if k in t then t[k] else []
  }

  function OfPlayer(evs: seq<Event>, player: int): seq<Event> {
    if evs == [] then []
    else
      var e := evs[|evs| - 1];
      OfPlayer(evs[..|evs| - 1], player) + (if e.player == player then [e] else [])
  }

  lemma {:induction false} ForPrefix(evs: seq<Event>, i: nat, k: int)
    requires i <= |evs|
    ensures |For(evs[..i], k)| <= |For(evs, k)|
    decreases |evs|
  {
    if i < |evs| {
      ForPrefix(evs[..|evs| - 1], i, k);
      assert evs[..|evs| - 1][..i] == evs[..i];
    } else {
      assert evs[..i] == evs;
    }
  }

  lemma {:induction false} DueConcat(cfg: Config, a: seq<Event>, b: seq<Event>, f: int, q: int)
    requires ValidConfig(cfg)
    ensures Due(cfg, a + b, f, q) == Due(cfg, a, f, q) + Due(cfg, b, f, q)
  {
    if b == [] {
      assert a + b == a;
    } else {
      assert (a + b)[..|a + b| - 1] == a + b[..|b| - 1];
      DueConcat(cfg, a, b[..|b| - 1], f, q);
    }
  }

  lemma {:induction false} DuePrefix(cfg: Config, packets: seq<Packet>, i: nat, f: int, q: int)
    requires ValidConfig(cfg) && i <= |packets|
    ensures |Due(cfg, Received(packets[..i]), f, q)| <= |Due(cfg, Received(packets), f, q)|
    decreases |packets|
  {
    if i < |packets| {
      var n := |packets| - 1;
      DuePrefix(cfg, packets[..n], i, f, q);
      assert packets[..n][..i] == packets[..i];
      var p := packets[n].payload;
      DueConcat(cfg, Received(packets[..n]), if p.Some? && p.value.EventPayload? then [p.value.event] else [], f, q);
    } else {
      assert packets[..i] == packets;
    }
  }

  /** Trace `t'` is trace `t` with `evs` added to slot `k`. */
  ghost predicate SlotExtended(t: Trace, t': Trace, k: int, evs: seq<Event>) {
    Slot(t', k) == Slot(t, k) + evs && forall j :: j != k ==> Slot(t', j) == Slot(t, j)
  }

  lemma SlotsOneMore(t0: Trace, t: Trace, k: int, evs: seq<Event>, ev: Event)
    requires k in t && SlotExtended(t0, t, k, evs)
    ensures |t[k]| == |Slot(t0, k)| + |evs| && SlotExtended(t0, t[k := t[k] + [ev]], k, evs + [ev])
  {
  }

  lemma KeyEventsLength(cfg: Config, s: int, keys: seq<Key>)
    requires ValidConfig(cfg)
    ensures |KeyEvents(cfg, s, keys)| == |keys|
  {
  }

  lemma KeyEventAt(cfg: Config, s: int, keys: seq<Key>, i: nat)
    requires ValidConfig(cfg) && i < |keys|
    ensures i < |KeyEvents(cfg, s, keys)|
    ensures KeyEvents(cfg, s, keys)[..i + 1]
         == KeyEvents(cfg, s, keys)[..i] + [Event(s + OwnDelay(cfg), s, cfg.player, keys[i].button, keys[i].pressed)]
  {
  }

  lemma NothingFiled(t: Trace, t': Trace, k: int)
    requires t' == t || (k !in t && t' == t[k := []])
    ensures SlotExtended(t, t', k, [])
  {
  }

  /** Buffer `b'` is buffer `b` with the events received in frame `f` put on hold. */
  ghost predicate Buffered(cfg: Config, b: Trace, b': Trace, evs: seq<Event>, f: int)
    requires ValidConfig(cfg)
  {
    forall q {:trigger Slot(b', q)} :: Slot(b', q) == Slot(b, q) + Due(cfg, evs, f, q)
  }

  /** Trace `t'` is trace `t` with the held events filed under their frames. */
  ghost predicate MergedInto(t: Trace, t': Trace, held: seq<Event>) {
    forall k {:trigger Slot(t', k)} :: Slot(t', k) == Slot(t, k) + For(held, k)
  }

  /** Trace `t'` is trace `t` with the own events of the frame after `log`. */
  ghost predicate OwnFiled(cfg: Config, log: seq<Input>, input: Input, t: Trace, t': Trace)
    requires ValidConfig(cfg)
  {
    forall k {:trigger Slot(t', k)} :: Slot(t', k) == Slot(t, k) + NewOwn(cfg, log, input, k)
  }

  /** Every slot of `t` has room for the events of `evs` filed under it. */
  ghost predicate RoomFor(cfg: Config, t: Trace, evs: seq<Event>) {
    forall k {:trigger Slot(t, k)} :: |Slot(t, k)| + |For(evs, k)| <= cfg.room
  }

  /** Every slot of `b` has room for the events due in it. */
  ghost predicate RoomOnHold(cfg: Config, b: Trace, evs: seq<Event>, f: int)
    requires ValidConfig(cfg)
  {
    forall q {:trigger Slot(b, q)} :: |Slot(b, q)| + |Due(cfg, evs, f, q)| <= cfg.room
  }

  lemma EmptyLog(cfg: Config)
    requires ValidConfig(cfg)
    ensures StateAt(cfg, [], 0) == Initial(0)
    ensures Follows(cfg, [], map[1 + OwnDelay(cfg) := [ConnectEvent(cfg)]])
    ensures OnHold(cfg, [], map[])
  {
  }

  predicate SentBy(player: int, sent: seq<Event>) {
    forall e :: e in sent ==> e.player == player
  }

  lemma SentByGrows(player: int, before: seq<Event>, after: seq<Event>)
    requires SentBy(player, before) && before <= after && SentBy(player, after[|before|..])
    ensures SentBy(player, after)
  {
    assert after == before + after[|before|..];
  }

  lemma {:induction false} AllOfPlayer(evs: seq<Event>, player: int)
    ensures SentBy(player, OfPlayer(evs, player))
  {
    if evs != [] { AllOfPlayer(evs[..|evs| - 1], player); }
  }

  class Client {
    const cfg: Config
    var frame: int
    var minFrame: int
    var stat: State
    var stateTrace: seq<State>
    var eventTrace: Trace
    var eventBuffer: Trace
    var sent: seq<Event>
    ghost var log: seq<Input>

    /** Between two frames: the traces are what the log says, and nothing waits to be recomputed. */
    ghost predicate Valid()
      reads this
    {
      && ValidConfig(cfg) && LegalLog(cfg, log)
      && frame == |log| + 1 && minFrame == frame
      && |stateTrace| == frame && stat == stateTrace[frame - 1]
      && (forall k: nat :: k < frame ==> stateTrace[k] == StateAt(cfg, log, k))
      && Follows(cfg, log, eventTrace) && OnHold(cfg, log, eventBuffer)
    }

    constructor (cfg: Config)
      requires ValidConfig(cfg)
      ensures Valid() && this.cfg == cfg && log == [] && sent == [ConnectEvent(cfg)]
    {
      hide Replay, Filed, Held;
      this.cfg := cfg;
      var st := InitialState(0);
      var connect := ConnectEvent(cfg);
      stat := st;
      stateTrace := [st];
      frame, minFrame := 1, 1;
      eventTrace := map[connect.frame := [connect]];
      eventBuffer := map[];
      sent := [connect];
      log := [];
      new;
      EmptyLog(cfg);
    }

    /** File the events of the pressed keys `OwnDelay` frames ahead. */
    method FileOwn(keys: seq<Key>)
      requires ValidConfig(cfg)
      requires |Slot(eventTrace, frame + OwnDelay(cfg))| + |keys| <= cfg.room
      modifies this`eventTrace
      ensures SlotExtended(old(eventTrace), eventTrace, frame + OwnDelay(cfg), KeyEvents(cfg, frame, keys))
      ensures frame + OwnDelay(cfg) in eventTrace
    {
      hide SlotExtended, OwnDelay, KeyEvents;
      var k := frame + OwnDelay(cfg);
      if k !in eventTrace {
        eventTrace := eventTrace[k := []];
      }
      NothingFiled(old(eventTrace), eventTrace, k);
      ghost var evs := KeyEvents(cfg, frame, keys);
      KeyEventsLength(cfg, frame, keys);
      for i := 0 to |keys|
        invariant k in eventTrace && |eventTrace[k]| == |old(Slot(eventTrace, k))| + i
        invariant SlotExtended(old(eventTrace), eventTrace, k, evs[..i])
      {
        FileKey(k, keys[i], old(eventTrace), evs[..i]);
        KeyEventAt(cfg, frame, keys, i);
      }
      assert evs[..|keys|] == evs;
    }

    method FileKey(k: int, key: Key, ghost t0: Trace, ghost evs: seq<Event>)
      requires k in eventTrace && |eventTrace[k]| < cfg.room && SlotExtended(t0, eventTrace, k, evs)
      modifies this`eventTrace
      ensures k in eventTrace && |eventTrace[k]| == |old(eventTrace)[k]| + 1
      ensures SlotExtended(t0, eventTrace, k, evs + [Event(k, frame, cfg.player, key.button, key.pressed)])
    {
      hide SlotExtended;
      var ev := Event(k, frame, cfg.player, key.button, key.pressed);
      SlotsOneMore(t0, eventTrace, k, evs, ev);
      eventTrace := eventTrace[k := eventTrace[k] + [ev]];
    }

    /** Send the own events of the slot that was just filed. */
    method Broadcast()
      requires ValidConfig(cfg) && frame + OwnDelay(cfg) in eventTrace
      modifies this`sent
      ensures sent == old(sent) + OfPlayer(eventTrace[frame + OwnDelay(cfg)], cfg.player)
    {
      var slot := eventTrace[frame + OwnDelay(cfg)];
      for i := 0 to |slot|
        invariant sent == old(sent) + OfPlayer(slot[..i], cfg.player)
      {
        assert slot[..i + 1][..i] == slot[..i];
        if slot[i].player == cfg.player {
          sent := sent + [slot[i]];
        }
      }
      assert slot[..|slot|] == slot;
    }

    /** Put one received event on hold until its simulated arrival. */
    method Hold(received: Event)
      requires ValidConfig(cfg) && KnownPlayer(received)
      requires |Slot(eventBuffer, HoldFrame(cfg, frame, received))| < cfg.room
      modifies this`eventBuffer
      ensures SlotExtended(old(eventBuffer), eventBuffer, HoldFrame(cfg, frame, received), [Rewritten(cfg, received)])
      ensures exists q, e :: Waits(cfg, frame, received, q) && Executes(cfg, received, e)
                && SlotExtended(old(eventBuffer), eventBuffer, q, [e])
    {
      var e := received;
      if cfg.protocol.FastEventOrdering? {
        e := e.(frame := e.summonFrame + cfg.protocol.delays[e.player]);
      }
      var q := e.summonFrame + cfg.lags[e.player];
      q := if cfg.lags[e.player] == 0 || q < frame then frame else q;
      if q !in eventBuffer {
        eventBuffer := eventBuffer[q := []];
      }
      eventBuffer := eventBuffer[q := eventBuffer[q] + [e]];
      assert Waits(cfg, frame, received, q) && Executes(cfg, received, e);
      assert SlotExtended(old(eventBuffer), eventBuffer, q, [e]);
    }

    /** Put every received event on hold. */
    method Receive(packets: seq<Packet>)
      requires ValidConfig(cfg)
      requires forall e :: e in Received(packets) ==> KnownPlayer(e)
      requires RoomOnHold(cfg, eventBuffer, Received(packets), frame)
      modifies this`eventBuffer
      ensures Buffered(cfg, old(eventBuffer), eventBuffer, Received(packets), frame)
    {
      hide Due, RoomOnHold;
      ghost var b0 := eventBuffer;
      var i := 0;
      BufferedNone(cfg, b0, packets, frame);
      while i < |packets|
        invariant 0 <= i <= |packets|
        invariant Buffered(cfg, b0, eventBuffer, Received(packets[..i]), frame)
      {
        if IsEvent(packets[i]) {
          HoldPacket(packets, i, b0);
        } else {
          ReceivedOneMore(packets, i);
        }
        i := i + 1;
      }
      assert packets[..|packets|] == packets;
    }

    method HoldPacket(packets: seq<Packet>, i: nat, ghost b0: Trace)
      requires ValidConfig(cfg) && i < |packets|
      requires IsEvent(packets[i])
      requires forall e :: e in Received(packets) ==> KnownPlayer(e)
      requires RoomOnHold(cfg, b0, Received(packets), frame)
      requires Buffered(cfg, b0, eventBuffer, Received(packets[..i]), frame)
      modifies this`eventBuffer
      ensures Buffered(cfg, b0, eventBuffer, Received(packets[..i + 1]), frame)
    {
      hide Due, RoomOnHold, Buffered;
      ReceivedOneMore(packets, i);
      var e := packets[i].payload.value.event;
      ghost var b := eventBuffer;
      ReceivedMember(packets, i);
      HoldHasRoom(cfg, b0, b, packets, i, frame);
      Hold(e);
      HeldOneMore(cfg, b0, b, eventBuffer, Received(packets[..i]), e, frame);
    }

    /** Move the events held for this frame into the trace, and note the oldest frame they touch. */
    method Merge()
      requires ValidConfig(cfg) && minFrame == frame
      requires RoomFor(cfg, eventTrace, Slot(eventBuffer, frame))
      modifies this`eventTrace, this`minFrame
      ensures MergedInto(old(eventTrace), eventTrace, Slot(eventBuffer, frame))
      ensures OldestTouched(minFrame, frame, Slot(eventBuffer, frame))
    {
      hide For, RoomFor;
      MergedNothing(eventTrace);
      ghost var t0 := eventTrace;
      if frame in eventBuffer {
        var held := eventBuffer[frame];
        for i := 0 to |held|
          invariant MergedInto(t0, eventTrace, held[..i])
          invariant OldestTouched(minFrame, frame, held[..i])
        {
          MergeHasRoom(cfg, t0, eventTrace, held, i);
          ghost var t, m := eventTrace, minFrame;
          MergeOne(held[i]);
          MergedOneMore(t0, t, eventTrace, held, i);
          OldestOneMore(m, frame, held, i);
        }
        assert held[..|held|] == held;
      }
    }

    method MergeOne(e: Event)
      requires |Slot(eventTrace, e.frame)| < cfg.room
      modifies this`eventTrace, this`minFrame
      ensures SlotExtended(old(eventTrace), eventTrace, e.frame, [e])
      ensures minFrame == if e.frame < old(minFrame) then e.frame else old(minFrame)
    {
      if e.frame !in eventTrace {
        eventTrace := eventTrace[e.frame := []];
      }
      eventTrace := eventTrace[e.frame := eventTrace[e.frame] + [e]];
      if e.frame < minFrame {
        minFrame := e.frame;
      }
    }

    /** Recompute one frame from the one before it; the slot of the frame is sorted in place. */
    method Recompute(i: int)
      requires 1 <= i < |stateTrace|
      requires forall e :: e in Slot(eventTrace, i) ==> Legal(e)
      requires OwnersInRange(stateTrace[i - 1].balls)
      modifies this`stat, this`stateTrace, this`eventTrace
      ensures stat == Advance(old(stateTrace[i - 1]), Actions(old(Slot(eventTrace, i))))
      ensures stateTrace == old(stateTrace)[i := stat]
      ensures forall k :: multiset(Slot(eventTrace, k)) == multiset(old(Slot(eventTrace, k)))
    {
      stat := stateTrace[i - 1];
      if i in eventTrace {
        var slot := eventTrace[i];
        var evs := new Event[|slot|](j requires 0 <= j < |slot| => slot[j]);
        assert evs[..] == slot;
        stat := AdvanceState(stat, evs);
        eventTrace := eventTrace[i := evs[..]];
      } else {
        var none := new Event[0];
        assert none[..] == [];
        stat := AdvanceState(stat, none);
      }
      stateTrace := stateTrace[i := stat];
    }

    /** Rewind to the oldest touched frame and recompute up to the present. */
    method Resync(ghost slots: seq<set<Action>>)
      requires 1 <= minFrame <= frame && |stateTrace| == frame + 1 && |slots| == frame
      requires LegalScript(slots)
      requires forall k :: 1 <= k <= frame ==> slots[k - 1] == Actions(Slot(eventTrace, k))
      requires forall k, e :: e in Slot(eventTrace, k) ==> Legal(e)
      requires forall k: nat :: k < minFrame ==> stateTrace[k] == Replay(slots[..k])
      modifies this`stat, this`stateTrace, this`eventTrace
      ensures |stateTrace| == frame + 1 && stat == stateTrace[frame]
      ensures forall k: nat :: k <= frame ==> stateTrace[k] == Replay(slots[..k])
      ensures forall k :: multiset(Slot(eventTrace, k)) == multiset(old(Slot(eventTrace, k)))
    {
      hide Replay;
      var i := minFrame;
      while i <= frame
        invariant minFrame <= i <= frame + 1
        invariant |stateTrace| == frame + 1 && (i > minFrame ==> stat == stateTrace[i - 1])
        invariant forall k: nat :: k < i ==> stateTrace[k] == Replay(slots[..k])
        invariant forall k :: multiset(Slot(eventTrace, k)) == multiset(old(Slot(eventTrace, k)))
      {
        SameActions(Slot(eventTrace, i), old(Slot(eventTrace, i)));
        SameMembers(Slot(eventTrace, i), old(Slot(eventTrace, i)));
        LegalPrefix(slots, i - 1);
        ReachableSane(slots[..i - 1]);
        ReplayNext(slots, i);
        Recompute(i);
        i := i + 1;
      }
    }

    /** File the own events of this frame and send them. */
    method FileAndSend(input: Input)
      requires ValidConfig(cfg) && frame == |log| + 1 && Follows(cfg, log, eventTrace)
      requires |Slot(eventTrace, frame + OwnDelay(cfg))| + |input.keys| <= cfg.room
      modifies this`eventTrace, this`sent
      ensures OwnFiled(cfg, log, input, old(eventTrace), eventTrace)
      ensures Faithful(cfg, log + [input]) ==>
                multiset(sent) == multiset(old(sent)) + multiset(OwnEvents(cfg, log + [input], frame))
      ensures old(sent) <= sent && SentBy(cfg.player, sent[|old(sent)|..])
    {
      hide Filed, Held, OwnEvents, KeyEvents, Faithful, OfPlayer, Due, For;
      ghost var t0 := eventTrace;
      FileOwn(input.keys);
      Broadcast();
      AllOfPlayer(eventTrace[frame + OwnDelay(cfg)], cfg.player);
      OwnFiledBy(cfg, log, input, t0, eventTrace);
      SentOwn(cfg, log, input, Slot(t0, frame + OwnDelay(cfg)));
    }

    /** Merge what is due and recompute from the oldest frame it touches. */
    method MergeAndResync(input: Input, ghost t0: Trace) returns (from: int)
      requires ValidConfig(cfg) && LegalLog(cfg, log + [input]) && SlotsFit(cfg, log + [input])
      requires frame == |log| + 1 && minFrame == frame && |stateTrace| == frame + 1
      requires forall k: nat :: k < frame ==> stateTrace[k] == StateAt(cfg, log, k)
      requires Follows(cfg, log, t0) && OwnFiled(cfg, log, input, t0, eventTrace)
      requires OnHold(cfg, log + [input], eventBuffer)
      modifies this`eventTrace, this`minFrame, this`stat, this`stateTrace
      ensures OldestTouched(from, frame, Held(cfg, log + [input], frame))
      ensures |stateTrace| == frame + 1 && stat == stateTrace[frame]
      ensures forall k: nat :: k <= frame ==> stateTrace[k] == StateAt(cfg, log + [input], k)
      ensures Follows(cfg, log + [input], eventTrace)
    {
      hide Filed, Held, StateAt, Slots, Slot, Replay, LegalLog, LegalScript, SlotsFit, OnHold, OwnFiled, MergedInto, RoomFor, OldestTouched;
      ghost var log' := log + [input];
      ghost var t1 := eventTrace;
      RoomToMerge(cfg, log, input, t0, t1, eventBuffer);
      Merge();
      from := minFrame;
      TraceFollows(cfg, log, input, t0, t1, eventTrace, eventBuffer);
      RollbackInRange(cfg, log, input, eventBuffer, from);
      StatesBefore(cfg, log, input, from);
      TraceReplays(cfg, log', eventTrace, frame);
      StatesOfPrefixes(cfg, log', frame);
      ghost var t2 := eventTrace;
      Resync(Slots(cfg, log', frame));
      SameFollows(cfg, log', t2, eventTrace);
    }

    /**
     One frame of the main loop. `from` is the value of min_frame when the
     recomputation starts.
     */
    method Step(input: Input) returns (from: int)
      requires Valid() && LegalInput(cfg, input) && SlotsFit(cfg, log + [input])
      modifies this
      ensures Valid() && log == old(log) + [input]
      ensures OldestTouched(from, |log|, Held(cfg, log, |log|))
      ensures Faithful(cfg, log) ==>
                multiset(sent) == multiset(old(sent)) + multiset(OwnEvents(cfg, log, |log|))
      ensures old(sent) <= sent && SentBy(cfg.player, sent[|old(sent)|..])
    {
      hide Filed, Held, StateAt, Received, Due, For, Faithful, OwnEvents, SlotsFit, Follows, OnHold, OwnFiled, Buffered, RoomOnHold, Slot, OldestTouched, OwnDelay, ExecFrame;
      ghost var log' := log + [input];
      assert LegalLog(cfg, log');
      ghost var t0, b0 := eventTrace, eventBuffer;
      RoomToFile(cfg, log, input, t0, b0);
      stateTrace := stateTrace + [stat];
      FileAndSend(input);
      Receive(input.packets);
      BufferFollows(cfg, log, input, b0, eventBuffer);
      from := MergeAndResync(input, t0);
      frame := frame + 1;
      minFrame := frame;
      log := log';
    }
  }

  /**
   A whole run: whatever the player does and whatever arrives, whenever it
   arrives, the traces at the end are those of a replay from scratch.
   */
  method Play(cfg: Config, inputs: seq<Input>) returns (c: Client)
    requires ValidConfig(cfg) && LegalLog(cfg, inputs) && SlotsFit(cfg, inputs)
    ensures fresh(c) && c.Valid() && c.cfg == cfg && c.log == inputs
    ensures SentBy(cfg.player, c.sent)
    ensures Faithful(cfg, inputs) ==> SentOwnEvents(cfg, inputs, c.sent) && InTurn(c.sent)
  {
    hide SlotsFit, LegalInput, Faithful, SentOwnEvents, OwnEvents, InTurn, SentBy, StateAt, Follows, OnHold;
    c := new Client(cfg);
    SentAtStart(cfg);
    assert inputs[..0] == [];
    for f := 0 to |inputs|
      invariant fresh(c) && c.Valid() && c.cfg == cfg && c.log == inputs[..f]
      invariant SentBy(cfg.player, c.sent)
      invariant Faithful(cfg, inputs[..f]) ==> SentOwnEvents(cfg, inputs[..f], c.sent) && InTurn(c.sent)
    {
      SlotsFitBefore(cfg, inputs, f + 1);
      assert inputs[..f + 1] == inputs[..f] + [inputs[f]];
      ghost var before := c.sent;
      var from := c.Step(inputs[f]);
      SentByGrows(cfg.player, before, c.sent);
      if Faithful(cfg, inputs[..f + 1]) {
        FaithfulPrefix(cfg, inputs[..f], inputs[f]);
        SentOneMore(cfg, inputs[..f], inputs[f], before, c.sent);
      }
    }
    assert inputs[..|inputs|] == inputs;
  }

  /** What has been sent is what was summoned, some of it perhaps more than once. */
  ghost predicate SentOwnEvents(cfg: Config, log: seq<Input>, sent: seq<Event>)
    requires ValidConfig(cfg)
  {
    forall e :: e in sent <==> e in OwnEvents(cfg, log, e.summonFrame)
  }

  /** In the order of the frames in which they were summoned. */
  predicate InTurn(sent: seq<Event>) {
    forall i, j :: 0 <= i < j < |sent| ==> sent[i].summonFrame <= sent[j].summonFrame
  }

  lemma SentLast(cfg: Config, log: seq<Input>, input: Input, sent: seq<Event>, sent': seq<Event>)
    requires ValidConfig(cfg) && SentOwnEvents(cfg, log, sent) && InTurn(sent) && sent <= sent'
    requires multiset(sent') == multiset(sent) + multiset(OwnEvents(cfg, log + [input], |log| + 1))
    ensures InTurn(sent')
  {
    hide OwnEvents;
    var now, f := OwnEvents(cfg, log + [input], |log| + 1), |log| + 1;
    var block := sent'[|sent|..];
    assert sent' == sent + block && multiset(sent + block) == multiset(sent) + multiset(block);
    forall e | e in block
      ensures e.summonFrame == f
    {
      assert multiset(sent)[e] + multiset(block)[e] == multiset(sent')[e] == multiset(sent)[e] + multiset(now)[e];
      assert e in multiset(block) && e in now;
      OwnEventSummoned(cfg, log + [input], f, e);
    }
    forall e | e in sent
      ensures e.summonFrame <= f
    {
      NotYetSummoned(cfg, log, e);
    }
    forall i, j | 0 <= i < j < |sent'|
      ensures sent'[i].summonFrame <= sent'[j].summonFrame
    {
      if j >= |sent| { assert sent'[j] in block; }
      if i >= |sent| { assert sent'[i] in block; } else { assert sent'[i] in sent; }
    }
  }

  lemma NotYetSummoned(cfg: Config, log: seq<Input>, e: Event)
    requires ValidConfig(cfg) && e in OwnEvents(cfg, log, e.summonFrame)
    ensures e.summonFrame <= |log| + 1
  {
  }

  lemma SentAtStart(cfg: Config)
    requires ValidConfig(cfg)
    ensures SentOwnEvents(cfg, [], [ConnectEvent(cfg)]) && InTurn([ConnectEvent(cfg)])
    ensures SentBy(cfg.player, [ConnectEvent(cfg)])
  {
  }

  lemma SentOneMore(cfg: Config, log: seq<Input>, input: Input, sent: seq<Event>, sent': seq<Event>)
    requires ValidConfig(cfg) && SentOwnEvents(cfg, log, sent) && InTurn(sent) && sent <= sent'
    requires multiset(sent') == multiset(sent) + multiset(OwnEvents(cfg, log + [input], |log| + 1))
    ensures SentOwnEvents(cfg, log + [input], sent') && InTurn(sent')
  {
    hide OwnEvents;
    SentLast(cfg, log, input, sent, sent');
    forall e
      ensures e in sent' <==> e in OwnEvents(cfg, log + [input], e.summonFrame)
    {
      var now := OwnEvents(cfg, log + [input], |log| + 1);
      assert (e in sent' <==> e in multiset(sent')) && (e in multiset(sent') <==> e in sent || e in now);
      OwnEventsStay(cfg, log, input, e.summonFrame);
      if e in now { OwnEventSummoned(cfg, log + [input], |log| + 1, e); }
    }
  }

  lemma {:induction false} SlotsFitBefore(cfg: Config, log: seq<Input>, n: nat)
    requires ValidConfig(cfg) && SlotsFit(cfg, log) && n <= |log|
    ensures SlotsFit(cfg, log[..n])
    decreases |log|
  {
    hide SlotsFit;
    if n == |log| {
      assert log[..n] == log;
    } else {
      var front := log[..|log| - 1];
      assert front + [log[|log| - 1]] == log;
      SlotsFitFront(cfg, front, log[|log| - 1]);
      SlotsFitBefore(cfg, front, n);
      assert front[..n] == log[..n];
    }
  }

  lemma SlotsFitFront(cfg: Config, log: seq<Input>, input: Input)
    requires ValidConfig(cfg) && SlotsFit(cfg, log + [input])
    ensures SlotsFit(cfg, log)
  {
    forall k
      ensures |Filed(cfg, log, k)| <= cfg.room
    {
      SlotGrows(cfg, log, input, k);
    }
    forall q
      ensures |Held(cfg, log, q)| <= cfg.room
    {
      assert (log + [input])[..|log|] == log;
      assert |Held(cfg, log + [input], q)| <= cfg.room;
    }
  }

  lemma SlotGrows(cfg: Config, log: seq<Input>, input: Input, k: int)
    requires ValidConfig(cfg)
    ensures |Filed(cfg, log, k)| <= |Filed(cfg, log + [input], k)|
  {
    hide Filed, Held, For, NewOwn;
    FiledStep(cfg, log, input, k);
    SameLength(Filed(cfg, log, k) + NewOwn(cfg, log, input, k) + For(Held(cfg, log + [input], |log| + 1), k),
               Filed(cfg, log + [input], k));
  }

  /** What a trace holds for the frames `1 .. k`. */
  ghost function ScriptOf(t: Trace, k: nat): seq<set<Action>> {
    seq(k, i => Actions(Slot(t, i + 1)))
  }

  /** The repaired cache equals a full replay of the client's own event trace, and counts frames. */
  lemma CacheIsReplay(c: Client, k: nat)
    requires c.Valid() && k < c.frame
    ensures c.stateTrace[k] == Replay(ScriptOf(c.eventTrace, k))
    ensures c.stateTrace[k].frame == k && Sane(WorldOf(c.stateTrace[k]))
  {
    TraceReplays(c.cfg, c.log, c.eventTrace, k);
    assert ScriptOf(c.eventTrace, k) == Slots(c.cfg, c.log, k);
    ReachableSane(Slots(c.cfg, c.log, k));
  }

  /** Every received event is in the trace once, from the frame it leaves the hold queue on. */
  lemma DeliveredOnce(c: Client, e: Event)
    requires c.Valid()
    ensures multiset(Slot(c.eventTrace, e.frame))[e]
            == multiset(OwnEvents(c.cfg, c.log, e.frame - OwnDelay(c.cfg)))[e] + Arrivals(c.cfg, c.log, |c.log|, e)
  {
    hide Slot, Filed, Held, OwnEvents, Delivered, Arrivals, StateAt, OnHold, LegalLog, OwnDelay;
    assert multiset(Slot(c.eventTrace, e.frame)) == multiset(Filed(c.cfg, c.log, e.frame));
    ArrivalsDelivered(c.cfg, c.log, |c.log|, e);
    FiledCount(c.cfg, c.log, e);
  }

  /** When an event is in a slot of the trace: it was summoned for it, or received for it and due. */
  lemma InTraceWhen(c: Client, k: int, e: Event)
    requires c.Valid()
    ensures e in Slot(c.eventTrace, k) <==>
              || (e.frame == k && SummonedIn(c.cfg, c.log, e.summonFrame, e))
              || exists a, x :: DeliveredFrom(c.cfg, c.log, |c.log|, k, e, a, x)
  {
    hide Delivered, OwnEvents, Slot, StateAt, OnHold, LegalLog;
    var cfg, log := c.cfg, c.log;
    assert multiset(Slot(c.eventTrace, k)) == multiset(Filed(cfg, log, k));
    SameMembers(Slot(c.eventTrace, k), Filed(cfg, log, k));
    DeliveredMembers(cfg, log, |log|, k, e);
    OwnMembers(cfg, log, k - OwnDelay(cfg), e);
  }

  lemma ReceivedIsKnown(cfg: Config, log: seq<Input>, a: int, x: Event)
    requires ValidConfig(cfg) && LegalLog(cfg, log) && ReceivedIn(log, a, x)
    ensures KnownPlayer(x)
  {
    assert LegalInput(cfg, log[a - 1]);
  }

  /**
   The trace of a timewarp client, event by event: its connection and its keys,
   stamped `localLag` ahead of the frame they were summoned in, and what it received,
   in the frame it was stamped for, once the lag to its player is over.
   */
  lemma TimewarpTrace(c: Client, localLag: nat, k: int, e: Event)
    requires c.Valid() && c.cfg.protocol == Timewarp(localLag)
    ensures e in Slot(c.eventTrace, k) <==>
              && e.frame == k
              && (|| (e.player == c.cfg.player && k == e.summonFrame + localLag
                      && ((e.summonFrame == 1 && e.button == 4 && e.pressed == 1)
                          || (1 <= e.summonFrame <= |c.log| && Key(e.button, e.pressed) in c.log[e.summonFrame - 1].keys)))
                  || (0 <= e.player < MAX_PLAYERS
                      && (c.cfg.lags[e.player] == 0 || e.summonFrame + c.cfg.lags[e.player] <= |c.log|)
                      && exists a :: ReceivedIn(c.log, a, e)))
  {
    hide Slot, StateAt, OnHold, Follows, LegalLog, Received;
    InTraceWhen(c, k, e);
    if a, x :| DeliveredFrom(c.cfg, c.log, |c.log|, k, e, a, x) {
      assert ReceivedIn(c.log, a, e);
      ReceivedIsKnown(c.cfg, c.log, a, e);
    }
    if a :| ReceivedIn(c.log, a, e) {
      assert DeliveredFrom(c.cfg, c.log, |c.log|, k, e, a, e)
        <==> DueBy(c.cfg, a, e, |c.log|) && e.frame == k;
    }
  }

  /** The trace of a client of fast event ordering: what it received is in the frame of the delays. */
  lemma OrderingTrace(c: Client, delays: seq<int>, k: int, e: Event)
    requires c.Valid() && c.cfg.protocol == FastEventOrdering(delays)
    ensures e in Slot(c.eventTrace, k) <==>
              || (e.player == c.cfg.player && e.frame == k == e.summonFrame + delays[c.cfg.player]
                  && ((e.summonFrame == 1 && e.button == 4 && e.pressed == 1)
                      || (1 <= e.summonFrame <= |c.log| && Key(e.button, e.pressed) in c.log[e.summonFrame - 1].keys)))
              || (exists a, x :: ReceivedIn(c.log, a, x) && 0 <= x.player < MAX_PLAYERS
                    && (c.cfg.lags[x.player] == 0 || x.summonFrame + c.cfg.lags[x.player] <= |c.log|)
                    && k == x.summonFrame + delays[x.player] && e == x.(frame := k))
  {
    hide Slot, StateAt, OnHold, Follows, LegalLog, Received;
    InTraceWhen(c, k, e);
    if a, x :| DeliveredFrom(c.cfg, c.log, |c.log|, k, e, a, x) {
      assert ReceivedIn(c.log, a, x);
      ReceivedIsKnown(c.cfg, c.log, a, x);
    }
    if a, x :| ReceivedIn(c.log, a, x) && 0 <= x.player < MAX_PLAYERS
               && (c.cfg.lags[x.player] == 0 || x.summonFrame + c.cfg.lags[x.player] <= |c.log|)
               && k == x.summonFrame + delays[x.player] && e == x.(frame := k) {
      assert DeliveredFrom(c.cfg, c.log, |c.log|, k, e, a, x);
    }
  }

  /**
   What a client holds for frame `q`: what arrived in it without a lag, or whose lag
   ended in it, or had ended before it arrived in it.
   */
  lemma OnHoldWhen(c: Client, q: int, e: Event)
    requires c.Valid()
    ensures e in Slot(c.eventBuffer, q) <==>
              exists a, x :: ReceivedIn(c.log, a, x) && 0 <= x.player < MAX_PLAYERS && Executes(c.cfg, x, e)
                && (if c.cfg.lags[x.player] == 0 || x.summonFrame + c.cfg.lags[x.player] < a then q == a
                    else q == x.summonFrame + c.cfg.lags[x.player])
  {
    hide Held, Slot, StateAt, Follows, LegalLog, Received;
    assert multiset(Slot(c.eventBuffer, q)) == multiset(Held(c.cfg, c.log, q));
    SameMembers(Slot(c.eventBuffer, q), Held(c.cfg, c.log, q));
    HeldMembers(c.cfg, c.log, q, e);
    if a, x :| HeldFrom(c.cfg, c.log, q, e, a, x) {
      assert ReceivedIn(c.log, a, x);
      ReceivedIsKnown(c.cfg, c.log, a, x);
    }
    if a, x :| ReceivedIn(c.log, a, x) && 0 <= x.player < MAX_PLAYERS && Executes(c.cfg, x, e)
               && (if c.cfg.lags[x.player] == 0 || x.summonFrame + c.cfg.lags[x.player] < a then q == a
                   else q == x.summonFrame + c.cfg.lags[x.player]) {
      assert HeldFrom(c.cfg, c.log, q, e, a, x);
    }
  }

  lemma FiledCount(cfg: Config, log: seq<Input>, e: Event)
    requires ValidConfig(cfg)
    ensures multiset(Filed(cfg, log, e.frame))[e]
            == multiset(OwnEvents(cfg, log, e.frame - OwnDelay(cfg)))[e] + multiset(Delivered(cfg, log, |log|, e.frame))[e]
  {
    hide OwnEvents, Delivered, OwnDelay;
  }

  /** How many of `evs`, received in frame `a`, are `e` once rewritten and due by `now`. */
  function ArrivalsIn(cfg: Config, evs: seq<Event>, a: int, now: int, e: Event): nat
    requires ValidConfig(cfg)
  {
    if evs == [] then 0
    else
      var x := evs[|evs| - 1];
      ArrivalsIn(cfg, evs[..|evs| - 1], a, now, e) + (if Executes(cfg, x, e) && DueBy(cfg, a, x, now) then 1 else 0)
  }

  function Arrivals(cfg: Config, log: seq<Input>, now: int, e: Event): nat
    requires ValidConfig(cfg)
  {
    if log == [] then 0
    else Arrivals(cfg, log[..|log| - 1], now, e) + ArrivalsIn(cfg, Received(log[|log| - 1].packets), |log|, now, e)
  }

  lemma {:induction false} RipeCount(cfg: Config, evs: seq<Event>, a: int, now: int, e: Event)
    requires ValidConfig(cfg)
    ensures multiset(Ripe(cfg, evs, a, now, e.frame))[e] == ArrivalsIn(cfg, evs, a, now, e)
  {
    hide HoldFrame, ExecFrame, Rewritten, Waits, DueBy, Executes, ValidConfig;
    if evs != [] {
      RipeCount(cfg, evs[..|evs| - 1], a, now, e);
      SameRules(cfg, a, evs[|evs| - 1], e, now);
    }
  }

  lemma {:induction false} ArrivalsDelivered(cfg: Config, log: seq<Input>, now: int, e: Event)
    requires ValidConfig(cfg)
    ensures multiset(Delivered(cfg, log, now, e.frame))[e] == Arrivals(cfg, log, now, e)
  {
    if log != [] {
      ArrivalsDelivered(cfg, log[..|log| - 1], now, e);
      RipeCount(cfg, Received(log[|log| - 1].packets), |log|, now, e);
    }
  }

  predicate IsEvent(p: Packet) {
    p.payload.Some? && p.payload.value.EventPayload?
  }

  lemma ReceivedOneMore(packets: seq<Packet>, i: nat)
    requires i < |packets|
    ensures IsEvent(packets[i]) ==> Received(packets[..i + 1]) == Received(packets[..i]) + [packets[i].payload.value.event]
    ensures !IsEvent(packets[i]) ==> Received(packets[..i + 1]) == Received(packets[..i])
  {
    assert packets[..i + 1][..i] == packets[..i];
  }

  lemma {:induction false} ReceivedMember(packets: seq<Packet>, i: nat)
    requires i < |packets| && IsEvent(packets[i])
    ensures packets[i].payload.value.event in Received(packets)
  {
    var n := |packets| - 1;
    if i < n { ReceivedMember(packets[..n], i); }
  }

  lemma SameMembers(a: seq<Event>, b: seq<Event>)
    requires multiset(a) == multiset(b)
    ensures forall e :: e in a <==> e in b
  {
    assert forall e :: e in a <==> e in multiset(a);
    assert forall e :: e in b <==> e in multiset(b);
  }

  lemma ReplayNext(slots: seq<set<Action>>, i: int)
    requires 1 <= i <= |slots|
    ensures Replay(slots[..i]) == Advance(Replay(slots[..i - 1]), slots[i - 1])
  {
    assert slots[..i][..i - 1] == slots[..i - 1];
  }

  lemma MergedNothing(t: Trace)
    ensures forall held: seq<Event> :: MergedInto(t, t, held[..0])
    ensures MergedInto(t, t, [])
  {
  }

  lemma LegalPrefix(slots: seq<set<Action>>, k: nat)
    requires LegalScript(slots) && k <= |slots|
    ensures LegalScript(slots[..k])
  {
  }

  lemma HoldHasRoom(cfg: Config, b0: Trace, b: Trace, packets: seq<Packet>, i: nat, f: int)
    requires ValidConfig(cfg) && i < |packets|
    requires IsEvent(packets[i])
    requires RoomOnHold(cfg, b0, Received(packets), f) && Buffered(cfg, b0, b, Received(packets[..i]), f)
    ensures |Slot(b, HoldFrame(cfg, f, packets[i].payload.value.event))| < cfg.room
  {
    var e := packets[i].payload.value.event;
    var h := HoldFrame(cfg, f, e);
    DuePrefix(cfg, packets, i + 1, f, h);
    ReceivedOneMore(packets, i);
    DueOneMore(cfg, Received(packets[..i]), e, f);
    assert |Slot(b0, h)| + |Due(cfg, Received(packets), f, h)| <= cfg.room;
    assert Slot(b, h) == Slot(b0, h) + Due(cfg, Received(packets[..i]), f, h);
  }

  lemma HeldOneMore(cfg: Config, b0: Trace, b: Trace, b': Trace, evs: seq<Event>, e: Event, f: int)
    requires ValidConfig(cfg) && Buffered(cfg, b0, b, evs, f)
    requires SlotExtended(b, b', HoldFrame(cfg, f, e), [Rewritten(cfg, e)])
    ensures Buffered(cfg, b0, b', evs + [e], f)
  {
    DueOneMore(cfg, evs, e, f);
    forall q
      ensures Slot(b', q) == Slot(b0, q) + Due(cfg, evs + [e], f, q)
    {
      assert Slot(b, q) == Slot(b0, q) + Due(cfg, evs, f, q);
      Associative(Slot(b0, q), Due(cfg, evs, f, q), [Rewritten(cfg, e)]);
    }
  }

  lemma BufferedNone(cfg: Config, b: Trace, packets: seq<Packet>, f: int)
    requires ValidConfig(cfg)
    ensures Buffered(cfg, b, b, Received(packets[..0]), f)
  {
  }

  lemma DueOneMore(cfg: Config, evs: seq<Event>, e: Event, f: int)
    requires ValidConfig(cfg)
    ensures forall q :: q == HoldFrame(cfg, f, e) ==> Due(cfg, evs + [e], f, q) == Due(cfg, evs, f, q) + [Rewritten(cfg, e)]
    ensures forall q :: q != HoldFrame(cfg, f, e) ==> Due(cfg, evs + [e], f, q) == Due(cfg, evs, f, q)
  {
  }

  lemma ForOneMore(evs: seq<Event>, i: nat)
    requires i < |evs|
    ensures forall k :: k == evs[i].frame ==> For(evs[..i + 1], k) == For(evs[..i], k) + [evs[i]]
    ensures forall k :: k != evs[i].frame ==> For(evs[..i + 1], k) == For(evs[..i], k)
  {
    assert evs[..i + 1][..i] == evs[..i];
  }

  lemma MergedOneMore(t0: Trace, t: Trace, t': Trace, held: seq<Event>, i: nat)
    requires i < |held| && MergedInto(t0, t, held[..i]) && SlotExtended(t, t', held[i].frame, [held[i]])
    ensures MergedInto(t0, t', held[..i + 1])
  {
    ForOneMore(held, i);
    forall k
      ensures Slot(t', k) == Slot(t0, k) + For(held[..i + 1], k)
    {
      assert Slot(t, k) == Slot(t0, k) + For(held[..i], k);
      Associative(Slot(t0, k), For(held[..i], k), [held[i]]);
    }
  }

  lemma OldestOneMore(m: int, now: int, held: seq<Event>, i: nat)
    requires i < |held| && OldestTouched(m, now, held[..i])
    ensures OldestTouched(if held[i].frame < m then held[i].frame else m, now, held[..i + 1])
  {
  }

  lemma MergeHasRoom(cfg: Config, t0: Trace, t: Trace, held: seq<Event>, i: nat)
    requires i < |held| && MergedInto(t0, t, held[..i]) && RoomFor(cfg, t0, held)
    ensures |Slot(t, held[i].frame)| < cfg.room
  {
    var k := held[i].frame;
    ForPrefix(held, i + 1, k);
    ForOneMore(held, i);
    assert |Slot(t0, k)| + |For(held, k)| <= cfg.room;
    assert Slot(t, k) == Slot(t0, k) + For(held[..i], k);
  }

  lemma OwnFiledBy(cfg: Config, log: seq<Input>, input: Input, t: Trace, t': Trace)
    requires ValidConfig(cfg)
    requires SlotExtended(t, t', |log| + 1 + OwnDelay(cfg), KeyEvents(cfg, |log| + 1, input.keys))
    ensures OwnFiled(cfg, log, input, t, t')
  {
  }

  // ---------------------------------------------------------------- the step, on values

  /** The trace and the hold buffer hold what the log says. */
  ghost predicate Follows(cfg: Config, log: seq<Input>, t: Trace)
    requires ValidConfig(cfg)
  {
    forall k {:trigger Slot(t, k)} :: multiset(Slot(t, k)) == multiset(Filed(cfg, log, k))
  }

  ghost predicate OnHold(cfg: Config, log: seq<Input>, b: Trace)
    requires ValidConfig(cfg)
  {
    forall q {:trigger Slot(b, q)} :: multiset(Slot(b, q)) == multiset(Held(cfg, log, q))
  }

  lemma SameFollows(cfg: Config, log: seq<Input>, t: Trace, t': Trace)
    requires ValidConfig(cfg) && Follows(cfg, log, t)
    requires forall k :: multiset(Slot(t', k)) == multiset(Slot(t, k))
    ensures Follows(cfg, log, t')
  {
  }

  lemma SameLength(a: seq<Event>, b: seq<Event>)
    requires multiset(a) == multiset(b)
    ensures |a| == |b|
  {
    assert |multiset(a)| == |a| && |multiset(b)| == |b|;
  }

  /** The slots have room for the own events and for those put on hold. */
  lemma RoomToFile(cfg: Config, log: seq<Input>, input: Input, t: Trace, b: Trace)
    requires ValidConfig(cfg) && SlotsFit(cfg, log + [input]) && Follows(cfg, log, t) && OnHold(cfg, log, b)
    ensures |Slot(t, |log| + 1 + OwnDelay(cfg))| + |input.keys| <= cfg.room
    ensures RoomOnHold(cfg, b, Received(input.packets), |log| + 1)
  {
    RoomForKeys(cfg, log, input, Slot(t, |log| + 1 + OwnDelay(cfg)));
    RoomForHeld(cfg, log, input, b);
  }

  lemma RoomForHeld(cfg: Config, log: seq<Input>, input: Input, b: Trace)
    requires ValidConfig(cfg) && SlotsFit(cfg, log + [input]) && OnHold(cfg, log, b)
    ensures RoomOnHold(cfg, b, Received(input.packets), |log| + 1)
  {
    forall q
      ensures |Slot(b, q)| + |Due(cfg, Received(input.packets), |log| + 1, q)| <= cfg.room
    {
      RoomOnHoldAt(cfg, log, input, Slot(b, q), q);
    }
  }

  lemma RoomForKeys(cfg: Config, log: seq<Input>, input: Input, slot: seq<Event>)
    requires ValidConfig(cfg)
    requires multiset(slot) == multiset(Filed(cfg, log, |log| + 1 + OwnDelay(cfg)))
    requires |Filed(cfg, log + [input], |log| + 1 + OwnDelay(cfg))| <= cfg.room
    ensures |slot| + |input.keys| <= cfg.room
  {
    hide Filed, Held, OwnEvents;
    var k := |log| + 1 + OwnDelay(cfg);
    FiledStep(cfg, log, input, k);
    var own := NewOwn(cfg, log, input, k);
    var more := For(Held(cfg, log + [input], |log| + 1), k);
    SameLength(slot + own + more, Filed(cfg, log + [input], k));
  }

  lemma RoomOnHoldAt(cfg: Config, log: seq<Input>, input: Input, slot: seq<Event>, q: int)
    requires ValidConfig(cfg)
    requires multiset(slot) == multiset(Held(cfg, log, q))
    requires |Held(cfg, log + [input], q)| <= cfg.room
    ensures |slot| + |Due(cfg, Received(input.packets), |log| + 1, q)| <= cfg.room
  {
    assert (log + [input])[..|log|] == log;
    SameLength(slot, Held(cfg, log, q));
  }

  lemma BufferFollows(cfg: Config, log: seq<Input>, input: Input, b: Trace, b': Trace)
    requires ValidConfig(cfg) && OnHold(cfg, log, b)
    requires Buffered(cfg, b, b', Received(input.packets), |log| + 1)
    ensures OnHold(cfg, log + [input], b')
  {
    assert (log + [input])[..|log|] == log;
  }

  /** A slot after the own events were filed and the held ones merged. */
  lemma MergedSlot(cfg: Config, log: seq<Input>, input: Input, slot: seq<Event>, held: seq<Event>, k: int)
    requires ValidConfig(cfg)
    requires multiset(slot) == multiset(Filed(cfg, log, k))
    requires multiset(held) == multiset(Held(cfg, log + [input], |log| + 1))
    ensures multiset(slot + NewOwn(cfg, log, input, k) + For(held, k)) == multiset(Filed(cfg, log + [input], k))
  {
    FiledStep(cfg, log, input, k);
    ForMultiset(held, Held(cfg, log + [input], |log| + 1), k);
  }

  lemma RoomToMerge(cfg: Config, log: seq<Input>, input: Input, t: Trace, t1: Trace, b: Trace)
    requires ValidConfig(cfg) && SlotsFit(cfg, log + [input]) && Follows(cfg, log, t)
    requires OwnFiled(cfg, log, input, t, t1) && OnHold(cfg, log + [input], b)
    ensures RoomFor(cfg, t1, Slot(b, |log| + 1))
  {
    hide Filed, Held, For, NewOwn;
    var held := Slot(b, |log| + 1);
    forall k
      ensures |Slot(t1, k)| + |For(held, k)| <= cfg.room
    {
      MergedSlot(cfg, log, input, Slot(t, k), held, k);
      SameLength(Slot(t1, k) + For(held, k), Filed(cfg, log + [input], k));
    }
  }

  lemma TraceFollows(cfg: Config, log: seq<Input>, input: Input, t: Trace, t1: Trace, t2: Trace, b: Trace)
    requires ValidConfig(cfg) && Follows(cfg, log, t)
    requires OwnFiled(cfg, log, input, t, t1) && OnHold(cfg, log + [input], b)
    requires MergedInto(t1, t2, Slot(b, |log| + 1))
    ensures Follows(cfg, log + [input], t2)
  {
    hide Filed, Held, For, NewOwn;
    var held := Slot(b, |log| + 1);
    forall k
      ensures multiset(Slot(t2, k)) == multiset(Filed(cfg, log + [input], k))
    {
      MergedSlot(cfg, log, input, Slot(t, k), held, k);
    }
  }

  /** The rollback starts between frame 1 and the present, at the oldest held event. */
  lemma RollbackInRange(cfg: Config, log: seq<Input>, input: Input, b: Trace, from: int)
    requires ValidConfig(cfg) && LegalLog(cfg, log + [input]) && OnHold(cfg, log + [input], b)
    requires OldestTouched(from, |log| + 1, Slot(b, |log| + 1))
    ensures OldestTouched(from, |log| + 1, Held(cfg, log + [input], |log| + 1)) && 1 <= from <= |log| + 1
    ensures forall e :: e in Held(cfg, log + [input], |log| + 1) ==> from <= e.frame
  {
    hide Held, Slot;
    var log' := log + [input];
    var held := Slot(b, |log| + 1);
    SameMembers(held, Held(cfg, log', |log'|));
    if from != |log'| {
      var e :| e in held && e.frame == from;
      HeldLegal(cfg, log', |log'|, e);
    }
  }

  lemma StatesOfPrefixes(cfg: Config, log: seq<Input>, n: nat)
    requires ValidConfig(cfg)
    ensures forall k: nat :: k <= n ==> Replay(Slots(cfg, log, n)[..k]) == StateAt(cfg, log, k)
  {
    forall k: nat | k <= n
      ensures Slots(cfg, log, n)[..k] == Slots(cfg, log, k)
    {
    }
  }

  lemma {:induction false} ForNothing(evs: seq<Event>, k: int)
    requires forall e :: e in evs ==> e.frame != k
    ensures For(evs, k) == []
  {
    if evs != [] { ForNothing(evs[..|evs| - 1], k); }
  }

  /** Slots before the rollback keep their events. */
  lemma SlotBefore(cfg: Config, log: seq<Input>, input: Input, from: int, k: int)
    requires ValidConfig(cfg)
    requires k < from <= |log| + 1
    requires forall e :: e in Held(cfg, log + [input], |log| + 1) ==> from <= e.frame
    ensures Actions(Filed(cfg, log + [input], k)) == Actions(Filed(cfg, log, k))
  {
    FiledStep(cfg, log, input, k);
    ForNothing(Held(cfg, log + [input], |log| + 1), k);
    assert NewOwn(cfg, log, input, k) == [];
    SameActions(Filed(cfg, log + [input], k), Filed(cfg, log, k));
  }

  /** Frames before the rollback keep their states. */
  lemma StatesBefore(cfg: Config, log: seq<Input>, input: Input, from: int)
    requires ValidConfig(cfg)
    requires 0 <= from <= |log| + 1
    requires forall e :: e in Held(cfg, log + [input], |log| + 1) ==> from <= e.frame
    ensures forall k: nat :: k < from ==> StateAt(cfg, log + [input], k) == StateAt(cfg, log, k)
  {
    hide Filed, Held, Replay;
    forall k: nat | k < from
      ensures StateAt(cfg, log + [input], k) == StateAt(cfg, log, k)
    {
      var a, b := Slots(cfg, log + [input], k), Slots(cfg, log, k);
      forall i | 0 <= i < k
        ensures a[i] == b[i]
      {
        SlotBefore(cfg, log, input, from, i + 1);
      }
      assert a == b;
    }
  }

  lemma SlotOf(cfg: Config, log: seq<Input>, t: Trace, n: nat, k: int)
    requires ValidConfig(cfg) && Follows(cfg, log, t) && 1 <= k <= n
    ensures Slots(cfg, log, n)[k - 1] == Actions(Slot(t, k))
  {
    hide Filed, Slot;
    assert multiset(Slot(t, k)) == multiset(Filed(cfg, log, k));
    SameActions(Slot(t, k), Filed(cfg, log, k));
  }

  /** A trace that follows a legal log can be replayed. */
  lemma TraceReplays(cfg: Config, log: seq<Input>, t: Trace, n: nat)
    requires ValidConfig(cfg) && LegalLog(cfg, log) && Follows(cfg, log, t)
    ensures LegalScript(Slots(cfg, log, n))
    ensures forall k :: 1 <= k <= n ==> Slots(cfg, log, n)[k - 1] == Actions(Slot(t, k))
    ensures forall k, e :: e in Slot(t, k) ==> Legal(e)
  {
    hide Filed, Slot, LegalLog, LegalScript, Actions, Slots, Legal;
    SlotsLegal(cfg, log, n);
    forall k | 1 <= k <= n
      ensures Slots(cfg, log, n)[k - 1] == Actions(Slot(t, k))
    {
      SlotOf(cfg, log, t, n, k);
    }
    forall k, e | e in Slot(t, k)
      ensures Legal(e)
    {
      assert multiset(Slot(t, k)) == multiset(Filed(cfg, log, k));
      FiledSlotLegal(cfg, log, Slot(t, k), k, e);
    }
  }

  lemma FiledSlotLegal(cfg: Config, log: seq<Input>, slot: seq<Event>, k: int, e: Event)
    requires ValidConfig(cfg) && LegalLog(cfg, log) && multiset(slot) == multiset(Filed(cfg, log, k)) && e in slot
    ensures Legal(e)
  {
    SameMembers(slot, Filed(cfg, log, k));
    FiledLegal(cfg, log, k, e);
  }

  // ---------------------------------------------------------------- what is sent

  /** Nobody else uses this client's id. */
  ghost predicate Faithful(cfg: Config, log: seq<Input>) {
    forall i, e :: 0 <= i < |log| && e in Received(log[i].packets) ==> e.player != cfg.player
  }

  lemma {:induction false} OfPlayerCount(evs: seq<Event>, player: int, e: Event)
    ensures multiset(OfPlayer(evs, player))[e] == if e.player == player then multiset(evs)[e] else 0
  {
    if evs != [] {
      var n := |evs| - 1;
      assert evs == evs[..n] + [evs[n]];
      OfPlayerCount(evs[..n], player, e);
    }
  }

  /** Nothing that was delivered claims to come from the client itself. */
  lemma AllByOthers(cfg: Config, log: seq<Input>, now: int, k: int)
    requires ValidConfig(cfg) && Faithful(cfg, log)
    ensures forall e :: e in Delivered(cfg, log, now, k) ==> e.player != cfg.player
  {
    forall e | e in Delivered(cfg, log, now, k)
      ensures e.player != cfg.player
    {
      DeliveredMembers(cfg, log, now, k, e);
      var a, x :| DeliveredFrom(cfg, log, now, k, e, a, x);
    }
  }

  lemma AllOwn(cfg: Config, log: seq<Input>, s: int)
    requires ValidConfig(cfg)
    ensures forall e :: e in OwnEvents(cfg, log, s) ==>
              e.player == cfg.player && e.summonFrame == s && e.frame == s + OwnDelay(cfg)
  {
  }

  /** Of own events and others', `OfPlayer` keeps the own. */
  lemma OwnAmong(own: seq<Event>, others: seq<Event>, slot: seq<Event>, player: int)
    requires multiset(slot) == multiset(own) + multiset(others)
    requires forall e :: e in own ==> e.player == player
    requires forall e :: e in others ==> e.player != player
    ensures multiset(OfPlayer(slot, player)) == multiset(own)
  {
    forall e
      ensures multiset(OfPlayer(slot, player))[e] == multiset(own)[e]
    {
      OfPlayerCount(slot, player, e);
    }
  }

  lemma FaithfulPrefix(cfg: Config, log: seq<Input>, input: Input)
    requires Faithful(cfg, log + [input])
    ensures Faithful(cfg, log)
  {
    forall i, e | 0 <= i < |log| && e in Received(log[i].packets)
      ensures e.player != cfg.player
    {
      assert (log + [input])[i] == log[i];
    }
  }

  lemma SlotOfOwn(cfg: Config, log: seq<Input>, input: Input, slot: seq<Event>)
    requires ValidConfig(cfg)
    requires multiset(slot) == multiset(Filed(cfg, log, |log| + 1 + OwnDelay(cfg)))
    ensures multiset(slot + KeyEvents(cfg, |log| + 1, input.keys))
            == multiset(OwnEvents(cfg, log + [input], |log| + 1))
             + multiset(Delivered(cfg, log, |log|, |log| + 1 + OwnDelay(cfg)))
  {
  }

  /** What a frame sends is what the client summoned in it. */
  lemma SentOwn(cfg: Config, log: seq<Input>, input: Input, slot: seq<Event>)
    requires ValidConfig(cfg)
    requires multiset(slot) == multiset(Filed(cfg, log, |log| + 1 + OwnDelay(cfg)))
    ensures Faithful(cfg, log + [input]) ==>
              multiset(OfPlayer(slot + KeyEvents(cfg, |log| + 1, input.keys), cfg.player))
              == multiset(OwnEvents(cfg, log + [input], |log| + 1))
  {
    hide Delivered, OwnEvents, KeyEvents, OfPlayer;
    if Faithful(cfg, log + [input]) {
      FaithfulPrefix(cfg, log, input);
      SlotOfOwn(cfg, log, input, slot);
      AllOwn(cfg, log + [input], |log| + 1);
      AllByOthers(cfg, log, |log|, |log| + 1 + OwnDelay(cfg));
      OwnAmong(OwnEvents(cfg, log + [input], |log| + 1), Delivered(cfg, log, |log|, |log| + 1 + OwnDelay(cfg)),
               slot + KeyEvents(cfg, |log| + 1, input.keys), cfg.player);
    }
  }
}
