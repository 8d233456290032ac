/**
 The whole game: clients that simulate it with rollback, on top of the server and
 the network. What the theorems about sessions ask of the network is derived from
 the runs of the server, and the result is about the clients' traces at any moment
 of the game.
 */
module Games {
  import opened Options
  import opened Balls
  import opened Buffers
  import opened Packets
  import opened Framing
  import opened Servers
  import opened EndToEnd
  import opened Replicas
  import opened Rollback
  import opened Delays
  import opened Sessions

  // ---------------------------------------------------------------- from packets to events

  lemma {:induction false} PayloadIsBy(packets: seq<Packet>, i: nat, s: int)
    requires i < |packets| && packets[i].sender == Some(s) && packets[i].payload.Some?
    ensures packets[i].payload.value in By(packets, s)
  {
    var n := |packets| - 1;
    if i < n {
      PayloadIsBy(packets[..n], i, s);
    }
  }

  lemma {:induction false} ByIsPayload(packets: seq<Packet>, s: int, p: Payload) returns (i: nat)
    requires p in By(packets, s)
    ensures i < |packets| && packets[i].sender == Some(s) && packets[i].payload == Some(p)
  {
    var n := |packets| - 1;
    if p in By(packets[..n], s) {
      i := ByIsPayload(packets[..n], s, p);
    } else {
      i := n;
    }
  }

  lemma {:induction false} ReceivedFrom(packets: seq<Packet>, x: Event) returns (i: nat)
    requires x in Received(packets)
    ensures i < |packets| && packets[i].payload == Some(EventPayload(x))
  {
    var n := |packets| - 1;
    if x in Received(packets[..n]) {
      i := ReceivedFrom(packets[..n], x);
    } else {
      i := n;
    }
  }

  /** All packets a client has retrieved in its game, in their order. */
  function AllPackets(log: seq<Input>): seq<Packet> {
    if log == [] then [] else AllPackets(log[..|log| - 1]) + log[|log| - 1].packets
  }

  lemma {:induction false} PacketOfFrame(log: seq<Input>, a: int, p: Packet)
    requires 1 <= a <= |log| && p in log[a - 1].packets
    ensures p in AllPackets(log)
  {
    if a < |log| { PacketOfFrame(log[..|log| - 1], a, p); }
  }

  lemma {:induction false} FrameOfPacket(log: seq<Input>, p: Packet) returns (a: int)
    requires p in AllPackets(log)
    ensures 1 <= a <= |log| && p in log[a - 1].packets
  {
    var n := |log| - 1;
    if p in log[n].packets {
      a := |log|;
    } else {
      a := FrameOfPacket(log[..n], p);
    }
  }

  // ---------------------------------------------------------------- a game over the server

  /** What the players have sent so far, as `Rollback.Play` says of it; in 32-bit frames. */
  ghost predicate Sent(cfgs: seq<Config>, logs: seq<seq<Input>>, sent: seq<seq<Event>>)
    requires Session(cfgs, logs)
  {
    && |sent| == |cfgs|
    && forall s :: 0 <= s < |cfgs| ==>
         && SentBy(s, sent[s]) && (Faithful(cfgs[s], logs[s]) ==> SentOwnEvents(cfgs[s], logs[s], sent[s]) && InTurn(sent[s]))
         && forall e :: e in sent[s] ==> Sendable(EventPayload(e))
  }

  /**
   The players are on the server, which has read a beginning of what each of them
   sent; the bytes that have reached player `i`, in some chunks, are a beginning of
   what the server sent to it; and what it retrieved is a beginning of that.
   */
  ghost predicate Online(v: Server, cfgs: seq<Config>, logs: seq<seq<Input>>, sent: seq<seq<Event>>, i: nat,
                         chunks: seq<seq<byte>>, stale: int)
    requires Session(cfgs, logs) && Sent(cfgs, logs, sent) && i < |cfgs|
  {
    && |v.clients| == |v.list| == |cfgs|
    && (forall s :: 0 <= s < |cfgs| ==> ReadFrom(v.clients[s], sent[s]))
    && (AllFit(v.clients[i].sent) ==> Flatten(chunks) <= Flatten(Wire(v.clients[i].sent)))
    && AllPackets(logs[i]) <= PacketsOf(SectionChunks(chunks).0, stale)
  }

  ghost predicate ReadFrom(c: Servers.Client, evs: seq<Event>)
    requires forall e :: e in evs ==> Sendable(EventPayload(e))
  {
    c.received <= Flatten(EncodeAll(EventPayloads(evs)))
  }

  /** What a client has retrieved is, of every other player, a beginning of what it sent, and nothing else. */
  ghost predicate Linked(logs: seq<seq<Input>>, sent: seq<seq<Event>>, i: nat)
    requires |logs| == |sent| && i < |logs|
  {
    && (forall s :: 0 <= s < |logs| && s != i ==>
          SoFar(By(AllPackets(logs[i]), s), [Payload.Connected] + EventPayloads(sent[s])))
    && (forall p :: p in AllPackets(logs[i]) ==>
          p.sender.Some? && 0 <= p.sender.value < |logs| && p.sender.value != i)
  }

  lemma EventsArrive(evs: seq<Event>, stale: int)
    ensures ArrivedAll([Payload.Connected] + EventPayloads(evs), stale) == [Payload.Connected] + EventPayloads(evs)
  {
  }

  /** At any moment of any run of the server, whatever its threads and the network did. */
  lemma OnlineIsLinked(steps: seq<Step>, v: Server, cfgs: seq<Config>, logs: seq<seq<Input>>, sent: seq<seq<Event>>,
                       i: nat, chunks: seq<seq<byte>>, stale: int)
    requires Session(cfgs, logs) && Sent(cfgs, logs, sent) && i < |cfgs|
    requires After(steps) == Some(v) && Online(v, cfgs, logs, sent, i, chunks, stale)
    ensures Linked(logs, sent, i)
  {
    hide After, By, PacketsOf, SectionChunks, Flatten, Wire, EncodeAll, Encode, LegalLog, AllPackets, SoFar, AllFit;
    hide SentOwnEvents, InTurn, Sendable, ArrivedAll;
    RunFits(steps, v, i);
    FirstSent(v, i);
    var packets := PacketsOf(SectionChunks(chunks).0, stale);
    forall s | 0 <= s < |logs| && s != i
      ensures SoFar(By(AllPackets(logs[i]), s), [Payload.Connected] + EventPayloads(sent[s]))
    {
      assert ReadFrom(v.clients[s], sent[s]);
      RelayedSoFar(steps, v, i, s, EventPayloads(sent[s]), chunks, stale);
      EventsArrive(sent[s], stale);
      ByPrefix(AllPackets(logs[i]), packets, s);
      SoFarPrefix(By(AllPackets(logs[i]), s), By(packets, s), [Payload.Connected] + EventPayloads(sent[s]));
    }
    forall p | p in AllPackets(logs[i])
      ensures p.sender.Some? && 0 <= p.sender.value < |logs| && p.sender.value != i
    {
      assert p in packets;
      RelayedFromOthers(steps, v, i, chunks, stale, p);
    }
  }

  lemma FirstSent(v: Server, i: nat)
    requires i < |v.clients| && AllFit(Out(v.clients[i]))
    ensures AllFit(v.clients[i].sent)
  {
    var c := v.clients[i];
    assert forall k :: 0 <= k < |c.sent| ==> c.sent[k] == Out(c)[k];
  }

  // ---------------------------------------------------------------- what the sessions ask for

  lemma SaidIsSent(evs: seq<Event>, heard: seq<Payload>, x: Event)
    requires SoFar(heard, [Payload.Connected] + EventPayloads(evs)) && EventPayload(x) in heard
    ensures x in evs
  {
    var said := [Payload.Connected] + EventPayloads(evs);
    if !(heard <= said) {
      var k :| 0 <= k < |said| && heard <= Repeated(said, k);
      RepeatedSame(said, k, EventPayload(x));
      assert EventPayload(x) in Repeated(said, k);
    }
    assert EventPayload(x) in said;
    assert said[0] == Payload.Connected;
  }

  /** An event that a client retrieves was sent by another player. */
  lemma RetrievedWasSent(logs: seq<seq<Input>>, sent: seq<seq<Event>>, i: nat, a: int, x: Event) returns (s: nat)
    requires |logs| == |sent| && i < |logs| && Linked(logs, sent, i) && ReceivedIn(logs[i], a, x)
    ensures s < |logs| && s != i && x in sent[s]
  {
    hide By, SoFar, Received, AllPackets;
    var packets, all := logs[i][a - 1].packets, AllPackets(logs[i]);
    var j := ReceivedFrom(packets, x);
    PacketOfFrame(logs[i], a, packets[j]);
    var k :| 0 <= k < |all| && all[k] == packets[j];
    s := packets[j].sender.value;
    PayloadIsBy(all, k, s);
    SaidIsSent(sent[s], By(all, s), x);
  }

  /** So nobody gets its own events back, which makes `Play`'s promise about what it sent hold. */
  lemma LinkedIsFaithful(cfgs: seq<Config>, logs: seq<seq<Input>>, sent: seq<seq<Event>>, i: nat)
    requires Session(cfgs, logs) && Sent(cfgs, logs, sent) && i < |cfgs| && Linked(logs, sent, i)
    ensures Faithful(cfgs[i], logs[i])
  {
    hide Linked, Received, LegalLog, Sendable, SentOwnEvents;
    forall f, x | 0 <= f < |logs[i]| && x in Received(logs[i][f].packets)
      ensures x.player != cfgs[i].player
    {
      assert ReceivedIn(logs[i], f + 1, x);
      var s := RetrievedWasSent(logs, sent, i, f + 1, x);
    }
  }

  ghost predicate AllLinked(logs: seq<seq<Input>>, sent: seq<seq<Event>>)
    requires |logs| == |sent|
  {
    forall i :: 0 <= i < |logs| ==> Linked(logs, sent, i)
  }

  /** Every player sent exactly what it summoned, in order. */
  lemma LinkedSentOwn(cfgs: seq<Config>, logs: seq<seq<Input>>, sent: seq<seq<Event>>, s: nat)
    requires Session(cfgs, logs) && Sent(cfgs, logs, sent) && s < |cfgs| && AllLinked(logs, sent)
    ensures SentOwnEvents(cfgs[s], logs[s], sent[s]) && InTurn(sent[s])
  {
    hide Linked, SentOwnEvents, Faithful, InTurn, LegalLog, Sendable, SentBy;
    LinkedIsFaithful(cfgs, logs, sent, s);
  }

  /** Events that a client gets were summoned, as they are, by the players they name. */
  lemma LinkedIsAuthentic(cfgs: seq<Config>, logs: seq<seq<Input>>, sent: seq<seq<Event>>, i: nat)
    requires Session(cfgs, logs) && Sent(cfgs, logs, sent) && i < |cfgs| && AllLinked(logs, sent)
    ensures Authentic(cfgs, logs, i)
  {
    hide Linked, OwnEvents, Received, LegalLog, Sendable, InTurn, Faithful;
    forall a, x | ReceivedIn(logs[i], a, x)
      ensures 0 <= x.player < |cfgs| && x.player != i && x in OwnEvents(cfgs[x.player], logs[x.player], x.summonFrame)
    {
      assert Linked(logs, sent, i);
      var s := RetrievedWasSent(logs, sent, i, a, x);
      LinkedSentOwn(cfgs, logs, sent, s);
    }
  }

  /** Something summoned after frame `m` has been heard, or else all there is. */
  ghost predicate ReachesPast(heard: seq<Payload>, evs: seq<Event>, m: int) {
    || (exists y: Event :: EventPayload(y) in heard && y.summonFrame > m)
    || (forall x :: x in evs ==> EventPayload(x) in heard)
  }

  /** What was said before something that has been heard has been heard. */
  lemma SoFarInOrder<T>(heard: seq<T>, said: seq<T>, b: nat) returns (d: nat)
    requires SoFar(heard, said) && b < |heard|
    ensures d < |said| && said[d] == heard[b] && forall c :: 0 <= c < d ==> said[c] in heard
  {
    if heard <= said {
      d := b;
      assert forall c :: 0 <= c < d ==> heard[c] == said[c];
    } else {
      var k :| 0 <= k < |said| && heard <= Repeated(said, k);
      d := if b <= k then b else b - 1;
      forall c | 0 <= c < d
        ensures said[c] in heard
      {
        var at := if c <= k then c else c + 1;
        assert heard[at] == Repeated(said, k)[at] == said[c];
      }
    }
  }

  /** Everything that a player sent before what has been heard has been heard. */
  lemma HeardBefore(evs: seq<Event>, heard: seq<Payload>, m: int, x: Event)
    requires InTurn(evs) && SoFar(heard, [Payload.Connected] + EventPayloads(evs)) && ReachesPast(heard, evs, m)
    requires x in evs && x.summonFrame <= m
    ensures EventPayload(x) in heard
  {
    hide SoFar;
    var said := [Payload.Connected] + EventPayloads(evs);
    if y: Event :| EventPayload(y) in heard && y.summonFrame > m {
      var a :| 0 <= a < |evs| && evs[a] == x;
      var b :| 0 <= b < |heard| && heard[b] == EventPayload(y);
      var d := SoFarInOrder(heard, said, b);
      assert evs[d - 1] == y && a < d - 1;
      assert said[a + 1] == EventPayload(x);
    }
  }

  /**
   Client `i` has heard from every other player past what was summoned for frame `t`,
   and the frames have passed for which the simulated lag holds that back.
   */
  ghost predicate HasUpTo(cfgs: seq<Config>, logs: seq<seq<Input>>, sent: seq<seq<Event>>, i: nat, t: int)
    requires Session(cfgs, logs) && |sent| == |cfgs| && i < |cfgs|
  {
    forall p: nat :: p < |cfgs| && p != i ==>
      && t - Offset(cfgs, i, p) + cfgs[i].lags[p] <= |logs[i]|
      && ReachesPast(By(AllPackets(logs[i]), p), sent[p], t - Offset(cfgs, i, p))
  }

  /** Then it has everything for the frames up to `t`, although the game goes on. */
  lemma LinkedIsComplete(cfgs: seq<Config>, logs: seq<seq<Input>>, sent: seq<seq<Event>>, i: nat, t: int)
    requires Session(cfgs, logs) && Sent(cfgs, logs, sent) && i < |cfgs| && AllLinked(logs, sent)
    requires HasUpTo(cfgs, logs, sent, i, t)
    ensures Complete(cfgs, logs, i, t)
  {
    hide By, SoFar, OwnEvents, Received, LegalLog, Sendable, InTurn, AllPackets, ReachesPast, Offset, Faithful;
    assert Linked(logs, sent, i);
    var all := AllPackets(logs[i]);
    forall p: nat, s, x | p < |cfgs| && p != i && s + Offset(cfgs, i, p) <= t && x in OwnEvents(cfgs[p], logs[p], s)
      ensures Reached(cfgs[i], logs[i], x)
    {
      OwnEventSummoned(cfgs[p], logs[p], s, x);
      LinkedSentOwn(cfgs, logs, sent, p);
      HeardBefore(sent[p], By(all, p), t - Offset(cfgs, i, p), x);
      var k := ByIsPayload(all, p, EventPayload(x));
      var a := FrameOfPacket(logs[i], all[k]);
      var packets := logs[i][a - 1].packets;
      var j :| 0 <= j < |packets| && packets[j] == all[k];
      ReceivedMember(packets, j);
      assert ReceivedIn(logs[i], a, x);
    }
  }

  // ---------------------------------------------------------------- one game, one film

  /** All players are online. */
  ghost predicate AllOnline(v: Server, cfgs: seq<Config>, logs: seq<seq<Input>>, sent: seq<seq<Event>>,
                            chunks: seq<seq<seq<byte>>>, stale: int)
    requires Session(cfgs, logs) && Sent(cfgs, logs, sent)
  {
    |chunks| == |cfgs| && forall i :: 0 <= i < |cfgs| ==> Online(v, cfgs, logs, sent, i, chunks[i], stale)
  }

  lemma AllOnlineAreLinked(steps: seq<Step>, v: Server, cfgs: seq<Config>, logs: seq<seq<Input>>, sent: seq<seq<Event>>,
                           chunks: seq<seq<seq<byte>>>, stale: int)
    requires Session(cfgs, logs) && Sent(cfgs, logs, sent)
    requires After(steps) == Some(v) && AllOnline(v, cfgs, logs, sent, chunks, stale)
    ensures AllLinked(logs, sent)
  {
    hide After, Online, Linked, LegalLog;
    forall i | 0 <= i < |logs|
      ensures Linked(logs, sent, i)
    {
      OnlineIsLinked(steps, v, cfgs, logs, sent, i, chunks[i], stale);
    }
  }

  /** Client `c` is one of the session's. */
  ghost predicate Plays(c: Rollback.Client, cfgs: seq<Config>, logs: seq<seq<Input>>)
    reads c
    requires Session(cfgs, logs)
  {
    c.Valid() && c.cfg.player < |cfgs| && c.cfg == cfgs[c.cfg.player] && c.log == logs[c.cfg.player]
  }

  /**
   One game. After any run of the server, with any bytes under way anywhere: two
   timewarp clients that have heard from every other player past what was summoned
   for frame `k` have the same states in their traces up to `k`.
   */
  lemma SameGame(steps: seq<Step>, v: Server, cfgs: seq<Config>, logs: seq<seq<Input>>, localLag: nat, sent: seq<seq<Event>>,
                 chunks: seq<seq<seq<byte>>>, stale: int, a: Rollback.Client, b: Rollback.Client, k: nat)
    requires TimewarpSession(cfgs, logs, localLag) && Sent(cfgs, logs, sent)
    requires After(steps) == Some(v) && AllOnline(v, cfgs, logs, sent, chunks, stale)
    requires Plays(a, cfgs, logs) && HasUpTo(cfgs, logs, sent, a.cfg.player, k) && k < a.frame
    requires Plays(b, cfgs, logs) && HasUpTo(cfgs, logs, sent, b.cfg.player, k) && k < b.frame
    ensures a.stateTrace[..k + 1] == b.stateTrace[..k + 1]
  {
    hide After, AllOnline, Linked, StateAt, Follows, OnHold, LegalLog, Complete, Authentic, Sent, HasUpTo;
    var i, j := a.cfg.player, b.cfg.player;
    AllOnlineAreLinked(steps, v, cfgs, logs, sent, chunks, stale);
    LinkedIsAuthentic(cfgs, logs, sent, i);
    LinkedIsAuthentic(cfgs, logs, sent, j);
    LinkedIsComplete(cfgs, logs, sent, i, k);
    LinkedIsComplete(cfgs, logs, sent, j, k);
    forall h: nat | h <= k
      ensures a.stateTrace[h] == b.stateTrace[h]
    {
      CompleteEarlier(cfgs, logs, i, k, h);
      CompleteEarlier(cfgs, logs, j, k, h);
      Convergence(cfgs, logs, localLag, i, j, h);
    }
  }

  /**
   One film. And two clients of fast event ordering that have heard past what was
   summoned for picture `f` have the same world in their traces at `f`, each shifted
   by its lag to the reference.
   */
  lemma SameFilm(steps: seq<Step>, v: Server, cfgs: seq<Config>, logs: seq<seq<Input>>, lags: Matrix, sent: seq<seq<Event>>,
                 chunks: seq<seq<seq<byte>>>, stale: int, a: Rollback.Client, b: Rollback.Client, f: nat)
    requires OrderingSession(cfgs, logs, lags) && Sent(cfgs, logs, sent)
    requires After(steps) == Some(v) && AllOnline(v, cfgs, logs, sent, chunks, stale)
    requires Plays(a, cfgs, logs) && HasUpTo(cfgs, logs, sent, a.cfg.player, f + Shift(lags, |cfgs|, a.cfg.player))
    requires Plays(b, cfgs, logs) && HasUpTo(cfgs, logs, sent, b.cfg.player, f + Shift(lags, |cfgs|, b.cfg.player))
    requires f + Shift(lags, |cfgs|, a.cfg.player) < a.frame && f + Shift(lags, |cfgs|, b.cfg.player) < b.frame
    ensures WorldOf(a.stateTrace[f + Shift(lags, |cfgs|, a.cfg.player)])
         == WorldOf(b.stateTrace[f + Shift(lags, |cfgs|, b.cfg.player)])
  {
    hide After, AllOnline, Linked, StateAt, Follows, OnHold, LegalLog, Complete, Authentic, Sent, HasUpTo, ProperLags;
    var i, j := a.cfg.player, b.cfg.player;
    AllOnlineAreLinked(steps, v, cfgs, logs, sent, chunks, stale);
    LinkedIsAuthentic(cfgs, logs, sent, i);
    LinkedIsAuthentic(cfgs, logs, sent, j);
    LinkedIsComplete(cfgs, logs, sent, i, f + Shift(lags, |cfgs|, i));
    LinkedIsComplete(cfgs, logs, sent, j, f + Shift(lags, |cfgs|, j));
    PerceptiveConsistency(cfgs, logs, lags, i, j, f);
  }
}
