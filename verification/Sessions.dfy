/**
 Several clients together: replica convergence of timewarp, perceptive
 consistency and absence of rollbacks for fast event ordering, and the depth of
 timewarp's rollbacks.

 A session is one configuration and one log for each player. What the network
 did is in the logs; the theorems say what follows from which of its promises.
 */
module Sessions {
  import opened Balls
  import opened BallsLaws
  import opened Replicas
  import opened Rollback
  import opened Delays

  ghost predicate Session(cfgs: seq<Config>, logs: seq<seq<Input>>) {
    && 1 <= |cfgs| <= MAX_PLAYERS && |logs| == |cfgs|
    && forall p :: 0 <= p < |cfgs| ==> ValidConfig(cfgs[p]) && cfgs[p].player == p && LegalLog(cfgs[p], logs[p])
  }

  /** What client `i` receives was summoned, as it is, by the player it names. Repetitions are welcome. */
  ghost predicate Authentic(cfgs: seq<Config>, logs: seq<seq<Input>>, i: nat)
    requires Session(cfgs, logs) && i < |cfgs|
  {
    forall a, x :: ReceivedIn(logs[i], a, x) ==>
      && 0 <= x.player < |cfgs| && x.player != i
      && x in OwnEvents(cfgs[x.player], logs[x.player], x.summonFrame)
  }

  /** By how many frames client `i` executes the events of `p` after they were summoned. */
  function Offset(cfgs: seq<Config>, i: nat, p: nat): int
    requires i < |cfgs| && p < |cfgs| <= MAX_PLAYERS && ValidConfig(cfgs[i]) && ValidConfig(cfgs[p])
  {
    if i != p && cfgs[i].protocol.FastEventOrdering? then cfgs[i].protocol.delays[p] else OwnDelay(cfgs[p])
  }

  /** Event `x` has reached client `i` and has left its hold queue. */
  ghost predicate Reached(cfg: Config, log: seq<Input>, x: Event)
    requires ValidConfig(cfg)
  {
    exists a :: ReceivedIn(log, a, x) && DueBy(cfg, a, x, |log|)
  }

  /** Everything the others summoned for frames up to `t` has reached client `i`. */
  ghost predicate Complete(cfgs: seq<Config>, logs: seq<seq<Input>>, i: nat, t: int)
    requires Session(cfgs, logs) && i < |cfgs|
  {
    forall p: nat, s, x :: p < |cfgs| && p != i && s + Offset(cfgs, i, p) <= t && x in OwnEvents(cfgs[p], logs[p], s) ==>
      Reached(cfgs[i], logs[i], x)
  }

  // ---------------------------------------------------------------- what a slot holds

  /** The actions that player `p` summoned `offsets[p]` frames before `t`, for all players. */
  ghost function Summoned(cfgs: seq<Config>, logs: seq<seq<Input>>, offsets: seq<int>, t: int): set<Action>
    requires Session(cfgs, logs) && |offsets| == |cfgs|
  {
    set p, e | 0 <= p < |cfgs| && e in OwnEvents(cfgs[p], logs[p], t - offsets[p]) :: ActionOf(e)
  }

  ghost function Offsets(cfgs: seq<Config>, i: nat): (offsets: seq<int>)
    requires i < |cfgs| <= MAX_PLAYERS
    requires forall q :: 0 <= q < |cfgs| ==> ValidConfig(cfgs[q]) && cfgs[q].player == q
    ensures |offsets| == |cfgs| && forall p :: 0 <= p < |cfgs| ==> offsets[p] == Offset(cfgs, i, p)
  {
    seq(|cfgs|, p requires 0 <= p < |cfgs| => Offset(cfgs, i, p))
  }

  lemma ExecOfOwn(cfgs: seq<Config>, logs: seq<seq<Input>>, i: nat, p: nat, s: int, x: Event)
    requires Session(cfgs, logs) && i < |cfgs| && p < |cfgs| && i != p
    requires x in OwnEvents(cfgs[p], logs[p], s)
    ensures ExecFrame(cfgs[i], x) == s + Offset(cfgs, i, p)
  {
  }

  lemma DeliveredWasSummoned(cfgs: seq<Config>, logs: seq<seq<Input>>, i: nat, t: int, e: Event)
    requires Session(cfgs, logs) && i < |cfgs| && Authentic(cfgs, logs, i)
    requires e in Delivered(cfgs[i], logs[i], |logs[i]|, t)
    ensures ActionOf(e) in Summoned(cfgs, logs, Offsets(cfgs, i), t)
  {
    hide Delivered, OwnEvents;
    DeliveredMembers(cfgs[i], logs[i], |logs[i]|, t, e);
    var a, x :| DeliveredFrom(cfgs[i], logs[i], |logs[i]|, t, e, a, x);
    assert ReceivedIn(logs[i], a, x);
    var p := x.player;
    ExecOfOwn(cfgs, logs, i, p, x.summonFrame, x);
    assert x in OwnEvents(cfgs[p], logs[p], t - Offsets(cfgs, i)[p]);
    assert ActionOf(x) == ActionOf(e);
  }

  lemma InSlot(cfg: Config, log: seq<Input>, t: int, e: Event, x: Event)
    requires ValidConfig(cfg) && ActionOf(e) == ActionOf(x)
    requires e in Delivered(cfg, log, |log|, t) || e in OwnEvents(cfg, log, t - OwnDelay(cfg))
    ensures ActionOf(x) in Actions(Filed(cfg, log, t))
  {
    hide Delivered, OwnEvents, OwnDelay;
    assert e in Filed(cfg, log, t);
  }

  lemma SummonedIsFiled(cfgs: seq<Config>, logs: seq<seq<Input>>, i: nat, t: int, p: nat, x: Event)
    requires Session(cfgs, logs) && i < |cfgs| && p < |cfgs| && Complete(cfgs, logs, i, t)
    requires x in OwnEvents(cfgs[p], logs[p], t - Offset(cfgs, i, p))
    ensures ActionOf(x) in Actions(Filed(cfgs[i], logs[i], t))
  {
    hide Delivered, OwnEvents, LegalLog, Received, OwnDelay, Filed;
    if p != i {
      assert Reached(cfgs[i], logs[i], x);
      var a :| ReceivedIn(logs[i], a, x) && DueBy(cfgs[i], a, x, |logs[i]|);
      ExecOfOwn(cfgs, logs, i, p, t - Offset(cfgs, i, p), x);
      var e := Rewritten(cfgs[i], x);
      assert DeliveredFrom(cfgs[i], logs[i], |logs[i]|, t, e, a, x);
      DeliveredMembers(cfgs[i], logs[i], |logs[i]|, t, e);
      InSlot(cfgs[i], logs[i], t, e, x);
    } else {
      InSlot(cfgs[i], logs[i], t, x, x);
    }
  }

  /**
   A client's slot holds, as actions, exactly what all players summoned their
   offset before: nothing missing, nothing else, however it arrived.
   */
  lemma SlotIsSummoned(cfgs: seq<Config>, logs: seq<seq<Input>>, i: nat, t: int)
    requires Session(cfgs, logs) && i < |cfgs| && Authentic(cfgs, logs, i) && Complete(cfgs, logs, i, t)
    ensures Actions(Filed(cfgs[i], logs[i], t)) == Summoned(cfgs, logs, Offsets(cfgs, i), t)
  {
    hide Delivered, OwnEvents, Complete, Authentic;
    var all := Summoned(cfgs, logs, Offsets(cfgs, i), t);
    forall e | e in Filed(cfgs[i], logs[i], t)
      ensures ActionOf(e) in all
    {
      if e in Delivered(cfgs[i], logs[i], |logs[i]|, t) {
        DeliveredWasSummoned(cfgs, logs, i, t, e);
      } else {
        assert e in OwnEvents(cfgs[i], logs[i], t - Offsets(cfgs, i)[i]);
      }
    }
    forall act | act in all
      ensures act in Actions(Filed(cfgs[i], logs[i], t))
    {
      var p, x :| 0 <= p < |cfgs| && x in OwnEvents(cfgs[p], logs[p], t - Offsets(cfgs, i)[p]) && ActionOf(x) == act;
      SummonedIsFiled(cfgs, logs, i, t, p, x);
    }
  }

  lemma CompleteEarlier(cfgs: seq<Config>, logs: seq<seq<Input>>, i: nat, t: int, t': int)
    requires Session(cfgs, logs) && i < |cfgs| && Complete(cfgs, logs, i, t) && t' <= t
    ensures Complete(cfgs, logs, i, t')
  {
  }

  lemma StateAtStep(cfg: Config, log: seq<Input>, k: nat)
    requires ValidConfig(cfg) && k > 0
    ensures StateAt(cfg, log, k) == Advance(StateAt(cfg, log, k - 1), Actions(Filed(cfg, log, k)))
  {
    assert Slots(cfg, log, k)[..k - 1] == Slots(cfg, log, k - 1);
  }

  // ---------------------------------------------------------------- timewarp

  ghost predicate TimewarpSession(cfgs: seq<Config>, logs: seq<seq<Input>>, localLag: nat) {
    Session(cfgs, logs) && forall p :: 0 <= p < |cfgs| ==> cfgs[p].protocol == Timewarp(localLag)
  }

  /**
   Replica convergence: two timewarp clients that have everything for the frames
   up to `k` are in the same state at `k`, whatever arrived when, in which order,
   how often, and whatever was rolled back in between.
   */
  lemma {:induction false} Convergence(cfgs: seq<Config>, logs: seq<seq<Input>>, localLag: nat, i: nat, j: nat, k: nat)
    requires TimewarpSession(cfgs, logs, localLag) && i < |cfgs| && j < |cfgs|
    requires Authentic(cfgs, logs, i) && Complete(cfgs, logs, i, k)
    requires Authentic(cfgs, logs, j) && Complete(cfgs, logs, j, k)
    ensures StateAt(cfgs[i], logs[i], k) == StateAt(cfgs[j], logs[j], k)
  {
    hide Complete, Authentic, Filed, Summoned;
    if k == 0 {
      assert Slots(cfgs[i], logs[i], 0) == Slots(cfgs[j], logs[j], 0);
    } else {
      CompleteEarlier(cfgs, logs, i, k, k - 1);
      CompleteEarlier(cfgs, logs, j, k, k - 1);
      Convergence(cfgs, logs, localLag, i, j, k - 1);
      SlotIsSummoned(cfgs, logs, i, k);
      SlotIsSummoned(cfgs, logs, j, k);
      assert Offsets(cfgs, i) == Offsets(cfgs, j);
      StateAtStep(cfgs[i], logs[i], k);
      StateAtStep(cfgs[j], logs[j], k);
    }
  }

  // ---------------------------------------------------------------- fast event ordering

  /** Every client runs on its row of the lags and of the delays computed from them. */
  ghost predicate OrderingSession(cfgs: seq<Config>, logs: seq<seq<Input>>, lags: Matrix) {
    && Session(cfgs, logs) && ProperLags(lags)
    && forall i :: 0 <= i < |cfgs| ==>
         && cfgs[i].lags == lags[i] && cfgs[i].protocol.FastEventOrdering?
         && forall p :: 0 <= p < |cfgs| ==> cfgs[i].protocol.delays[p] == Delay(lags, |cfgs|, i, p)
  }

  /** The film all clients see: its picture `f`, made from what was summoned `Dif` frames before. */
  ghost function Film(cfgs: seq<Config>, logs: seq<seq<Input>>, lags: Matrix, f: nat): World
    requires OrderingSession(cfgs, logs, lags)
  {
    if f == 0 then WorldOf(Initial(0))
    else AdvanceWorld(Film(cfgs, logs, lags, f - 1), Summoned(cfgs, logs, Difs(lags, |cfgs|), f))
  }

  ghost function Difs(lags: Matrix, n: nat): (difs: seq<int>)
    requires 1 <= n <= MAX_PLAYERS
    ensures |difs| == n && forall p :: 0 <= p < n ==> difs[p] == Dif(lags, n, n - 1, p)
  {
    seq(n, p requires 0 <= p < n => Dif(lags, n, n - 1, p))
  }

  /** How late client `i` sees the film. */
  function Shift(lags: Matrix, n: nat, i: nat): (d: nat)
    requires ProperLags(lags) && 1 <= n <= MAX_PLAYERS && i < n
  {
    lags[i][n - 1]
  }

  lemma OffsetsAreShifted(cfgs: seq<Config>, logs: seq<seq<Input>>, lags: Matrix, i: nat, t: int)
    requires OrderingSession(cfgs, logs, lags) && i < |cfgs|
    ensures Summoned(cfgs, logs, Offsets(cfgs, i), t + Shift(lags, |cfgs|, i))
         == Summoned(cfgs, logs, Difs(lags, |cfgs|), t)
  {
    hide OwnEvents;
    var n := |cfgs|;
    forall p | 0 <= p < n
      ensures t + Shift(lags, n, i) - Offsets(cfgs, i)[p] == t - Difs(lags, n)[p]
    {
    }
  }

  /** Before the first picture nothing is summoned, so the client only counts frames. */
  lemma NothingBeforeFilm(cfgs: seq<Config>, logs: seq<seq<Input>>, lags: Matrix, t: int)
    requires OrderingSession(cfgs, logs, lags) && t <= 0
    ensures Summoned(cfgs, logs, Difs(lags, |cfgs|), t) == {}
  {
    hide OwnEvents;
    var n := |cfgs|;
    if act :| act in Summoned(cfgs, logs, Difs(lags, n), t) {
      var p, e :| 0 <= p < n && e in OwnEvents(cfgs[p], logs[p], t - Difs(lags, n)[p]) && ActionOf(e) == act;
      DifsNonNegative(lags, n, p);
      OwnEventSummoned(cfgs[p], logs[p], t - Difs(lags, n)[p], e);
    }
  }

  lemma {:induction false} WaitingForFilm(cfgs: seq<Config>, logs: seq<seq<Input>>, lags: Matrix, i: nat, k: nat)
    requires OrderingSession(cfgs, logs, lags) && i < |cfgs|
    requires Authentic(cfgs, logs, i) && Complete(cfgs, logs, i, k) && k <= Shift(lags, |cfgs|, i)
    ensures WorldOf(StateAt(cfgs[i], logs[i], k)) == WorldOf(Initial(0))
  {
    hide Complete, Authentic, Filed, Summoned;
    if k == 0 {
      assert Slots(cfgs[i], logs[i], 0) == [];
    } else {
      CompleteEarlier(cfgs, logs, i, k, k - 1);
      WaitingForFilm(cfgs, logs, lags, i, k - 1);
      SlotIsSummoned(cfgs, logs, i, k);
      OffsetsAreShifted(cfgs, logs, lags, i, k - Shift(lags, |cfgs|, i));
      NothingBeforeFilm(cfgs, logs, lags, k - Shift(lags, |cfgs|, i));
      StateAtStep(cfgs[i], logs[i], k);
      PausedIdles(WorldOf(Initial(0)), {});
    }
  }

  /** Client `i` sees picture `f` of the film in frame `f + Shift`. */
  lemma {:induction false} SeesFilm(cfgs: seq<Config>, logs: seq<seq<Input>>, lags: Matrix, i: nat, f: nat)
    requires OrderingSession(cfgs, logs, lags) && i < |cfgs|
    requires Authentic(cfgs, logs, i) && Complete(cfgs, logs, i, f + Shift(lags, |cfgs|, i))
    ensures WorldOf(StateAt(cfgs[i], logs[i], f + Shift(lags, |cfgs|, i))) == Film(cfgs, logs, lags, f)
  {
    hide Complete, Authentic, Filed, Summoned;
    var d := Shift(lags, |cfgs|, i);
    if f == 0 {
      WaitingForFilm(cfgs, logs, lags, i, d);
    } else {
      CompleteEarlier(cfgs, logs, i, f + d, f - 1 + d);
      SeesFilm(cfgs, logs, lags, i, f - 1);
      SlotIsSummoned(cfgs, logs, i, f + d);
      OffsetsAreShifted(cfgs, logs, lags, i, f);
      StateAtStep(cfgs[i], logs[i], f + d);
    }
  }

  /**
   Perceptive consistency: all clients see the same film, each shifted by its own
   constant. Their states agree in everything but the frame number.
   */
  lemma PerceptiveConsistency(cfgs: seq<Config>, logs: seq<seq<Input>>, lags: Matrix, i: nat, j: nat, f: nat)
    requires OrderingSession(cfgs, logs, lags) && i < |cfgs| && j < |cfgs|
    requires Authentic(cfgs, logs, i) && Complete(cfgs, logs, i, f + lags[i][|cfgs| - 1])
    requires Authentic(cfgs, logs, j) && Complete(cfgs, logs, j, f + lags[j][|cfgs| - 1])
    ensures WorldOf(StateAt(cfgs[i], logs[i], f + Shift(lags, |cfgs|, i)))
         == WorldOf(StateAt(cfgs[j], logs[j], f + Shift(lags, |cfgs|, j)))
  {
    SeesFilm(cfgs, logs, lags, i, f);
    SeesFilm(cfgs, logs, lags, j, f);
  }

  /** What the network promises: every event arrives no later than its simulated lag says. */
  ghost predicate TimelyArrivals(cfg: Config, log: seq<Input>)
    requires ValidConfig(cfg)
  {
    forall a, x :: ReceivedIn(log, a, x) && KnownPlayer(x) ==>
      a <= x.summonFrame + cfg.lags[x.player]
  }

  /** And every event does arrive in time. */
  ghost predicate TimelyDelivery(cfgs: seq<Config>, logs: seq<seq<Input>>, i: nat, t: int)
    requires Session(cfgs, logs) && i < |cfgs|
  {
    forall p: nat, s, x :: p < |cfgs| && p != i && s + Offset(cfgs, i, p) <= t && x in OwnEvents(cfgs[p], logs[p], s) ==>
      exists a :: ReceivedIn(logs[i], a, x) && a <= s + cfgs[i].lags[p]
  }

  /** Since the delays dominate the lags, timely events are there when their frame comes. */
  lemma TimelyIsComplete(cfgs: seq<Config>, logs: seq<seq<Input>>, lags: Matrix, i: nat, t: int)
    requires OrderingSession(cfgs, logs, lags) && i < |cfgs| && t <= |logs[i]|
    requires TimelyDelivery(cfgs, logs, i, t)
    ensures Complete(cfgs, logs, i, t)
  {
    DelaysAreSchedule(lags, |cfgs|);
    forall p: nat, s, x | p < |cfgs| && p != i && s + Offset(cfgs, i, p) <= t && x in OwnEvents(cfgs[p], logs[p], s)
      ensures Reached(cfgs[i], logs[i], x)
    {
      OwnEventSummoned(cfgs[p], logs[p], s, x);
      var a :| ReceivedIn(logs[i], a, x) && a <= s + cfgs[i].lags[p];
      assert DelayMatrix(lags, |cfgs|)[i][p] >= lags[i][p];
      assert DueBy(cfgs[i], a, x, |logs[i]|);
    }
  }

  /** An event leaves the hold queue no later than the frame it executes in. */
  lemma HeldInTime(cfgs: seq<Config>, logs: seq<seq<Input>>, lags: Matrix, i: nat, q: int, e: Event)
    requires OrderingSession(cfgs, logs, lags) && i < |cfgs|
    requires Authentic(cfgs, logs, i) && TimelyArrivals(cfgs[i], logs[i])
    requires e in Held(cfgs[i], logs[i], q)
    ensures q <= e.frame
  {
    hide Held, OwnEvents;
    var cfg, log := cfgs[i], logs[i];
    HeldMembers(cfg, log, q, e);
    var a, x :| HeldFrom(cfg, log, q, e, a, x);
    assert ReceivedIn(log, a, x);
    DelaysAreSchedule(lags, |cfgs|);
    assert DelayMatrix(lags, |cfgs|)[i][x.player] >= lags[i][x.player];
    assert a <= x.summonFrame + cfg.lags[x.player];
  }

  /** Fast event ordering never rolls back: with timely arrivals every recomputation starts at the present frame. */
  lemma NoRollback(cfgs: seq<Config>, logs: seq<seq<Input>>, lags: Matrix, i: nat, from: int)
    requires OrderingSession(cfgs, logs, lags) && i < |cfgs|
    requires Authentic(cfgs, logs, i) && TimelyArrivals(cfgs[i], logs[i])
    requires OldestTouched(from, |logs[i]|, Held(cfgs[i], logs[i], |logs[i]|))
    ensures from == |logs[i]|
  {
    hide Held, Authentic, TimelyArrivals;
    if e :| e in Held(cfgs[i], logs[i], |logs[i]|) && e.frame == from {
      HeldInTime(cfgs, logs, lags, i, |logs[i]|, e);
    }
  }

  // ---------------------------------------------------------------- the depth of timewarp's rollbacks

  /** Every remote event was stamped `localLag` frames after it was summoned. */
  ghost predicate StampedAhead(log: seq<Input>, localLag: nat) {
    forall a, x :: ReceivedIn(log, a, x) ==> x.frame == x.summonFrame + localLag
  }

  /** A rollback goes back at most by what the greatest lag exceeds the local lag. */
  lemma RollbackDepth(cfg: Config, log: seq<Input>, localLag: nat, greatest: nat, from: int)
    requires ValidConfig(cfg) && LegalLog(cfg, log) && cfg.protocol == Timewarp(localLag)
    requires forall p :: 0 <= p < MAX_PLAYERS ==> cfg.lags[p] <= greatest
    requires TimelyArrivals(cfg, log) && StampedAhead(log, localLag)
    requires OldestTouched(from, |log|, Held(cfg, log, |log|))
    ensures |log| - from + 1 <= (if greatest > localLag then greatest - localLag else 0) + 1
  {
    if from != |log| {
      var e :| e in Held(cfg, log, |log|) && e.frame == from;
      HeldMembers(cfg, log, |log|, e);
      var a, x :| HeldFrom(cfg, log, |log|, e, a, x);
      assert ReceivedIn(log, a, x) && LegalInput(cfg, log[a - 1]);
    }
  }

  // ---------------------------------------------------------------- how many players fit

  /** The multiset has each of the connections of `others` at least twice. */
  lemma {:induction false} TwiceEach(m: multiset<Event>, connects: set<Event>)
    requires forall e :: e in connects ==> m[e] >= 2
    ensures |m| >= 2 * |connects|
    decreases |connects|
  {
    if connects != {} {
      var e :| e in connects;
      TwiceEach(m[e := 0], connects - {e});
    }
  }

  /** The connections of the first `n` players but `i`. */
  lemma {:induction false} ConnectsOfOthers(cfgs: seq<Config>, n: nat, i: nat) returns (s: set<Event>)
    requires n <= |cfgs| && forall p :: 0 <= p < n ==> ValidConfig(cfgs[p]) && cfgs[p].player == p
    ensures forall e :: e in s ==> 0 <= e.player < n && e.player != i && e == ConnectEvent(cfgs[e.player])
    ensures |s| == if i < n then n - 1 else n
  {
    if n == 0 {
      s := {};
    } else {
      var before := ConnectsOfOthers(cfgs, n - 1, i);
      s := if n - 1 == i then before else before + {ConnectEvent(cfgs[n - 1])};
    }
  }

  /**
   A complete timewarp session of `n` players needs room for `2 n - 1` events in the
   frame of the connections, since every client sends its connection twice and they
   are all stamped alike. Five players are too many for slots of eight.
   */
  lemma ConnectionsDoNotFit(cfgs: seq<Config>, logs: seq<seq<Input>>, localLag: nat, i: nat)
    requires TimewarpSession(cfgs, logs, localLag) && i < |cfgs| && 2 * |cfgs| - 1 > cfgs[i].room
    requires forall p :: 0 <= p < |cfgs| && p != i ==>
               Arrivals(cfgs[i], logs[i], |logs[i]|, ConnectEvent(cfgs[p])) >= 2
    ensures !SlotsFit(cfgs[i], logs[i])
  {
    hide Delivered, Arrivals, LegalLog, Held;
    var cfg, log, k := cfgs[i], logs[i], 1 + localLag;
    var connects := ConnectsOfOthers(cfgs, |cfgs|, i);
    var m := multiset(Delivered(cfg, log, |log|, k));
    forall e | e in connects
      ensures m[e] >= 2
    {
      ArrivalsDelivered(cfg, log, |log|, e);
    }
    TwiceEach(m, connects);
    assert |OwnEvents(cfg, log, 1)| >= 1;
    assert |Filed(cfg, log, k)| > cfg.room;
  }
}
