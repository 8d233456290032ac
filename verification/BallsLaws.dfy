/**
 What the simulation keeps: bounds on every reachable state, the bookkeeping of
 scores and deaths, the physics of the collision pass, and the event order on
 32-bit integers.
 */
module BallsLaws {
  import opened Balls

  // ---------------------------------------------------------------- replay

  /** The state reached from the initial state when slot `i` acts in frame `i + 1`. */
  ghost function Replay(slots: seq<set<Action>>): State {
    if slots == [] then Initial(0)
    else Advance(Replay(slots[..|slots| - 1]), slots[|slots| - 1])
  }

  predicate LegalActions(acts: set<Action>) {
    forall a :: a in acts && a.button == N_BUTTONS ==> 0 <= a.player < MAX_PLAYERS
  }

  predicate LegalScript(slots: seq<set<Action>>) {
    forall i :: 0 <= i < |slots| ==> LegalActions(slots[i])
  }

  // ---------------------------------------------------------------- the invariant

  predicate SaneBall(b: Ball, i: int) {
    && InArena(b)
    && -MAX_SPEED <= b.vx <= MAX_SPEED && -MAX_SPEED <= b.vy <= MAX_SPEED
    && (b.player == -1 || (b.player == i && i < MAX_PLAYERS))
  }

  function Total(scores: Scores): int {
    scores[0] + scores[1] + scores[2] + scores[3] + scores[4] + scores[5] + scores[6] + scores[7]
  }

  predicate Sane(w: World) {
    && (forall i :: 0 <= i < N_BALLS ==> SaneBall(w.balls[i], i))
    && (forall p :: 0 <= p < MAX_PLAYERS ==> w.scores[p] >= 0)
    && Total(w.scores) <= w.deathCount
  }

  lemma SaneInitial(frame: int)
    ensures Sane(WorldOf(Initial(frame)))
  {
  }

  lemma ResetInArena(b: Ball, seed: int)
    ensures InArena(Reset(b, seed))
  {
  }

  lemma SaneConnect(w: World, acts: set<Action>)
    requires Sane(w) && LegalActions(acts)
    ensures Sane(Connect(w, acts)) && Connect(w, acts).deathCount == w.deathCount
  {
  }

  lemma SaneLand(w: World, i: int, b: Ball)
    requires Sane(w) && 0 <= i < N_BALLS && b.player == w.balls[i].player
    requires -MAX_SPEED <= b.vx <= MAX_SPEED && -MAX_SPEED <= b.vy <= MAX_SPEED
    ensures Sane(Land(w, i, b)) && w.deathCount <= Land(w, i, b).deathCount <= w.deathCount + 1
  {
  }

  lemma {:induction false} SaneMoved(w: World, acts: set<Action>, n: nat)
    requires Sane(w) && n <= N_BALLS
    ensures Sane(Moved(w, acts, n))
    ensures w.deathCount <= Moved(w, acts, n).deathCount <= w.deathCount + n
  {
    if n > 0 {
      SaneMoved(w, acts, n - 1);
      var before := Moved(w, acts, n - 1);
      SaneLand(before, n - 1, Drift(Steered(before.balls[n - 1], acts)));
    }
  }

  /** How many pairs of player balls are among `(a, a + 1), .., (a, b - 1)`. */
  function RowPairs(a: int, b: int): int {
    if a < MAX_PLAYERS then (if b < MAX_PLAYERS then b else MAX_PLAYERS) - a - 1 else 0
  }

  lemma SanePair(w: World, a: int, b: int)
    requires Sane(w) && 0 <= a < b < N_BALLS
    ensures Sane(CollidePair(w, a, b))
    ensures w.deathCount <= CollidePair(w, a, b).deathCount <= w.deathCount + (if b < MAX_PLAYERS then 1 else 0)
  {
    assert SaneBall(w.balls[a], a) && SaneBall(w.balls[b], b);
    ResetInArena(w.balls[a], w.deathCount);
    ResetInArena(w.balls[b], w.deathCount);
    var c := CollidePair(w, a, b);
    forall j | 0 <= j < N_BALLS
      ensures SaneBall(c.balls[j], j)
    {
      assert SaneBall(w.balls[j], j);
    }
  }

  lemma {:induction false} SaneRow(w: World, a: int, b: int)
    requires Sane(w) && 0 <= a < b <= N_BALLS
    ensures Sane(CollidedRow(w, a, b))
    ensures w.deathCount <= CollidedRow(w, a, b).deathCount <= w.deathCount + RowPairs(a, b)
  {
    if b > a + 1 {
      SaneRow(w, a, b - 1);
      SanePair(CollidedRow(w, a, b - 1), a, b - 1);
    }
  }

  /** How many pairs of player balls the first `a` rows hold. */
  function RowsPairs(a: nat): int {
    if a == 0 then 0 else RowsPairs(a - 1) + RowPairs(a - 1, N_BALLS)
  }

  lemma TwentyEightPairs()
    ensures RowsPairs(N_BALLS) == 28
  {
  }

  lemma {:induction false} SaneRows(w: World, a: nat)
    requires Sane(w) && a <= N_BALLS
    ensures Sane(CollidedRows(w, a))
    ensures w.deathCount <= CollidedRows(w, a).deathCount <= w.deathCount + RowsPairs(a)
  {
    if a > 0 {
      SaneRows(w, a - 1);
      SaneRow(CollidedRows(w, a - 1), a - 1, N_BALLS);
    }
  }

  /** At most 12 falls and 28 kills a frame. */
  const DEATHS_PER_FRAME: int := 40

  lemma SaneAdvance(w: World, acts: set<Action>)
    requires Sane(w) && LegalActions(acts)
    ensures Sane(AdvanceWorld(w, acts))
    ensures w.deathCount <= AdvanceWorld(w, acts).deathCount <= w.deathCount + DEATHS_PER_FRAME
  {
    SaneConnect(w, acts);
    var c := Connect(w, acts);
    SaneMoved(c, acts, N_BALLS);
    SaneRows(Moved(c, acts, N_BALLS), N_BALLS);
    TwentyEightPairs();
  }

  /** Every reachable state: places, speeds, owners and scores in range, and the frame counts the steps. */
  lemma {:induction false} ReachableSane(slots: seq<set<Action>>)
    requires LegalScript(slots)
    ensures Sane(WorldOf(Replay(slots)))
    ensures Replay(slots).frame == |slots|
    ensures 0 <= Total(Replay(slots).scores) <= Replay(slots).deathCount <= DEATHS_PER_FRAME * |slots|
    ensures OwnersInRange(Replay(slots).balls)
  {
    if slots == [] {
      SaneInitial(0);
    } else {
      var n := |slots| - 1;
      ReachableSane(slots[..n]);
      SaneAdvance(WorldOf(Replay(slots[..n])), slots[n]);
    }
    var w := WorldOf(Replay(slots));
    forall i | 0 <= i < N_BALLS
      ensures w.balls[i].player < MAX_PLAYERS
    {
      assert SaneBall(w.balls[i], i);
    }
  }

  const INT32_MAX: int := 0x7fff_ffff

  /** Up to this many frames (more than 33 hours at 25 ms) no seed times 11 leaves the 32-bit range. */
  const SAFE_FRAMES: int := 4_880_644

  /** The seeds of the ball loop and those of the collision loop. */
  ghost predicate FallSeed(c: World, acts: set<Action>, seed: int) {
    exists n: nat :: n < N_BALLS && Moved(c, acts, n).deathCount == seed
  }

  ghost predicate KillSeed(m: World, seed: int) {
    exists a: nat, b: int :: a < b < N_BALLS && CollidedRow(CollidedRows(m, a), a, b).deathCount == seed
  }

  /** Every seed that the step from `w` hands to reset_ball is one of these. */
  ghost predicate IsSeed(w: World, acts: set<Action>, seed: int) {
    FallSeed(Connect(w, acts), acts, seed) || KillSeed(Moved(Connect(w, acts), acts, N_BALLS), seed)
  }

  lemma SeedsDoNotOverflow(slots: seq<set<Action>>, acts: set<Action>, seed: int)
    requires LegalScript(slots) && LegalActions(acts) && |slots| + 1 <= SAFE_FRAMES
    requires IsSeed(WorldOf(Replay(slots)), acts, seed)
    ensures 0 <= seed && seed * 11 <= INT32_MAX
  {
    ReachableSane(slots);
    SeedInFrame(WorldOf(Replay(slots)), acts, seed);
  }

  lemma SeedInFrame(w: World, acts: set<Action>, seed: int)
    requires Sane(w) && LegalActions(acts) && IsSeed(w, acts, seed)
    ensures w.deathCount <= seed <= w.deathCount + DEATHS_PER_FRAME
  {
    SaneConnect(w, acts);
    var c := Connect(w, acts);
    if FallSeed(c, acts, seed) {
      FallSeedInFrame(c, acts, seed);
    } else {
      SaneMoved(c, acts, N_BALLS);
      KillSeedInFrame(Moved(c, acts, N_BALLS), seed);
    }
  }

  lemma FallSeedInFrame(c: World, acts: set<Action>, seed: int)
    requires Sane(c) && FallSeed(c, acts, seed)
    ensures c.deathCount <= seed <= c.deathCount + 12
  {
    var n: nat :| n < N_BALLS && Moved(c, acts, n).deathCount == seed;
    SaneMoved(c, acts, n);
  }

  lemma KillSeedInFrame(m: World, seed: int)
    requires Sane(m) && KillSeed(m, seed)
    ensures m.deathCount <= seed <= m.deathCount + 28
  {
    var a: nat, b: int :| a < b < N_BALLS && CollidedRow(CollidedRows(m, a), a, b).deathCount == seed;
    SaneRows(m, a);
    SaneRow(CollidedRows(m, a), a, b);
    PairsGrow(a);
  }

  lemma {:induction false} PairsGrow(a: nat)
    requires a < N_BALLS
    ensures RowsPairs(a) + RowPairs(a, N_BALLS) <= 28
  {
    if a == N_BALLS - 1 {
      TwentyEightPairs();
    } else {
      PairsGrowTo(a + 1);
    }
  }

  lemma {:induction false} PairsGrowTo(a: nat)
    requires a <= N_BALLS
    ensures RowsPairs(a) <= 28
    decreases N_BALLS - a
  {
    if a < N_BALLS { PairsGrowTo(a + 1); } else { TwentyEightPairs(); }
  }

  // ---------------------------------------------------------------- collisions

  /** The sum of the squared speeds of the first `n` balls. */
  function Energy(balls: seq<Ball>): int {
    if balls == [] then 0 else Energy(balls[..|balls| - 1]) + Speed2(balls[|balls| - 1])
  }

  lemma {:induction false} EnergyUpdate(balls: seq<Ball>, i: nat, b: Ball)
    requires i < |balls|
    ensures Energy(balls[i := b]) == Energy(balls) - Speed2(balls[i]) + Speed2(b)
  {
    var n := |balls| - 1;
    if i == n {
      assert balls[i := b][..n] == balls[..n];
    } else {
      assert balls[i := b][..n] == balls[..n][i := b];
      EnergyUpdate(balls[..n], i, b);
    }
  }

  function XSpeeds(balls: seq<Ball>): seq<int> {
    seq(|balls|, i requires 0 <= i < |balls| => balls[i].vx)
  }

  function YSpeeds(balls: seq<Ball>): seq<int> {
    seq(|balls|, i requires 0 <= i < |balls| => balls[i].vy)
  }

  /** The pair does not approach on an axis when a positive distance meets a non-positive closing speed. */
  predicate Separating(a: Ball, b: Ball) {
    (b.px - a.px) * (a.vx - b.vx) <= 0 && (b.py - a.py) * (a.vy - b.vy) <= 0
  }

  lemma Negate(d: int, u: int, v: int)
    ensures d * (u - v) == -(d * (v - u))
  {
  }

  /** A bounce leaves the pair non-approaching on both axes and only exchanges velocities. */
  lemma BounceSeparates(a: Ball, b: Ball)
    ensures var (na, nb) := Bounce(a, b);
            && Separating(na, nb)
            && multiset{na.vx, nb.vx} == multiset{a.vx, b.vx}
            && multiset{na.vy, nb.vy} == multiset{a.vy, b.vy}
            && Speed2(na) + Speed2(nb) == Speed2(a) + Speed2(b)
            && na == a.(vx := na.vx, vy := na.vy) && nb == b.(vx := nb.vx, vy := nb.vy)
  {
    Negate(b.px - a.px, a.vx, b.vx);
    Negate(b.py - a.py, a.vy, b.vy);
  }

  lemma PairEnergy(w: World, a: int, b: int)
    requires 0 <= a < b < N_BALLS
    ensures Energy(CollidePair(w, a, b).balls) <= Energy(w.balls)
  {
    var ba, bb := w.balls[a], w.balls[b];
    if Touching(ba, bb) {
      if ba.player >= 0 && bb.player >= 0 {
        EnergyUpdate(w.balls, a, Reset(ba, w.deathCount));
        EnergyUpdate(w.balls, b, Reset(bb, w.deathCount));
        SpeedNonNegative(ba);
        SpeedNonNegative(bb);
      } else {
        var (na, nb) := Bounce(ba, bb);
        BounceSeparates(ba, bb);
        EnergyUpdate(w.balls, a, na);
        EnergyUpdate(w.balls[a := na], b, nb);
      }
    }
  }

  lemma SpeedNonNegative(b: Ball)
    ensures Speed2(b) >= 0
  {
  }

  lemma SwappedMultiset(s: seq<int>, t: seq<int>, a: int, b: int)
    requires 0 <= a < b < |s| && |t| == |s|
    requires forall i :: 0 <= i < |s| && i != a && i != b ==> t[i] == s[i]
    requires (t[a] == s[a] && t[b] == s[b]) || (t[a] == s[b] && t[b] == s[a])
    ensures multiset(t) == multiset(s)
  {
    assert t == s[a := t[a]][b := t[b]];
  }

  /** A pair that does not kill keeps the multiset of velocities of each axis. */
  lemma PairKeepsSpeeds(w: World, a: int, b: int)
    requires 0 <= a < b < N_BALLS
    requires CollidePair(w, a, b).deathCount == w.deathCount
    ensures multiset(XSpeeds(CollidePair(w, a, b).balls)) == multiset(XSpeeds(w.balls))
    ensures multiset(YSpeeds(CollidePair(w, a, b).balls)) == multiset(YSpeeds(w.balls))
  {
    var c := CollidePair(w, a, b);
    SwappedMultiset(XSpeeds(w.balls), XSpeeds(c.balls), a, b);
    SwappedMultiset(YSpeeds(w.balls), YSpeeds(c.balls), a, b);
  }

  lemma {:induction false} RowLaws(w: World, a: int, b: int)
    requires 0 <= a < b <= N_BALLS
    ensures w.deathCount <= CollidedRow(w, a, b).deathCount
    ensures Energy(CollidedRow(w, a, b).balls) <= Energy(w.balls)
    ensures CollidedRow(w, a, b).deathCount == w.deathCount ==>
              && multiset(XSpeeds(CollidedRow(w, a, b).balls)) == multiset(XSpeeds(w.balls))
              && multiset(YSpeeds(CollidedRow(w, a, b).balls)) == multiset(YSpeeds(w.balls))
  {
    if b > a + 1 {
      var before := CollidedRow(w, a, b - 1);
      RowLaws(w, a, b - 1);
      PairEnergy(before, a, b - 1);
      if CollidedRow(w, a, b).deathCount == w.deathCount {
        PairKeepsSpeeds(before, a, b - 1);
      }
    }
  }

  /** The whole pass never gains energy, and without a kill it only exchanges velocities. */
  lemma {:induction false} CollisionLaws(w: World, a: nat)
    requires a <= N_BALLS
    ensures w.deathCount <= CollidedRows(w, a).deathCount
    ensures Energy(CollidedRows(w, a).balls) <= Energy(w.balls)
    ensures CollidedRows(w, a).deathCount == w.deathCount ==>
              && multiset(XSpeeds(CollidedRows(w, a).balls)) == multiset(XSpeeds(w.balls))
              && multiset(YSpeeds(CollidedRows(w, a).balls)) == multiset(YSpeeds(w.balls))
  {
    if a > 0 {
      CollisionLaws(w, a - 1);
      RowLaws(CollidedRows(w, a - 1), a - 1, N_BALLS);
    }
  }

  // ---------------------------------------------------------------- idle states and what a step ignores

  /** A paused world without connections stays as it is: only the frame is counted. */
  lemma PausedIdles(w: World, acts: set<Action>)
    requires w.paused != 0 && forall a :: a in acts ==> a.button != N_BUTTONS
    ensures AdvanceWorld(w, acts) == w
  {
  }

  lemma OwnersRepeat(w: World, acts: set<Action>, p: nat, i: nat)
    requires p < MAX_PLAYERS && w.balls[p].player == p && i < N_BALLS
    ensures Owner(Final(acts + {Action(p, N_BUTTONS, 1)}, i, N_BUTTONS), i, w.balls[i].player)
         == Owner(Final(acts, i, N_BUTTONS), i, w.balls[i].player)
  {
    var before, after := PressedValues(acts, i, N_BUTTONS), PressedValues(acts + {Action(p, N_BUTTONS, 1)}, i, N_BUTTONS);
    assert Action(p, N_BUTTONS, 1).pressed as int == 1;
    assert after == if i == p then before + {1} else before;
  }

  lemma {:induction false} ConnectionsMoveNothing(w: World, acts: set<Action>, p: nat, n: nat)
    requires n <= N_BALLS
    ensures Moved(w, acts + {Action(p, N_BUTTONS, 1)}, n) == Moved(w, acts, n)
  {
    hide Drift, Land, SteerByButtons, SteerByPlace;
    if n > 0 {
      ConnectionsMoveNothing(w, acts, p, n - 1);
      var b := Moved(w, acts, n - 1).balls[n - 1];
      forall c | 0 <= c < N_BUTTONS
        ensures PressedValues(acts + {Action(p, N_BUTTONS, 1)}, b.player, c) == PressedValues(acts, b.player, c)
      {
      }
      assert ButtonsAfter(b, acts + {Action(p, N_BUTTONS, 1)}) == ButtonsAfter(b, acts);
    }
  }

  /** A connection of a player that has its ball, in a game that has begun, changes nothing. */
  lemma ConnectionsRepeat(w: World, acts: set<Action>, p: nat)
    requires p < MAX_PLAYERS && w.paused == 0 && w.balls[p].player == p
    ensures AdvanceWorld(w, acts + {Action(p, N_BUTTONS, 1)}) == AdvanceWorld(w, acts)
  {
    hide Owner, Final, Moved, CollidedRows;
    var again := acts + {Action(p, N_BUTTONS, 1)};
    forall i | 0 <= i < N_BALLS
      ensures Connect(w, again).balls[i] == Connect(w, acts).balls[i]
    {
      OwnersRepeat(w, acts, p, i);
    }
    assert Connect(w, again).balls == Connect(w, acts).balls;
    ConnectionsMoveNothing(Connect(w, acts), acts, p, N_BALLS);
  }

  /** Every event of `evs` has one of `evs'` that does the same. */
  predicate Covered(evs: seq<Event>, evs': seq<Event>) {
    forall e :: e in evs ==> exists e' :: e' in evs' && ActionOf(e') == ActionOf(e)
  }

  lemma CoveredActions(evs: seq<Event>, evs': seq<Event>)
    requires Covered(evs, evs')
    ensures Actions(evs) <= Actions(evs')
  {
  }

  /**
   Any two arrays of events that can be matched up action by action, in any
   order, with repetitions and with any frames stamped on them, advance any two
   states that differ only in frame and `_lie` to states that differ only there.
   */
  lemma OnlyActionsMatter(st: State, st': State, evs: seq<Event>, evs': seq<Event>)
    requires WorldOf(st) == WorldOf(st')
    requires Covered(evs, evs') && Covered(evs', evs)
    ensures WorldOf(Advance(st, Actions(evs))) == WorldOf(Advance(st', Actions(evs')))
  {
    CoveredActions(evs, evs');
    CoveredActions(evs', evs);
    assert Actions(evs) == Actions(evs');
  }

  // ---------------------------------------------------------------- the comparator on 32-bit integers

  function Wrap32(x: int): int {
    (x + 0x8000_0000) % 0x1_0000_0000 - 0x8000_0000
  }

  /** compare_events with two's complement subtraction. */
  function CompareInt32(a: Event, b: Event): int {
    if b.pressed != a.pressed then b.pressed - a.pressed
    else if a.player != b.player then Wrap32(a.player - b.player)
    else if a.button != b.button then a.button - b.button
    else Wrap32(a.frame - b.frame)
  }

  /** The difference that decides a comparison, when it is not one of two chars. */
  function DecidingDifference(a: Event, b: Event): int {
    if b.pressed != a.pressed then 0
    else if a.player != b.player then a.player - b.player
    else if a.button != b.button then 0
    else a.frame - b.frame
  }

  /** The 32-bit comparator agrees with the lexicographic order exactly when the deciding difference fits. */
  lemma CompareFits(a: Event, b: Event)
    ensures CompareInt32(a, b) == Compare(a, b) <==> IsInt32(DecidingDifference(a, b))
  {
  }

  /** Presses come before releases, then the lesser player, button and frame come first. */
  lemma CompareLaw(a: Event, b: Event)
    ensures Compare(a, b) < 0 <==>
              || a.pressed > b.pressed
              || (a.pressed == b.pressed
                  && (|| a.player < b.player
                      || (a.player == b.player && (a.button < b.button || (a.button == b.button && a.frame < b.frame)))))
  {
  }

  /** Compare orders events totally: antisymmetric in sign, and transitive. */
  lemma CompareTotalPreorder(a: Event, b: Event, c: Event)
    ensures Compare(a, b) <= 0 || Compare(b, a) <= 0
    ensures (Compare(a, b) < 0 <==> Compare(b, a) > 0) && (Compare(a, b) == 0 <==> Compare(b, a) == 0)
    ensures Compare(a, b) <= 0 && Compare(b, c) <= 0 ==> Compare(a, c) <= 0
  {
  }

  /** With overflow the comparator goes round in a circle. */
  lemma CompareOverflowCycles()
    ensures exists a: Event, b: Event, c: Event ::
              IsInt32(a.frame) && IsInt32(b.frame) && IsInt32(c.frame)
              && CompareInt32(a, b) < 0 && CompareInt32(b, c) < 0 && CompareInt32(c, a) < 0
  {
    var a := Event(-0x7000_0000, 0, 0, 0, 0);
    var b := Event(0, 0, 0, 0, 0);
    var c := Event(0x7000_0000, 0, 0, 0, 0);
    assert CompareInt32(a, b) < 0 && CompareInt32(b, c) < 0 && CompareInt32(c, a) < 0;
  }
}
