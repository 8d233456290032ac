/**
 The death count is not part of a sent state, but the places of reset balls
 depend on it. How far a simulation that goes on with a stale death count agrees
 with the one it was copied from.
 */
module StaleCounts {
  import opened Balls
  import opened BallsLaws

  /** The same world with the death count off by `d`. */
  function Off(w: World, d: int): World {
    w.(deathCount := w.deathCount + d)
  }

  /** Resets go round the nine places of the middle grid: counts nine apart choose the same. */
  predicate SamePlaces(count: int, d: int) {
    count >= 0 && count + d >= 0 && d % 9 == 0
  }

  lemma ModSame(x: int, k: int)
    ensures (x + 3 * k) % 3 == x % 3
  {
  }

  lemma ResetSamePlace(b: Ball, seed: int, d: int)
    requires SamePlaces(seed, d)
    ensures Reset(b, seed + d) == Reset(b, seed)
  {
    var k := d / 9;
    var x := 11 * seed;
    assert 11 * (seed + d) == x + 99 * k;
    ModSame(x, 33 * k);
    assert (x + 3 * (33 * k)) / 3 == x / 3 + 33 * k;
    ModSame(x / 3, 11 * k);
  }

  lemma LandOff(w: World, i: int, b: Ball, d: int)
    requires 0 <= i < N_BALLS && (SamePlaces(w.deathCount, d) || Land(w, i, b).deathCount == w.deathCount)
    ensures Land(Off(w, d), i, b) == Off(Land(w, i, b), d)
  {
    if !InArena(b) { ResetSamePlace(b, w.deathCount, d); }
  }

  lemma PairOff(w: World, a: int, b: int, d: int)
    requires 0 <= a < b < N_BALLS && (SamePlaces(w.deathCount, d) || CollidePair(w, a, b).deathCount == w.deathCount)
    ensures CollidePair(Off(w, d), a, b) == Off(CollidePair(w, a, b), d)
  {
    hide Touching, Speed2, Bounce, Reset;
    var ba, bb := w.balls[a], w.balls[b];
    if Touching(ba, bb) && ba.player >= 0 && bb.player >= 0 {
      ResetSamePlace(ba, w.deathCount, d);
      ResetSamePlace(bb, w.deathCount, d);
    }
  }

  lemma {:induction false} MovedCounts(w: World, acts: set<Action>, n: nat)
    requires n <= N_BALLS
    ensures Moved(w, acts, n).deathCount >= w.deathCount
  {
    if n > 0 { MovedCounts(w, acts, n - 1); }
  }

  lemma PairCounts(w: World, a: int, b: int)
    requires 0 <= a < b < N_BALLS
    ensures CollidePair(w, a, b).deathCount >= w.deathCount
  {
  }

  lemma {:induction false} RowCounts(w: World, a: int, b: int)
    requires 0 <= a < b <= N_BALLS
    ensures CollidedRow(w, a, b).deathCount >= w.deathCount
    decreases b
  {
    if b > a + 1 { RowCounts(w, a, b - 1); }
  }

  lemma {:induction false} RowsCount(w: World, a: nat)
    requires a <= N_BALLS
    ensures CollidedRows(w, a).deathCount >= w.deathCount
  {
    if a > 0 {
      RowsCount(w, a - 1);
      RowCounts(CollidedRows(w, a - 1), a - 1, N_BALLS);
    }
  }

  lemma {:induction false} MovedOff(w: World, acts: set<Action>, n: nat, d: int)
    requires n <= N_BALLS && (SamePlaces(w.deathCount, d) || Moved(w, acts, n).deathCount == w.deathCount)
    ensures Moved(Off(w, d), acts, n) == Off(Moved(w, acts, n), d)
  {
    if n > 0 {
      MovedCounts(w, acts, n - 1);
      MovedOff(w, acts, n - 1, d);
      var before := Moved(w, acts, n - 1);
      LandOff(before, n - 1, Drift(Steered(before.balls[n - 1], acts)), d);
    }
  }

  lemma {:induction false} RowOff(w: World, a: int, b: int, d: int)
    requires 0 <= a < b <= N_BALLS && (SamePlaces(w.deathCount, d) || CollidedRow(w, a, b).deathCount == w.deathCount)
    ensures CollidedRow(Off(w, d), a, b) == Off(CollidedRow(w, a, b), d)
    decreases b
  {
    if b > a + 1 {
      hide CollidePair;
      RowCounts(w, a, b - 1);
      PairCounts(CollidedRow(w, a, b - 1), a, b - 1);
      RowOff(w, a, b - 1, d);
      PairOff(CollidedRow(w, a, b - 1), a, b - 1, d);
    }
  }

  lemma {:induction false} RowsOff(w: World, a: nat, d: int)
    requires a <= N_BALLS && (SamePlaces(w.deathCount, d) || CollidedRows(w, a).deathCount == w.deathCount)
    ensures CollidedRows(Off(w, d), a) == Off(CollidedRows(w, a), d)
  {
    if a > 0 {
      RowsCount(w, a - 1);
      RowCounts(CollidedRows(w, a - 1), a - 1, N_BALLS);
      RowsOff(w, a - 1, d);
      RowOff(CollidedRows(w, a - 1), a - 1, N_BALLS, d);
    }
  }

  lemma AdvanceCounts(w: World, acts: set<Action>)
    ensures AdvanceWorld(w, acts).deathCount >= w.deathCount
  {
    hide Moved, CollidedRows;
    var c := Connect(w, acts);
    MovedCounts(c, acts, N_BALLS);
    RowsCount(Moved(c, acts, N_BALLS), N_BALLS);
  }

  /** A step without resets, or with counts that choose the same places, is the same step. */
  lemma AdvanceOff(w: World, acts: set<Action>, d: int)
    requires SamePlaces(w.deathCount, d) || AdvanceWorld(w, acts).deathCount == w.deathCount
    ensures AdvanceWorld(Off(w, d), acts) == Off(AdvanceWorld(w, acts), d)
  {
    hide Moved, CollidedRows;
    var c := Connect(w, acts);
    assert Connect(Off(w, d), acts) == Off(c, d);
    if c.paused == 0 {
      MovedCounts(c, acts, N_BALLS);
      RowsCount(Moved(c, acts, N_BALLS), N_BALLS);
      MovedOff(c, acts, N_BALLS, d);
      RowsOff(Moved(c, acts, N_BALLS), N_BALLS, d);
    }
  }

  // ---------------------------------------------------------------- and otherwise it is not

  predicate InPlay(w: World) {
    forall i :: 0 <= i < N_BALLS ==> SaneBall(w.balls[i], i)
  }

  /** Counts `m` and `n` lead every world that can be in play through the same step, but for the count. */
  ghost predicate Interchangeable(m: int, n: int) {
    forall w: World, acts: set<Action> :: InPlay(w) ==>
      AdvanceWorld(w.(deathCount := n), acts) == Off(AdvanceWorld(w.(deathCount := m), acts), n - m)
  }

  function Resting(): Ball {
    Ball(1800, 1800, 0, 0, -1, [0, 0, 0, 0])
  }

  function Falling(): Ball {
    Ball(1, 1800, -10, 0, -1, [0, 0, 0, 0])
  }

  function BrinkBall(i: int): Ball {
    if i < 2 then Falling() else Resting()
  }

  /** Two balls about to fall, ten at rest. */
  function Brink(count: int): World {
    World(0, count, [0, 0, 0, 0, 0, 0, 0, 0], seq(N_BALLS, i requires 0 <= i < N_BALLS => BrinkBall(i)))
  }

  predicate Still(w: World) {
    forall i :: 0 <= i < N_BALLS ==> w.balls[i].player < 0 && w.balls[i].vx == 0 && w.balls[i].vy == 0
  }

  lemma StillPair(w: World, a: int, b: int)
    requires Still(w) && 0 <= a < b < N_BALLS
    ensures CollidePair(w, a, b) == w
  {
    hide Touching;
    var (na, nb) := Bounce(w.balls[a], w.balls[b]);
    assert na == w.balls[a] && nb == w.balls[b];
    assert w.balls[a := na][b := nb] == w.balls;
  }

  lemma {:induction false} StillRow(w: World, a: int, b: int)
    requires Still(w) && 0 <= a < b <= N_BALLS
    ensures CollidedRow(w, a, b) == w
    decreases b
  {
    if b > a + 1 {
      StillRow(w, a, b - 1);
      StillPair(w, a, b - 1);
    }
  }

  lemma {:induction false} StillRows(w: World, a: nat)
    requires Still(w) && a <= N_BALLS
    ensures CollidedRows(w, a) == w
  {
    if a > 0 {
      StillRows(w, a - 1);
      StillRow(w, a - 1, N_BALLS);
    }
  }

  function FallenBall(count: int, n: nat, i: int): Ball {
    if i < 2 && i < n then Reset(Falling(), count + i) else BrinkBall(i)
  }

  /** The same after the first `n` balls moved. */
  function Fallen(count: int, n: nat): World
    requires n <= N_BALLS
  {
    World(0, count + if n < 2 then n else 2, [0, 0, 0, 0, 0, 0, 0, 0],
      seq(N_BALLS, i requires 0 <= i < N_BALLS => FallenBall(count, n, i)))
  }

  lemma ResetForgets(a: Ball, b: Ball, seed: int)
    requires a.player == b.player && a.buttons == b.buttons
    ensures Reset(a, seed) == Reset(b, seed)
  {
  }

  lemma FallingFalls(count: int, n: nat)
    requires 1 <= n <= 2
    ensures Land(Fallen(count, n - 1), n - 1, Drift(SteerByPlace(Falling()))) == Fallen(count, n)
  {
    hide Reset;
    var before, b := Fallen(count, n - 1), Drift(SteerByPlace(Falling()));
    assert b == Falling().(px := -7, vx := -8);
    ResetForgets(b, Falling(), before.deathCount);
    assert Land(before, n - 1, b).balls == Fallen(count, n).balls;
  }

  lemma RestingDrifts()
    ensures Drift(SteerByPlace(Resting())) == Resting() && InArena(Resting())
  {
  }

  lemma RestingRests(count: int, n: nat)
    requires 2 < n <= N_BALLS
    ensures Land(Fallen(count, n - 1), n - 1, Drift(SteerByPlace(Resting()))) == Fallen(count, n)
  {
    hide Reset, Drift, SteerByPlace, InArena, Resting, Falling;
    RestingDrifts();
    var before := Fallen(count, n - 1);
    forall i | 0 <= i < N_BALLS
      ensures before.balls[n - 1 := Resting()][i] == Fallen(count, n).balls[i]
    {
    }
    assert before.balls[n - 1 := Resting()] == Fallen(count, n).balls;
  }

  lemma {:induction false} BrinkMoves(count: int, n: nat)
    requires n <= N_BALLS
    ensures Moved(Brink(count), {}, n) == Fallen(count, n)
  {
    hide Reset, Drift, SteerByPlace, Land;
    if n == 0 {
      assert Brink(count).balls == Fallen(count, 0).balls;
    } else {
      BrinkMoves(count, n - 1);
      var b := Fallen(count, n - 1).balls[n - 1];
      if n <= 2 {
        assert b == Falling();
        FallingFalls(count, n);
      } else {
        assert b == Resting();
        RestingRests(count, n);
      }
    }
  }

  lemma FallenStill(count: int)
    ensures Still(Fallen(count, N_BALLS))
  {
    hide Reset;
    forall i | 0 <= i < N_BALLS
      ensures Fallen(count, N_BALLS).balls[i] == if i < 2 then Reset(Falling(), count + i) else Resting()
    {
    }
    ResetStops(Falling(), count);
    ResetStops(Falling(), count + 1);
  }

  lemma ResetStops(b: Ball, seed: int)
    ensures Reset(b, seed).vx == 0 && Reset(b, seed).vy == 0 && Reset(b, seed).player == b.player
  {
  }

  lemma BrinkFalls(count: int)
    ensures AdvanceWorld(Brink(count), {}) == Fallen(count, N_BALLS)
  {
    hide Moved, CollidedRows, Reset;
    var w := Brink(count);
    forall i | 0 <= i < N_BALLS
      ensures Connect(w, {}).balls[i] == w.balls[i]
    {
      assert PressedValues({}, i, N_BUTTONS) == {};
    }
    assert Connect(w, {}).balls == w.balls;
    BrinkMoves(count, N_BALLS);
    FallenStill(count);
    StillRows(Fallen(count, N_BALLS), N_BALLS);
  }

  lemma PlaceTellsSeed(m: int, n: int)
    requires Reset(Falling(), m) == Reset(Falling(), n)
    ensures CMod(11 * m, 3) == CMod(11 * n, 3) && CMod(CDiv(11 * m, 3), 3) == CMod(CDiv(11 * n, 3), 3)
  {
  }

  lemma SeedsModNine(m: int, n: int)
    requires m >= 0 && n >= 0 && CMod(11 * m, 3) == CMod(11 * n, 3) && CMod(CDiv(11 * m, 3), 3) == CMod(CDiv(11 * n, 3), 3)
    ensures (n - m) % 9 == 0
  {
    var x, y := 11 * m, 11 * n;
    assert x == 9 * (x / 3 / 3) + 3 * (x / 3 % 3) + x % 3;
    assert y == 9 * (y / 3 / 3) + 3 * (y / 3 % 3) + y % 3;
    assert 11 * (n - m) == 9 * (y / 3 / 3 - x / 3 / 3);
  }

  lemma NegativeSeed(m: int, n: int)
    requires m >= 0 && n < 0 && CMod(11 * m, 3) == CMod(11 * n, 3)
    ensures n % 3 == 0
  {
  }

  /** Two resets in a row tell any two counts apart that do not choose the same places. */
  lemma PlacesDiffer(m: int, n: int)
    requires m >= 0 && !(n >= 0 && (n - m) % 9 == 0)
    ensures Reset(Falling(), m) != Reset(Falling(), n) || Reset(Falling(), m + 1) != Reset(Falling(), n + 1)
  {
    hide Reset, CMod, CDiv;
    if Reset(Falling(), m) == Reset(Falling(), n) && Reset(Falling(), m + 1) == Reset(Falling(), n + 1) {
      PlaceTellsSeed(m, n);
      PlaceTellsSeed(m + 1, n + 1);
      if n >= 0 {
        SeedsModNine(m, n);
      } else {
        NegativeSeed(m, n);
        if n < -1 { NegativeSeed(m + 1, n + 1); }
      }
    }
  }

  /**
   The exact condition under which a prediction may go on with count `n` where
   the server has `m`: they differ by a multiple of nine, and `n` is not negative.
   It is over all worlds in play that a client may be sent; that some run of the
   server comes to the witness world `Brink` is not claimed.
   */
  lemma StaleCountsMatter(m: int, n: int)
    requires m >= 0
    ensures Interchangeable(m, n) <==> n >= 0 && (n - m) % 9 == 0
  {
    hide AdvanceWorld;
    if n >= 0 && (n - m) % 9 == 0 {
      forall w: World, acts: set<Action> | InPlay(w)
        ensures AdvanceWorld(w.(deathCount := n), acts) == Off(AdvanceWorld(w.(deathCount := m), acts), n - m)
      {
        AdvanceOff(w.(deathCount := m), acts, n - m);
      }
    } else {
      BrinkFalls(m);
      BrinkFalls(n);
      PlacesDiffer(m, n);
      assert InPlay(Brink(m));
      assert Brink(m) == Brink(n).(deathCount := m);
      assert Fallen(m, N_BALLS).balls[0] == Reset(Falling(), m) && Fallen(m, N_BALLS).balls[1] == Reset(Falling(), m + 1);
      assert Fallen(n, N_BALLS).balls[0] == Reset(Falling(), n) && Fallen(n, N_BALLS).balls[1] == Reset(Falling(), n + 1);
    }
  }
}
