/**
 compute_delays of src/game_fasteventordering.c: from the matrix of network
 lags it computes by how much each node delays the events of each player.
 */
module Delays {
  import opened Balls

  type Matrix = m: seq<seq<int>> | |m| == MAX_PLAYERS && forall i :: 0 <= i < |m| ==> |m[i]| == MAX_PLAYERS
    witness seq(MAX_PLAYERS, _ => [0, 0, 0, 0, 0, 0, 0, 0])

  // ---------------------------------------------------------------- specification

  /** The greatest excess of player `p` over `ref` among the first `n` nodes, and at least -1. */
  function MaxDif(lags: Matrix, ref: nat, p: nat, n: nat): int
    requires ref < MAX_PLAYERS && p < MAX_PLAYERS && n <= MAX_PLAYERS
  {
    if n == 0 then -1
    else
      var before := MaxDif(lags, ref, p, n - 1);
      var d := lags[n - 1][p] - lags[n - 1][ref];
      if d > before then d else before
  }

  /** How much later than those of `ref` the events of `p` execute, on every node. */
  function Dif(lags: Matrix, n: nat, ref: nat, p: nat): int
    requires ref < MAX_PLAYERS && p < MAX_PLAYERS && n <= MAX_PLAYERS
  {
    if p == ref then 0 else MaxDif(lags, ref, p, n)
  }

  /** The least of the first `m` differences. */
  function MinDif(lags: Matrix, n: nat, ref: nat, m: nat): int
    requires ref < MAX_PLAYERS && 1 <= m <= n <= MAX_PLAYERS
  {
    if m == 1 then Dif(lags, n, ref, 0)
    else
      var before := MinDif(lags, n, ref, m - 1);
      var d := Dif(lags, n, ref, m - 1);
      if d < before then d else before
  }

  /** The delay of node `i` for the events of player `p`; the reference is the last player. */
  function Delay(lags: Matrix, n: nat, i: nat, p: nat): int
    requires 1 <= n <= MAX_PLAYERS && i < MAX_PLAYERS && p < MAX_PLAYERS
  {
    Dif(lags, n, n - 1, p) + lags[i][n - 1]
  }

  lemma {:induction false} MinDifIsLeast(lags: Matrix, n: nat, ref: nat, m: nat, p: nat)
    requires ref < MAX_PLAYERS && 1 <= m <= n <= MAX_PLAYERS && p < m
    ensures MinDif(lags, n, ref, m) <= Dif(lags, n, ref, p)
  {
    if p < m - 1 { MinDifIsLeast(lags, n, ref, m - 1, p); }
  }

  // ---------------------------------------------------------------- the algorithm

  /**
   Succeeds for every positive number of clients, always with the last player
   as reference: the first candidate is never skipped.
   */
  method ComputeDelays(lags: Matrix, delays: array2<int>, nClients: nat) returns (ok: bool)
    requires nClients <= MAX_PLAYERS
    requires delays.Length0 == MAX_PLAYERS && delays.Length1 == MAX_PLAYERS
    modifies delays
    ensures ok <==> nClients >= 1
    ensures forall i: nat, p: nat :: i < nClients && p < nClients ==> delays[i, p] == Delay(lags, nClients, i, p)
    ensures forall i: nat, p: nat :: i < MAX_PLAYERS && p < MAX_PLAYERS && (i >= nClients || p >= nClients) ==>
              delays[i, p] == old(delays[i, p])
  {
    var difs := new int[MAX_PLAYERS];
    var pRef: int := nClients - 1;
    while pRef >= 0
      invariant -1 <= pRef < nClients
      invariant forall r: nat :: pRef < r < nClients ==> MinDif(lags, nClients, r, nClients) > 0
      invariant forall i: nat, p: nat :: i < MAX_PLAYERS && p < MAX_PLAYERS ==> delays[i, p] == old(delays[i, p])
      decreases pRef
    {
      FillDifs(lags, difs, nClients, pRef);
      var minDif := difs[0];
      for i := 1 to nClients
        invariant minDif == MinDif(lags, nClients, pRef, i)
      {
        if difs[i] < minDif { minDif := difs[i]; }
      }
      if minDif > 0 {
        pRef := pRef - 1;
        continue;
      }
      if pRef < nClients - 1 {
        MinDifIsLeast(lags, nClients, nClients - 1, nClients, nClients - 1);
        assert false;
      }
      Adjust(lags, difs, delays, nClients, pRef);
      return true;
    }
    if nClients >= 1 {
      MinDifIsLeast(lags, nClients, nClients - 1, nClients, nClients - 1);
      assert false;
    }
    return false;
  }

  /** The first loops of a candidate reference: the array of differences. */
  method FillDifs(lags: Matrix, difs: array<int>, nClients: nat, pRef: nat)
    requires pRef < nClients <= MAX_PLAYERS && difs.Length == MAX_PLAYERS
    modifies difs
    ensures forall p: nat :: p < nClients ==> difs[p] == Dif(lags, nClients, pRef, p)
  {
    for i := 0 to nClients
      invariant forall p :: 0 <= p < i ==> difs[p] == 0
    {
      difs[i] := 0;
    }
    for i := 0 to nClients
      invariant forall p: nat :: p < i ==> difs[p] == Dif(lags, nClients, pRef, p)
      invariant forall p :: i <= p < nClients ==> difs[p] == 0
    {
      if i == pRef { continue; }
      var maxDif := -1;
      for j := 0 to nClients
        invariant maxDif == MaxDif(lags, pRef, i, j)
      {
        var dif := lags[j][i] - lags[j][pRef];
        if dif > maxDif { maxDif := dif; }
      }
      difs[i] := maxDif;
    }
  }

  /** The final loops: the adjusted delay of every node for every player. */
  method Adjust(lags: Matrix, difs: array<int>, delays: array2<int>, nClients: nat, pRef: nat)
    requires pRef < nClients <= MAX_PLAYERS && difs.Length == MAX_PLAYERS
    requires delays.Length0 == MAX_PLAYERS && delays.Length1 == MAX_PLAYERS
    modifies delays
    ensures forall i: nat, p: nat :: i < nClients && p < nClients ==> delays[i, p] == difs[p] + lags[i][pRef]
    ensures forall i: nat, p: nat :: i < MAX_PLAYERS && p < MAX_PLAYERS && (i >= nClients || p >= nClients) ==>
              delays[i, p] == old(delays[i, p])
  {
    for myid := 0 to nClients
      invariant forall i: nat, p: nat :: i < myid && p < nClients ==> delays[i, p] == difs[p] + lags[i][pRef]
      invariant forall i: nat, p: nat :: i < MAX_PLAYERS && p < MAX_PLAYERS && (i >= myid || p >= nClients) ==>
                  delays[i, p] == old(delays[i, p])
    {
      for player := 0 to nClients
        invariant forall i: nat, p: nat :: i < myid && p < nClients ==> delays[i, p] == difs[p] + lags[i][pRef]
        invariant forall p: nat :: p < player ==> delays[myid, p] == difs[p] + lags[myid][pRef]
        invariant forall i: nat, p: nat ::
                    i < MAX_PLAYERS && p < MAX_PLAYERS && (i > myid || (i == myid && p >= player) || p >= nClients) ==>
                    delays[i, p] == old(delays[i, p])
      {
        var adjust := difs[player] - (lags[myid][player] - lags[myid][pRef]);
        delays[myid, player] := lags[myid][player] + adjust;
      }
    }
  }

  // ---------------------------------------------------------------- what the delays are good for

  /** No node is ever closer to itself than zero frames, and none waits for its own events. */
  predicate ProperLags(lags: Matrix) {
    && (forall i, p :: 0 <= i < MAX_PLAYERS && 0 <= p < MAX_PLAYERS ==> lags[i][p] >= 0)
    && (forall i :: 0 <= i < MAX_PLAYERS ==> lags[i][i] == 0)
  }

  lemma {:induction false} MaxDifBounds(lags: Matrix, ref: nat, p: nat, n: nat, j: nat)
    requires ref < MAX_PLAYERS && p < MAX_PLAYERS && j < n <= MAX_PLAYERS
    ensures MaxDif(lags, ref, p, n) >= lags[j][p] - lags[j][ref]
  {
    if j < n - 1 { MaxDifBounds(lags, ref, p, n - 1, j); }
  }

  lemma {:induction false} MaxDifReached(lags: Matrix, ref: nat, p: nat, n: nat)
    requires ref < MAX_PLAYERS && p < MAX_PLAYERS && n <= MAX_PLAYERS
    ensures MaxDif(lags, ref, p, n) >= -1
    ensures MaxDif(lags, ref, p, n) == -1 || exists j: nat :: j < n && MaxDif(lags, ref, p, n) == lags[j][p] - lags[j][ref]
  {
    if n > 0 { MaxDifReached(lags, ref, p, n - 1); }
  }

  /** With proper lags nobody's events execute earlier than the reference's. */
  lemma DifsNonNegative(lags: Matrix, n: nat, p: nat)
    requires ProperLags(lags) && 1 <= n <= MAX_PLAYERS && p < n
    ensures Dif(lags, n, n - 1, p) >= 0
  {
  }

  /**
   A schedule that waits at least for the network, leaves the reference's column
   alone, and spaces any two players' events equally on every node (simultaneity).
   */
  predicate Schedule(m: Matrix, lags: Matrix, n: nat)
    requires 1 <= n <= MAX_PLAYERS
  {
    && (forall i: nat, p: nat :: i < n && p < n ==> m[i][p] >= lags[i][p])
    && (forall i: nat :: i < n ==> m[i][n - 1] == lags[i][n - 1])
    && (forall i: nat, j: nat, p: nat, q: nat :: i < n && j < n && p < n && q < n ==> m[i][p] - m[i][q] == m[j][p] - m[j][q])
  }

  function DelayMatrix(lags: Matrix, n: nat): Matrix
    requires 1 <= n <= MAX_PLAYERS
  {
    seq(MAX_PLAYERS, i requires 0 <= i < MAX_PLAYERS => seq(MAX_PLAYERS, p requires 0 <= p < MAX_PLAYERS => Delay(lags, n, i, p)))
  }

  /** For any lags whatever the computed delays are such a schedule. */
  lemma DelaysAreSchedule(lags: Matrix, n: nat)
    requires 1 <= n <= MAX_PLAYERS
    ensures Schedule(DelayMatrix(lags, n), lags, n)
  {
    forall i: nat, p: nat | i < n && p < n
      ensures Delay(lags, n, i, p) >= lags[i][p]
    {
      MaxDifBounds(lags, n - 1, p, n, i);
    }
  }

  /** On some node player `p` is at most one frame ahead of the reference. */
  predicate Trails(lags: Matrix, n: nat, p: nat)
    requires 1 <= n <= MAX_PLAYERS && p < MAX_PLAYERS
  {
    exists j: nat :: j < n && lags[j][p] - lags[j][n - 1] >= -1
  }

  /** The initial -1 decides no maximum. */
  predicate SeedHarmless(lags: Matrix, n: nat)
    requires 1 <= n <= MAX_PLAYERS
  {
    forall p: nat :: p < n - 1 ==> Trails(lags, n, p)
  }

  ghost predicate PointwiseLeast(lags: Matrix, n: nat)
    requires 1 <= n <= MAX_PLAYERS
  {
    forall m: Matrix :: Schedule(m, lags, n) ==> forall i: nat, p: nat :: i < n && p < n ==> Delay(lags, n, i, p) <= m[i][p]
  }

  /** The computed schedule is the least one exactly when the initial -1 decides no maximum. */
  lemma LeastScheduleIff(lags: Matrix, n: nat)
    requires 1 <= n <= MAX_PLAYERS
    ensures PointwiseLeast(lags, n) <==> SeedHarmless(lags, n)
  {
    if SeedHarmless(lags, n) {
      forall m: Matrix, i: nat, p: nat | Schedule(m, lags, n) && i < n && p < n
        ensures Delay(lags, n, i, p) <= m[i][p]
      {
        LeastAt(lags, n, m, i, p);
      }
    } else {
      var p: nat :| p < n - 1 && !Trails(lags, n, p);
      NotLeast(lags, n, p);
    }
  }

  lemma LeastAt(lags: Matrix, n: nat, m: Matrix, i: nat, p: nat)
    requires 1 <= n <= MAX_PLAYERS && SeedHarmless(lags, n) && Schedule(m, lags, n) && i < n && p < n
    ensures Delay(lags, n, i, p) <= m[i][p]
  {
    if p < n - 1 {
      MaxDifReached(lags, n - 1, p, n);
      assert Trails(lags, n, p);
      var k: nat :| k < n && lags[k][p] - lags[k][n - 1] >= -1;
      MaxDifBounds(lags, n - 1, p, n, k);
      var j: nat :| j < n && MaxDif(lags, n - 1, p, n) == lags[j][p] - lags[j][n - 1];
      hide MaxDif, Trails;
      assert m[j][p] - m[j][n - 1] == m[i][p] - m[i][n - 1];
    }
  }

  /** The computed delays with the column of `p` one frame earlier. */
  function Earlier(lags: Matrix, n: nat, p: nat): (m: Matrix)
    requires 1 <= n <= MAX_PLAYERS && p < MAX_PLAYERS
  {
    seq(MAX_PLAYERS, i requires 0 <= i < MAX_PLAYERS =>
      seq(MAX_PLAYERS, q requires 0 <= q < MAX_PLAYERS => Delay(lags, n, i, q) - (if q == p then 1 else 0)))
  }

  lemma EarlierIsSchedule(lags: Matrix, n: nat, p: nat)
    requires 1 <= n <= MAX_PLAYERS && p < n - 1 && !Trails(lags, n, p)
    ensures Schedule(Earlier(lags, n, p), lags, n)
  {
    var m := Earlier(lags, n, p);
    MaxDifReached(lags, n - 1, p, n);
    forall i: nat, q: nat | i < n && q < n
      ensures m[i][q] >= lags[i][q]
    {
      MaxDifBounds(lags, n - 1, q, n, i);
    }
    assert forall i: nat, q: nat :: i < n && q < n ==>
      m[i][q] == Dif(lags, n, n - 1, q) + lags[i][n - 1] - (if q == p then 1 else 0);
  }

  lemma NotLeast(lags: Matrix, n: nat, p: nat)
    requires 1 <= n <= MAX_PLAYERS && p < n - 1 && !Trails(lags, n, p)
    ensures !PointwiseLeast(lags, n)
  {
    EarlierIsSchedule(lags, n, p);
    assert Earlier(lags, n, p)[0][p] < Delay(lags, n, 0, p);
  }

  /** Proper lags meet the condition, so the game's own matrices get the least schedule. */
  lemma ProperLagsGetLeast(lags: Matrix, n: nat)
    requires 1 <= n <= MAX_PLAYERS && ProperLags(lags)
    ensures PointwiseLeast(lags, n)
  {
    forall p: nat | p < n - 1
      ensures Trails(lags, n, p)
    {
      assert lags[n - 1][p] - lags[n - 1][n - 1] >= -1;
    }
    LeastScheduleIff(lags, n);
  }
}
