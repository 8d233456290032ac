/**
 What one step of the simulation does to the things in the game, in the game's own
 terms: which way a key pushes, who survives a collision and who scores, what a fall
 costs, where balls begin and where they come back.
 */
module StepLaws {
  import opened Balls
  import opened StaleCounts

  // ---------------------------------------------------------------- keys and owners

  /** What a button has after some actions: the least value given to it, or what it had. */
  predicate EndsAs(acts: set<Action>, player: int, button: int, before: int, after: int) {
    || (exists a :: a in acts && a.player == player && a.button == button && a.pressed == after
          && forall b :: b in acts && b.player == player && b.button == button ==> after <= b.pressed)
    || (after == before && forall a :: a in acts ==> !(a.player == player && a.button == button))
  }

  lemma ButtonEnds(acts: set<Action>, player: int, button: int, before: schar, after: int)
    requires EndsAs(acts, player, button, before, after)
    ensures HeldButton(Final(acts, player, button), before) == after
  {
    var vs := PressedValues(acts, player, button);
    if a :| a in acts && a.player == player && a.button == button && a.pressed == after
            && forall b :: b in acts && b.player == player && b.button == button ==> after <= b.pressed {
      assert a.pressed as int in vs;
    } else {
      assert vs == {};
    }
  }

  predicate Connects(acts: set<Action>, i: int) {
    exists a :: a in acts && a.player == i && a.button == 4
  }

  /** A connection gives ball `i` to player `i`, and a disconnection, which prevails, takes it away. */
  lemma ConnectLaw(w: World, acts: set<Action>, i: nat, v: int)
    requires i < N_BALLS && Connects(acts, i) && EndsAs(acts, i, 4, v, v)
    ensures Connect(w, acts).balls[i] == w.balls[i].(player := if v != 0 then i else -1)
  {
    var vs := PressedValues(acts, i, 4);
    var a :| a in acts && a.player == i && a.button == 4 && a.pressed == v
             && forall b :: b in acts && b.player == i && b.button == 4 ==> v <= b.pressed;
    assert a.pressed as int in vs;
  }

  lemma NoConnectLaw(w: World, acts: set<Action>, i: nat)
    requires i < N_BALLS && !Connects(acts, i)
    ensures Connect(w, acts).balls[i] == w.balls[i]
  {
    assert PressedValues(acts, i, 4) == {};
  }

  /** Any connection begins the game; nothing else of the world is touched by connections. */
  lemma BeginLaw(w: World, acts: set<Action>)
    ensures var c := Connect(w, acts);
            && (if exists a :: a in acts && a.button == 4 then c.paused == 0 else c.paused == w.paused)
            && c.deathCount == w.deathCount && c.scores == w.scores
  {
  }

  // ---------------------------------------------------------------- speeds and places

  /** Speeds are limited to 64 in each direction. */
  predicate Limited(v: int, limited: int) {
    && (-64 <= v <= 64 ==> limited == v)
    && (v > 64 ==> limited == 64)
    && (v < -64 ==> limited == -64)
  }

  function OneIf(b: bool): int {
    if b then 1 else 0
  }

  /** An owned ball is pushed by 2 to the right and left by buttons 0 and 2, and up and down by 1 and 3. */
  lemma OwnedBallLaw(b: Ball, acts: set<Action>, right: int, up: int, left: int, down: int)
    requires b.player >= 0
    requires EndsAs(acts, b.player, 0, b.buttons[0], right) && EndsAs(acts, b.player, 1, b.buttons[1], up)
    requires EndsAs(acts, b.player, 2, b.buttons[2], left) && EndsAs(acts, b.player, 3, b.buttons[3], down)
    ensures var m := Drift(Steered(b, acts));
            && Limited(b.vx + 2 * (OneIf(right != 0) - OneIf(left != 0)), m.vx)
            && Limited(b.vy + 2 * (OneIf(down != 0) - OneIf(up != 0)), m.vy)
            && m.px == b.px + m.vx && m.py == b.py + m.vy
            && m.player == b.player && m.buttons == [right, up, left, down]
  {
    ButtonEnds(acts, b.player, 0, b.buttons[0], right);
    ButtonEnds(acts, b.player, 1, b.buttons[1], up);
    ButtonEnds(acts, b.player, 2, b.buttons[2], left);
    ButtonEnds(acts, b.player, 3, b.buttons[3], down);
  }

  /** A ball of nobody is pushed back by 2 from within 600 of each border, and otherwise goes straight on. */
  lemma FreeBallLaw(b: Ball, acts: set<Action>)
    requires b.player < 0
    ensures var m := Drift(Steered(b, acts));
            && Limited(b.vx + 2 * (OneIf(b.px <= 600) - OneIf(b.px >= 2400)), m.vx)
            && Limited(b.vy + 2 * (OneIf(b.py <= 600) - OneIf(b.py >= 2400)), m.vy)
            && m.px == b.px + m.vx && m.py == b.py + m.vy
            && m.player == b.player && m.buttons == b.buttons
  {
  }

  // ---------------------------------------------------------------- falling

  const PLACES_X: seq<int> := [1000, 1666, 1333, 1000, 1666, 1333, 1000, 1666, 1333]
  const PLACES_Y: seq<int> := [1000, 1000, 1333, 1666, 1666, 1000, 1333, 1333, 1666]

  /** The nine places of reset balls, in the order in which deaths go round them. */
  lemma ResetLaw(b: Ball, deaths: int)
    requires deaths >= 0
    ensures var r := Reset(b, deaths);
            && r.px == PLACES_X[deaths % 9] && r.py == PLACES_Y[deaths % 9]
            && r.vx == 0 && r.vy == 0 && r.player == b.player && r.buttons == b.buttons
  {
    hide Reset;
    var k := deaths % 9;
    assert (k - deaths) % 9 == 0;
    ResetSamePlace(b, deaths, k - deaths);
    ResetNine(b, k);
  }

  lemma ResetNine(b: Ball, k: int)
    requires 0 <= k < 9
    ensures Reset(b, k) == b.(vx := 0, vy := 0, px := PLACES_X[k], py := PLACES_Y[k])
  {
  }

  /** Scores change at one player by `d`, but not below 0. */
  predicate Scored(before: Scores, after: Scores, player: int, d: int) {
    forall p :: 0 <= p < MAX_PLAYERS ==>
      after[p] == if p != player then before[p] else if before[p] + d < 0 then 0 else before[p] + d
  }

  /** The ball loop at ball `i`: it stands where it moved to, or fell: one more death, at its owner's cost. */
  lemma LandingLaw(w: World, i: nat, b: Ball)
    requires i < N_BALLS && w.deathCount >= 0
    ensures var m := Land(w, i, b);
            && m.paused == w.paused && (forall j :: 0 <= j < N_BALLS && j != i ==> m.balls[j] == w.balls[j])
            && if 0 <= b.px < 3000 && 0 <= b.py < 3000
               then m.balls[i] == b && m.deathCount == w.deathCount && m.scores == w.scores
               else
                 && m.deathCount == w.deathCount + 1 && Scored(w.scores, m.scores, b.player, -1)
                 && m.balls[i] == b.(vx := 0, vy := 0, px := PLACES_X[w.deathCount % 9], py := PLACES_Y[w.deathCount % 9])
  {
    ResetLaw(b, w.deathCount);
  }

  // ---------------------------------------------------------------- colliding

  /** The centres of two balls are closer than two radii of 56. */
  predicate Close(a: Ball, b: Ball) {
    var dx, dy := a.px - b.px, a.py - b.py;
    dx * dx + dy * dy < 12544
  }

  lemma CloseIsTouching(a: Ball, b: Ball)
    ensures Close(a, b) <==> Touching(a, b)
  {
    var dx, dy := a.px - b.px, a.py - b.py;
    assert (-dx) * (-dx) == dx * dx && (-dy) * (-dy) == dy * dy;
    assert b.px - a.px == -dx && b.py - a.py == -dy;
  }

  lemma ApartLaw(w: World, a: int, b: int)
    requires 0 <= a < b < N_BALLS && !Close(w.balls[a], w.balls[b])
    ensures CollidePair(w, a, b) == w
  {
    CloseIsTouching(w.balls[a], w.balls[b]);
  }

  /**
   Two owned balls that touch: ball `a` survives if it is strictly faster, and ball
   `b` otherwise. The survivor goes on as it was and scores; the other one stands
   still at the place of the next death; no third ball and no other score changes.
   */
  lemma KillLaw(w: World, a: int, b: int)
    requires 0 <= a < b < N_BALLS && Close(w.balls[a], w.balls[b]) && w.deathCount >= 0
    requires 0 <= w.balls[a].player < MAX_PLAYERS && 0 <= w.balls[b].player < MAX_PLAYERS
    ensures var m, ba, bb := CollidePair(w, a, b), w.balls[a], w.balls[b];
            var survivor := if ba.vx * ba.vx + ba.vy * ba.vy > bb.vx * bb.vx + bb.vy * bb.vy then a else b;
            var dead := a + b - survivor;
            && m.balls[survivor] == w.balls[survivor]
            && m.balls[dead] == w.balls[dead].(vx := 0, vy := 0,
                                               px := PLACES_X[w.deathCount % 9], py := PLACES_Y[w.deathCount % 9])
            && (forall j :: 0 <= j < N_BALLS && j != dead ==> m.balls[j] == w.balls[j])
            && m.scores == w.scores[w.balls[survivor].player := w.scores[w.balls[survivor].player] + 1]
            && m.deathCount == w.deathCount + 1 && m.paused == w.paused
  {
    CloseIsTouching(w.balls[a], w.balls[b]);
    ResetLaw(w.balls[a], w.deathCount);
    ResetLaw(w.balls[b], w.deathCount);
  }

  /** On one axis: exchanged unless the balls are already separating. */
  predicate Exchanged(distance: int, va: int, vb: int, na: int, nb: int) {
    if distance * (va - vb) >= 0 then na == vb && nb == va else na == va && nb == vb
  }

  /** Two touching balls of which one is nobody's exchange their velocities, axis by axis, and nothing else happens. */
  lemma BounceLaw(w: World, a: int, b: int)
    requires 0 <= a < b < N_BALLS && Close(w.balls[a], w.balls[b])
    requires w.balls[a].player < 0 || w.balls[b].player < 0
    ensures var m, ba, bb := CollidePair(w, a, b), w.balls[a], w.balls[b];
            && m == w.(balls := m.balls) && (forall j :: 0 <= j < N_BALLS && j != a && j != b ==> m.balls[j] == w.balls[j])
            && m.balls[a] == ba.(vx := m.balls[a].vx, vy := m.balls[a].vy)
            && m.balls[b] == bb.(vx := m.balls[b].vx, vy := m.balls[b].vy)
            && Exchanged(bb.px - ba.px, ba.vx, bb.vx, m.balls[a].vx, m.balls[b].vx)
            && Exchanged(bb.py - ba.py, ba.vy, bb.vy, m.balls[a].vy, m.balls[b].vy)
  {
    CloseIsTouching(w.balls[a], w.balls[b]);
  }

  // ---------------------------------------------------------------- whole steps

  lemma {:induction false} MovedOne(w: World, acts: set<Action>, i: nat, n: nat)
    requires i < N_BALLS && n <= N_BALLS
    ensures n <= i ==> Moved(w, acts, n).balls[i] == w.balls[i]
    ensures i < n ==> Moved(w, acts, n).balls[i]
                      == Land(Moved(w, acts, i), i, Drift(Steered(w.balls[i], acts))).balls[i]
  {
    hide Drift, Steered, Reset;
    if n > 0 {
      MovedOne(w, acts, i, n - 1);
      if n == i + 1 { MovedOne(w, acts, i, i); }
    }
  }

  /** No two balls touch, except perhaps `a` and `b`. */
  predicate ApartBut(w: World, a: int, b: int) {
    forall x, y :: 0 <= x < y < N_BALLS && !(x == a && y == b) ==> !Close(w.balls[x], w.balls[y])
  }

  /** Of a row of collisions only the pair `a`, `b` can matter. */
  lemma {:induction false} RowOne(w: World, after: World, a: int, b: int, x: int, y: int)
    requires 0 <= a < b < N_BALLS && 0 <= x < y <= N_BALLS
    requires after == CollidePair(w, a, b) && ApartBut(w, a, b) && ApartBut(after, -1, -1)
    ensures x != a ==> CollidedRow(w, x, y) == w && CollidedRow(after, x, y) == after
    ensures x == a ==> CollidedRow(w, x, y) == if y <= b then w else after
    decreases y
  {
    hide CollidePair, Close;
    if y > x + 1 {
      RowOne(w, after, a, b, x, y - 1);
      if !(x == a && y - 1 == b) { ApartLaw(w, x, y - 1); }
      ApartLaw(after, x, y - 1);
    }
  }

  lemma {:induction false} RowsOne(w: World, after: World, a: int, b: int, x: nat)
    requires 0 <= a < b < N_BALLS && x <= N_BALLS
    requires after == CollidePair(w, a, b) && ApartBut(w, a, b) && ApartBut(after, -1, -1)
    ensures CollidedRows(w, x) == if x <= a then w else after
  {
    hide CollidePair, Close, ApartBut;
    if x > 0 {
      RowsOne(w, after, a, b, x - 1);
      RowOne(w, after, a, b, x - 1, N_BALLS);
    }
  }

  /** First the players connect, then all balls move, and then those that touch collide: here only one pair. */
  lemma OneCollision(w: World, acts: set<Action>, a: int, b: int)
    requires 0 <= a < b < N_BALLS && Connect(w, acts).paused == 0
    requires var m := Moved(Connect(w, acts), acts, N_BALLS);
             ApartBut(m, a, b) && ApartBut(CollidePair(m, a, b), -1, -1)
    ensures AdvanceWorld(w, acts) == CollidePair(Moved(Connect(w, acts), acts, N_BALLS), a, b)
  {
    hide CollidePair, Close, ApartBut, Moved, Connect, CollidedRows;
    var m := Moved(Connect(w, acts), acts, N_BALLS);
    RowsOne(m, CollidePair(m, a, b), a, b, N_BALLS);
  }

  /** And where no balls touch after moving, that is all. */
  lemma NoCollision(w: World, acts: set<Action>)
    requires Connect(w, acts).paused == 0 && ApartBut(Moved(Connect(w, acts), acts, N_BALLS), -1, -1)
    ensures AdvanceWorld(w, acts) == Moved(Connect(w, acts), acts, N_BALLS)
  {
    hide CollidePair, Close, Moved, Connect;
    var m := Moved(Connect(w, acts), acts, N_BALLS);
    ApartLaw(m, 0, 1);
    OneCollision(w, acts, 0, 1);
  }

  /**
   What the player sees of its ball in a step in which nothing touches: it is pushed
   by the buttons that are held after the actions, also in the step of its connection.
   */
  lemma SteeringLaw(w: World, acts: set<Action>, i: nat, right: int, up: int, left: int, down: int, vx: int, vy: int)
    requires i < N_BALLS && Connect(w, acts).paused == 0 && Connect(w, acts).balls[i].player >= 0
    requires ApartBut(Moved(Connect(w, acts), acts, N_BALLS), -1, -1)
    requires var b := Connect(w, acts).balls[i];
             && EndsAs(acts, b.player, 0, b.buttons[0], right) && EndsAs(acts, b.player, 1, b.buttons[1], up)
             && EndsAs(acts, b.player, 2, b.buttons[2], left) && EndsAs(acts, b.player, 3, b.buttons[3], down)
             && Limited(b.vx + 2 * (OneIf(right != 0) - OneIf(left != 0)), vx)
             && Limited(b.vy + 2 * (OneIf(down != 0) - OneIf(up != 0)), vy)
             && 0 <= b.px + vx < 3000 && 0 <= b.py + vy < 3000
    ensures var b, m := w.balls[i], AdvanceWorld(w, acts).balls[i];
            && m.px == b.px + vx && m.py == b.py + vy && m.vx == vx && m.vy == vy
            && m.buttons == [right, up, left, down] && m.player == Connect(w, acts).balls[i].player
  {
    hide Moved, AdvanceWorld, Drift, Steered, EndsAs, ApartBut;
    var c := Connect(w, acts);
    NoCollision(w, acts);
    MovedOne(c, acts, i, N_BALLS);
    OwnedBallLaw(c.balls[i], acts, right, up, left, down);
  }

  /** One key on a ball at rest: RIGHT moves it right, UP up, LEFT left and DOWN down. */
  lemma KeyLaw(w: World, i: nat, key: schar)
    requires i < MAX_PLAYERS && 0 <= key < 4 && w.paused == 0
    requires var b := w.balls[i];
             b.player == i && b.vx == 0 && b.vy == 0 && b.buttons == [0, 0, 0, 0] && 2 <= b.px < 2998 && 2 <= b.py < 2998
    requires ApartBut(Moved(Connect(w, {Action(i, key, 1)}), {Action(i, key, 1)}, N_BALLS), -1, -1)
    ensures var b, m := w.balls[i], AdvanceWorld(w, {Action(i, key, 1)}).balls[i];
            && m.px == b.px + (if key == 0 then 2 else if key == 2 then -2 else 0)
            && m.py == b.py + (if key == 3 then 2 else if key == 1 then -2 else 0)
  {
    hide Moved, AdvanceWorld, Connect, ApartBut;
    var acts := {Action(i, key, 1)};
    NoConnectLaw(w, acts, i);
    BeginLaw(w, acts);
    assert Action(i, key, 1) in acts;
    assert EndsAs(acts, i, 0, 0, OneIf(key == 0)) && EndsAs(acts, i, 1, 0, OneIf(key == 1));
    assert EndsAs(acts, i, 2, 0, OneIf(key == 2)) && EndsAs(acts, i, 3, 0, OneIf(key == 3));
    var right, up, left, down := OneIf(key == 0), OneIf(key == 1), OneIf(key == 2), OneIf(key == 3);
    SteeringLaw(w, acts, i, right, up, left, down, 2 * (right - left), 2 * (down - up));
  }

  /** The number of the pair `a`, `b`, counting the pairs of each ball with those after it, ball after ball. */
  function PairNumber(a: int, b: int): int {
    12 * a - a * (a + 1) / 2 + b - a - 1
  }

  /** The worlds that collisions lead through, pair after pair. */
  predicate PairByPair(worlds: seq<World>) {
    && |worlds| == 67
    && forall a, b {:trigger CollidePair(worlds[PairNumber(a, b)], a, b)} :: 0 <= a < b < 12 ==>
         && 0 <= PairNumber(a, b) < 66
         && worlds[PairNumber(a, b) + 1] == CollidePair(worlds[PairNumber(a, b)], a, b)
  }

  lemma {:induction false} RowInOrder(worlds: seq<World>, a: int, b: int)
    requires PairByPair(worlds) && 0 <= a < b <= 12 && 0 <= PairNumber(a, a + 1) <= 66
    ensures 0 <= PairNumber(a, b) <= 66
    ensures CollidedRow(worlds[PairNumber(a, a + 1)], a, b) == worlds[PairNumber(a, b)]
    decreases b
  {
    hide CollidePair;
    if b > a + 1 {
      RowInOrder(worlds, a, b - 1);
      assert worlds[PairNumber(a, b - 1) + 1] == CollidePair(worlds[PairNumber(a, b - 1)], a, b - 1);
    }
  }

  lemma FirstAndLast()
    ensures PairNumber(0, 1) == 0 && PairNumber(11, 12) == 66
  {
  }

  lemma NextRow(a: int)
    requires 1 <= a <= 11
    ensures PairNumber(a - 1, 12) == PairNumber(a, a + 1) && 0 <= PairNumber(a, a + 1) <= 66
    ensures 0 <= PairNumber(a - 1, a) <= 66
  {
  }

  /** All 66 pairs collide once, in the order of the nested loop. */
  lemma {:induction false} CollisionOrder(worlds: seq<World>, a: nat)
    requires PairByPair(worlds) && a <= 11
    ensures 0 <= PairNumber(a, a + 1) <= 66 && CollidedRows(worlds[0], a) == worlds[PairNumber(a, a + 1)]
    ensures a == 11 ==> CollidedRows(worlds[0], 12) == worlds[66]
  {
    hide PairByPair, CollidedRow, PairNumber;
    assert PairNumber(0, 1) == 0 && PairNumber(11, 12) == 66 by { FirstAndLast(); }
    if a > 0 {
      NextRow(a);
      CollisionOrder(worlds, a - 1);
      RowInOrder(worlds, a - 1, 12);
    }
    if a == 11 { RowInOrder(worlds, 11, 12); }
  }

  // ---------------------------------------------------------------- the beginning

  /** Twelve balls of nobody, at rest in three rows of four. */
  lemma InitialLaw(frame: int, i: nat)
    requires i < N_BALLS
    ensures var st := Initial(frame);
            && st.frame == frame && st.paused == 1 && st.deathCount == 0 && st.scores == [0, 0, 0, 0, 0, 0, 0, 0]
            && st.balls[i] == Ball(375 + 750 * (i % 4), 375 + 750 * (i / 4), 0, 0, -1, [0, 0, 0, 0])
  {
  }
}
