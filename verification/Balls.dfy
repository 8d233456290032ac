/** An optional value. */
module Options {
  datatype Option<+T> = None | Some(value: T)
}

/**
 The deterministic simulation of src/balls/balls.c.

 `AdvanceState` is the imperative step; `Advance` is its specification. The
 specification takes a *set* of actions (who, which button, pressed or
 released), so it can depend neither on the order of the events, nor on
 repetitions, nor on the frames stamped on them.
 */
module Balls {
  import opened Options

  const MAX_PLAYERS: nat := 8
  const N_BALLS: nat := 12
  const ARENA_SIZE: int := 3000
  const ACCEL: int := 2
  const MAX_SPEED: int := 64
  const BALL_RADIUS: int := 56
  const N_BUTTONS: nat := 4

  /** A C `char`, signed as on the platforms the game targets. */
  type schar = x: int | -128 <= x < 128

  type Buttons = s: seq<schar> | |s| == N_BUTTONS witness [0, 0, 0, 0]
  datatype Ball = Ball(px: int, py: int, vx: int, vy: int, player: int, buttons: Buttons)

  type Scores = s: seq<int> | |s| == MAX_PLAYERS witness [0, 0, 0, 0, 0, 0, 0, 0]
  type BallRow = s: seq<Ball> | |s| == N_BALLS witness seq(N_BALLS, _ => Ball(0, 0, 0, 0, -1, [0, 0, 0, 0]))

  datatype State = State(paused: schar, frame: int, deathCount: int, scores: Scores, balls: BallRow, lie: int)

  /** A state without its frame number and without the dead-reckoning field `_lie`. */
  datatype World = World(paused: schar, deathCount: int, scores: Scores, balls: BallRow)

  function WorldOf(st: State): World {
    World(st.paused, st.deathCount, st.scores, st.balls)
  }

  function StateOf(w: World, frame: int, lie: int): State {
    State(w.paused, frame, w.deathCount, w.scores, w.balls, lie)
  }

  /** `button == N_BUTTONS` means connect or disconnect. */
  datatype Event = Event(frame: int, summonFrame: int, player: int, button: schar, pressed: schar)

  /** What an event does, whenever it was summoned and whenever it is executed. */
  datatype Action = Action(player: int, button: schar, pressed: schar)

  function ActionOf(e: Event): Action {
    Action(e.player, e.button, e.pressed)
  }

  function Actions(evs: seq<Event>): set<Action> {
    set e | e in evs :: ActionOf(e)
  }

  /** A connect event is used as an index into the balls and, later, into the scores. */
  predicate Legal(e: Event) {
    e.button == N_BUTTONS ==> 0 <= e.player < MAX_PLAYERS
  }

  /** Balls with an owner index the scores by that owner. */
  predicate OwnersInRange(balls: seq<Ball>) {
    forall i :: 0 <= i < |balls| ==> balls[i].player < MAX_PLAYERS
  }

  // ---------------------------------------------------------------- arithmetic

  /** C division and remainder truncate towards zero. */
  function CDiv(x: int, d: int): int
    requires d > 0
  {
    if x >= 0 then x / d else -((-x) / d)
  }

  function CMod(x: int, d: int): int
    requires d > 0
  {
    x - d * CDiv(x, d)
  }

  predicate IsInt16(x: int) {
    -0x8000 <= x < 0x8000
  }

  predicate IsInt32(x: int) {
    -0x8000_0000 <= x < 0x8000_0000
  }

  // ---------------------------------------------------------------- the event order

  /** compare_events, on integers that do not overflow (see `CompareInt32`). */
  function Compare(a: Event, b: Event): int {
    if b.pressed != a.pressed then b.pressed - a.pressed
    else if a.player != b.player then a.player - b.player
    else if a.button != b.button then a.button - b.button
    else a.frame - b.frame
  }

  predicate Sorted(evs: seq<Event>) {
    forall i, j :: 0 <= i < j < |evs| ==> Compare(evs[i], evs[j]) <= 0
  }

  function Insert(e: Event, evs: seq<Event>): (r: seq<Event>)
    requires Sorted(evs)
    ensures Sorted(r) && multiset(r) == multiset(evs) + multiset{e}
  {
    if evs == [] then [e]
    else if Compare(e, evs[0]) <= 0 then
      PrependSorted(e, evs);
      [e] + evs
    else
      var rest := Insert(e, evs[1..]);
      InsertedBehind(e, evs, rest);
      [evs[0]] + rest
  }

  lemma PrependSorted(e: Event, evs: seq<Event>)
    requires Sorted(evs) && (evs == [] || Compare(e, evs[0]) <= 0)
    ensures Sorted([e] + evs)
  {
  }

  lemma InsertedBehind(e: Event, evs: seq<Event>, rest: seq<Event>)
    requires evs != [] && Sorted(evs) && Compare(e, evs[0]) > 0
    requires Sorted(rest) && multiset(rest) == multiset(evs[1..]) + multiset{e}
    ensures Sorted([evs[0]] + rest)
    ensures multiset([evs[0]] + rest) == multiset(evs) + multiset{e}
  {
    assert evs == [evs[0]] + evs[1..];
    if rest != [] {
      assert rest[0] in multiset(rest);
      if rest[0] != e {
        assert rest[0] in evs[1..];
        var i :| 0 <= i < |evs| - 1 && evs[1..][i] == rest[0];
        assert Compare(evs[0], evs[i + 1]) <= 0;
      }
    }
    PrependSorted(evs[0], rest);
  }

  function SortEvents(evs: seq<Event>): (r: seq<Event>)
    ensures Sorted(r) && multiset(r) == multiset(evs)
  {
    if evs == [] then []
    else
      assert evs == [evs[0]] + evs[1..];
      Insert(evs[0], SortEvents(evs[1..]))
  }

  /**
   The C library's qsort. Callers know only that the result is some sorted
   rearrangement, so whatever they prove holds for every order of ties.
   */
  method Qsort(a: array<Event>)
    modifies a
    ensures Sorted(a[..]) && multiset(a[..]) == multiset(old(a[..]))
  {
    var s := SortEvents(a[..]);
    assert |multiset(s)| == |multiset(a[..])|;
    forall i | 0 <= i < a.Length {
      a[i] := s[i];
    }
    assert a[..] == s;
  }

  // ---------------------------------------------------------------- what a set of actions means

  ghost function PressedValues(acts: set<Action>, player: int, button: int): set<int> {
    set a | a in acts && a.player == player && a.button == button :: a.pressed as int
  }

  ghost function Pick<T>(s: set<T>): (x: T)
    requires s != {}
    ensures x in s
  {
    var x :| x in s;
    x
  }

  ghost function Least(s: set<int>): (m: int)
    requires s != {}
    ensures m in s && forall x :: x in s ==> m <= x
  {
    var x := Pick(s);
    if s == {x} then x
    else
      assert s == {x} + (s - {x});
      var m := Least(s - {x});
      if x <= m then x else m
  }

  /** The value a button ends with: the least one any action gives it (release wins over press). */
  ghost function Final(acts: set<Action>, player: int, button: int): Option<int> {
    var vs := PressedValues(acts, player, button);
    if vs == {} then None else Some(Least(vs))
  }

  ghost function Owner(final: Option<int>, i: int, before: int): int {
    match final
    case None => before
    case Some(v) => if v != 0 then i else -1
  }

  ghost function HeldButton(final: Option<int>, before: schar): (r: int) {
    match final
    case None => before
    case Some(v) => v
  }

  // ---------------------------------------------------------------- the specification of one step

  ghost function Connect(w: World, acts: set<Action>): World {
    w.(paused := if exists a :: a in acts && a.button == N_BUTTONS then 0 else w.paused,
       balls := seq(N_BALLS, i requires 0 <= i < N_BALLS =>
         w.balls[i].(player := Owner(Final(acts, i, N_BUTTONS), i, w.balls[i].player))))
  }

  ghost function ButtonsAfter(b: Ball, acts: set<Action>): Buttons {
    seq(N_BUTTONS, c requires 0 <= c < N_BUTTONS =>
      var v := HeldButton(Final(acts, b.player, c), b.buttons[c]);
      if -128 <= v < 128 then v else 0)
  }

  function Thrust(on: bool): int {
    if on then ACCEL else 0
  }

  /** Owned balls accelerate by their buttons (right, up, left, down). */
  function SteerByButtons(b: Ball, buttons: Buttons): Ball {
    b.(buttons := buttons,
       vx := b.vx + Thrust(buttons[0] != 0) - Thrust(buttons[2] != 0),
       vy := b.vy + Thrust(buttons[3] != 0) - Thrust(buttons[1] != 0))
  }

  /** Other balls are pushed back from the borders. */
  function SteerByPlace(b: Ball): Ball {
    b.(vx := b.vx - Thrust(b.px >= 4 * ARENA_SIZE / 5) + Thrust(b.px <= ARENA_SIZE / 5),
       vy := b.vy - Thrust(b.py >= 4 * ARENA_SIZE / 5) + Thrust(b.py <= ARENA_SIZE / 5))
  }

  function Clamp(v: int): int {
    if v > MAX_SPEED then MAX_SPEED else if v < -MAX_SPEED then -MAX_SPEED else v
  }

  function Drift(b: Ball): Ball {
    b.(vx := Clamp(b.vx), vy := Clamp(b.vy), px := b.px + Clamp(b.vx), py := b.py + Clamp(b.vy))
  }

  predicate InArena(b: Ball) {
    0 <= b.px < ARENA_SIZE && 0 <= b.py < ARENA_SIZE
  }

  function Reset(b: Ball, seed: int): Ball {
    b.(vx := 0, vy := 0,
       px := CDiv((3 + CMod(11 * seed, 3)) * ARENA_SIZE, 9),
       py := CDiv((3 + CMod(CDiv(11 * seed, 3), 3)) * ARENA_SIZE, 9))
  }

  ghost function Steered(b: Ball, acts: set<Action>): Ball {
    if b.player >= 0 then SteerByButtons(b, ButtonsAfter(b, acts)) else SteerByPlace(b)
  }

  function Award(scores: Scores, player: int): Scores {
    if 0 <= player < MAX_PLAYERS then scores[player := scores[player] + 1] else scores
  }

  function Penalise(scores: Scores, player: int): Scores {
    if 0 <= player < MAX_PLAYERS then
      scores[player := if scores[player] < 1 then 0 else scores[player] - 1]
    else scores
  }

  /** Put ball `i` in its new place, or reset it (at its owner's cost) when it left the arena. */
  function Land(w: World, i: int, b: Ball): World
    requires 0 <= i < N_BALLS
  {
    if InArena(b) then w.(balls := w.balls[i := b])
    else World(w.paused, w.deathCount + 1, Penalise(w.scores, b.player), w.balls[i := Reset(b, w.deathCount)])
  }

  /** The world after the first `n` balls moved. */
  ghost function Moved(w: World, acts: set<Action>, n: nat): World
    requires n <= N_BALLS
  {
    if n == 0 then w
    else
      var before := Moved(w, acts, n - 1);
      Land(before, n - 1, Drift(Steered(before.balls[n - 1], acts)))
  }

  predicate Touching(a: Ball, b: Ball) {
    var dx := b.px - a.px;
    var dy := b.py - a.py;
    dx * dx + dy * dy < 4 * BALL_RADIUS * BALL_RADIUS
  }

  function Speed2(b: Ball): int {
    b.vx * b.vx + b.vy * b.vy
  }

  /** Swap the velocities on each axis on which the balls are not separating. */
  function Bounce(a: Ball, b: Ball): (Ball, Ball) {
    var swapX := (b.px - a.px) * (a.vx - b.vx) >= 0;
    var swapY := (b.py - a.py) * (a.vy - b.vy) >= 0;
    (a.(vx := if swapX then b.vx else a.vx, vy := if swapY then b.vy else a.vy),
     b.(vx := if swapX then a.vx else b.vx, vy := if swapY then a.vy else b.vy))
  }

  /** Ball `loser` is reset and the owner of ball `winner` scores. */
  function Kill(w: World, loser: int, winner: int): World
    requires 0 <= loser < N_BALLS && 0 <= winner < N_BALLS
  {
    World(w.paused, w.deathCount + 1, Award(w.scores, w.balls[winner].player),
          w.balls[loser := Reset(w.balls[loser], w.deathCount)])
  }

  function CollidePair(w: World, a: int, b: int): World
    requires 0 <= a < b < N_BALLS
  {
    var ba, bb := w.balls[a], w.balls[b];
    if !Touching(ba, bb) then w
    else if ba.player >= 0 && bb.player >= 0 then
      if Speed2(ba) > Speed2(bb) then Kill(w, b, a) else Kill(w, a, b)
    else
      var (na, nb) := Bounce(ba, bb);
      w.(balls := w.balls[a := na][b := nb])
  }

  /** Ball `a` has met the balls `a + 1 .. b - 1`. */
  function CollidedRow(w: World, a: int, b: int): World
    requires 0 <= a < b <= N_BALLS
  {
    if b == a + 1 then w else CollidePair(CollidedRow(w, a, b - 1), a, b - 1)
  }

  /** The balls `0 .. a - 1` have met all balls after them. */
  function CollidedRows(w: World, a: nat): World
    requires a <= N_BALLS
  {
    if a == 0 then w else CollidedRow(CollidedRows(w, a - 1), a - 1, N_BALLS)
  }

  ghost function AdvanceWorld(w: World, acts: set<Action>): World {
    var c := Connect(w, acts);
    if c.paused != 0 then c else CollidedRows(Moved(c, acts, N_BALLS), N_BALLS)
  }

  ghost function Advance(st: State, acts: set<Action>): State {
    StateOf(AdvanceWorld(WorldOf(st), acts), st.frame + 1, st.lie)
  }

  // ---------------------------------------------------------------- sorted events act as a set

  /** What the loops of advance_state compute: the last matching event of the array. */
  ghost function LastPressed(evs: seq<Event>, player: int, button: int): Option<int> {
    if evs == [] then None
    else
      var e := evs[|evs| - 1];
      if e.player == player && e.button == button then Some(e.pressed)
      else LastPressed(evs[..|evs| - 1], player, button)
  }

  lemma {:induction false} LastPressedMatches(evs: seq<Event>, player: int, button: int)
    ensures LastPressed(evs, player, button) == None <==>
            PressedValues(Actions(evs), player, button) == {}
    ensures LastPressed(evs, player, button).Some? ==>
              exists i :: 0 <= i < |evs| && evs[i].player == player && evs[i].button == button
                       && evs[i].pressed == LastPressed(evs, player, button).value
                       && forall j :: i < j < |evs| ==> !(evs[j].player == player && evs[j].button == button)
  {
    if evs != [] {
      var n := |evs| - 1;
      var front := evs[..n];
      LastPressedMatches(front, player, button);
      if evs[n].player == player && evs[n].button == button {
        assert evs[n] in evs;
        assert ActionOf(evs[n]) in Actions(evs);
        assert evs[n].pressed as int in PressedValues(Actions(evs), player, button);
      } else {
        assert PressedValues(Actions(evs), player, button) == PressedValues(Actions(front), player, button) by {
          assert forall e :: e in evs <==> e in front || e == evs[n];
        }
        if LastPressed(front, player, button).Some? {
          var i :| 0 <= i < |front| && front[i].player == player && front[i].button == button
                && front[i].pressed == LastPressed(front, player, button).value
                && forall j :: i < j < |front| ==> !(front[j].player == player && front[j].button == button);
          assert evs[i] == front[i];
          assert forall j :: i < j < |evs| ==> j == n || evs[j] == front[j];
        }
      }
    }
  }

  lemma SortedByPressed(evs: seq<Event>, i: int, j: int)
    requires Sorted(evs) && 0 <= i <= j < |evs|
    ensures evs[i].pressed >= evs[j].pressed
  {
  }

  /** In a sorted array the last matching event carries the least value, whatever the order of ties. */
  lemma LastIsFinal(evs: seq<Event>, player: int, button: int)
    requires Sorted(evs)
    ensures LastPressed(evs, player, button) == Final(Actions(evs), player, button)
  {
    LastPressedMatches(evs, player, button);
    if LastPressed(evs, player, button).Some? {
      var i :| 0 <= i < |evs| && evs[i].player == player && evs[i].button == button
            && evs[i].pressed == LastPressed(evs, player, button).value
            && forall j :: i < j < |evs| ==> !(evs[j].player == player && evs[j].button == button);
      LastMatchIsLeast(evs, player, button, i);
    }
  }

  lemma LastMatchIsLeast(evs: seq<Event>, player: int, button: int, i: int)
    requires Sorted(evs) && 0 <= i < |evs| && evs[i].player == player && evs[i].button == button
    requires forall j :: i < j < |evs| ==> !(evs[j].player == player && evs[j].button == button)
    ensures Final(Actions(evs), player, button) == Some(evs[i].pressed as int)
  {
    var vs := PressedValues(Actions(evs), player, button);
    assert ActionOf(evs[i]) in Actions(evs);
    assert evs[i].pressed as int in vs;
    forall v | v in vs
      ensures evs[i].pressed <= v
    {
      var a :| a in Actions(evs) && a.player == player && a.button == button && a.pressed == v;
      var e :| e in evs && ActionOf(e) == a;
      var j :| 0 <= j < |evs| && evs[j] == e;
      SortedByPressed(evs, j, i);
    }
  }

  // ---------------------------------------------------------------- the imperative code

  method InitialState(frame: int) returns (st: State)
    ensures st == Initial(frame)
  {
    var legionSize := 0;
    while legionSize * legionSize < N_BALLS
      invariant 0 <= legionSize <= 4
    {
      legionSize := legionSize + 1;
    }
    assert legionSize == 4;
    var balls := new Ball[N_BALLS](_ => Ball(0, 0, 0, 0, -1, [0, 0, 0, 0]));
    for i := 0 to N_BALLS
      invariant forall j :: 0 <= j < i ==> balls[j] == InitialBall(j)
    {
      balls[i] := Ball((1 + 2 * (i % legionSize)) * ARENA_SIZE / (2 * legionSize),
                       (1 + 2 * (i / legionSize)) * ARENA_SIZE / (2 * legionSize), 0, 0, -1, [0, 0, 0, 0]);
    }
    st := State(1, frame, 0, [0, 0, 0, 0, 0, 0, 0, 0], balls[..], 0);
  }

  /** Ball `i` of a 4 x 3 grid, standing still and owned by nobody. */
  function InitialBall(i: int): Ball
    requires 0 <= i < N_BALLS
  {
    Ball(375 + 750 * (i % 4), 375 + 750 * (i / 4), 0, 0, -1, [0, 0, 0, 0])
  }

  function Initial(frame: int): State {
    State(1, frame, 0, [0, 0, 0, 0, 0, 0, 0, 0], seq(N_BALLS, i requires 0 <= i < N_BALLS => InitialBall(i)), 0)
  }

  method ResetBall(balls: array<Ball>, i: nat, seed: int)
    requires i < balls.Length
    modifies balls
    ensures balls[..] == old(balls[..])[i := Reset(old(balls[i]), seed)]
  {
    balls[i] := balls[i].(vx := 0, vy := 0);
    var s := seed * 11;
    balls[i] := balls[i].(px := CDiv((3 + CMod(s, 3)) * ARENA_SIZE, 9));
    balls[i] := balls[i].(py := CDiv((3 + CMod(CDiv(s, 3), 3)) * ARENA_SIZE, 9));
  }

  /** Returns the killed ball: 0 if none, -1 for ball `a`, 1 for ball `b`. */
  method CollideBalls(balls: array<Ball>, a: nat, b: nat) returns (killed: int)
    requires a < b < balls.Length
    modifies balls
    ensures var ba, bb := old(balls[a]), old(balls[b]);
            if !Touching(ba, bb) then killed == 0 && balls[..] == old(balls[..])
            else if ba.player >= 0 && bb.player >= 0 then
              killed == (if Speed2(ba) > Speed2(bb) then 1 else -1) && balls[..] == old(balls[..])
            else killed == 0 && balls[..] == old(balls[..])[a := Bounce(ba, bb).0][b := Bounce(ba, bb).1]
  {
    var deltaX := balls[b].px - balls[a].px;
    var deltaY := balls[b].py - balls[a].py;
    if deltaX * deltaX + deltaY * deltaY < 4 * BALL_RADIUS * BALL_RADIUS {
      if balls[a].player >= 0 && balls[b].player >= 0 {
        if Speed2(balls[a]) > Speed2(balls[b]) {
          return 1;
        } else {
          return -1;
        }
      } else {
        if deltaX * (balls[a].vx - balls[b].vx) >= 0 {
          var aux := balls[a].vx;
          balls[a] := balls[a].(vx := balls[b].vx);
          balls[b] := balls[b].(vx := aux);
        }
        if deltaY * (balls[a].vy - balls[b].vy) >= 0 {
          var aux := balls[a].vy;
          balls[a] := balls[a].(vy := balls[b].vy);
          balls[b] := balls[b].(vy := aux);
        }
      }
    }
    return 0;
  }

  /** Connect players: the loop of advance_state over the sorted events. */
  method ConnectPlayers(balls: array<Ball>, events: array<Event>, paused0: schar) returns (paused: schar)
    requires balls.Length == N_BALLS
    requires Sorted(events[..]) && forall e :: e in events[..] ==> Legal(e)
    modifies balls
    ensures forall i :: 0 <= i < N_BALLS ==>
              balls[i] == old(balls[i]).(player := Owner(Final(Actions(events[..]), i, N_BUTTONS), i, old(balls[i].player)))
    ensures paused == if exists a :: a in Actions(events[..]) && a.button == N_BUTTONS then 0 else paused0
  {
    paused := paused0;
    ghost var evs := events[..];
    for k := 0 to events.Length
      invariant forall i :: 0 <= i < N_BALLS ==>
                  balls[i] == old(balls[i]).(player := Owner(LastPressed(evs[..k], i, N_BUTTONS), i, old(balls[i].player)))
      invariant paused == if exists j :: 0 <= j < k && evs[j].button == N_BUTTONS then 0 else paused0
    {
      var ev := events[k];
      assert ev in events[..];
      assert evs[..k + 1][..k] == evs[..k];
      if ev.button == N_BUTTONS {
        balls[ev.player] := balls[ev.player].(player := if ev.pressed != 0 then ev.player else -1);
        paused := 0;
      }
    }
    assert evs[..events.Length] == evs;
    forall i | 0 <= i < N_BALLS
      ensures LastPressed(evs, i, N_BUTTONS) == Final(Actions(evs), i, N_BUTTONS)
    {
      LastIsFinal(evs, i, N_BUTTONS);
    }
    if j :| 0 <= j < |evs| && evs[j].button == N_BUTTONS {
      assert ActionOf(evs[j]) in Actions(evs);
    }
  }

  /** React to events: set the buttons of the owned ball `i`. */
  method ReactToEvents(balls: array<Ball>, i: nat, events: array<Event>)
    requires i < balls.Length
    requires Sorted(events[..])
    modifies balls
    ensures balls[..] == old(balls[..])[i := old(balls[i]).(buttons := ButtonsAfter(old(balls[i]), Actions(events[..])))]
  {
    ghost var evs := events[..];
    ghost var b0 := balls[i];
    for k := 0 to events.Length
      invariant forall j :: 0 <= j < balls.Length && j != i ==> balls[j] == old(balls[j])
      invariant balls[i] == b0.(buttons := balls[i].buttons)
      invariant forall c :: 0 <= c < N_BUTTONS ==>
                  balls[i].buttons[c] == HeldButton(LastPressed(evs[..k], b0.player, c), b0.buttons[c])
    {
      var ev := events[k];
      assert evs[..k + 1][..k] == evs[..k];
      if 0 <= ev.button < N_BUTTONS {
        if balls[i].player == ev.player {
          balls[i] := balls[i].(buttons := balls[i].buttons[ev.button := ev.pressed]);
        }
      }
    }
    assert evs[..events.Length] == evs;
    forall c | 0 <= c < N_BUTTONS
      ensures balls[i].buttons[c] == ButtonsAfter(b0, Actions(evs))[c]
    {
      LastIsFinal(evs, b0.player, c);
    }
    assert balls[i].buttons == ButtonsAfter(b0, Actions(evs));
  }

  /** Update the speed of a ball, by its buttons or, for a ball without owner, by its place. */
  method Steer(b0: Ball) returns (b: Ball)
    ensures b == if b0.player >= 0 then SteerByButtons(b0, b0.buttons) else SteerByPlace(b0)
  {
    b := b0;
    if b.player >= 0 {
      b := b.(vx := b.vx + (if b.buttons[0] != 0 then 1 else 0) * ACCEL);
      b := b.(vx := b.vx - (if b.buttons[2] != 0 then 1 else 0) * ACCEL);
      b := b.(vy := b.vy + (if b.buttons[3] != 0 then 1 else 0) * ACCEL);
      b := b.(vy := b.vy - (if b.buttons[1] != 0 then 1 else 0) * ACCEL);
    } else {
      if b.px >= 4 * ARENA_SIZE / 5 { b := b.(vx := b.vx - ACCEL); }
      if b.px <= ARENA_SIZE / 5 { b := b.(vx := b.vx + ACCEL); }
      if b.py >= 4 * ARENA_SIZE / 5 { b := b.(vy := b.vy - ACCEL); }
      if b.py <= ARENA_SIZE / 5 { b := b.(vy := b.vy + ACCEL); }
    }
  }

  /** Limit the speed of a ball and move it. */
  method LimitAndMove(b0: Ball) returns (b: Ball)
    ensures b == Drift(b0)
  {
    b := b0;
    if b.vx > MAX_SPEED { b := b.(vx := MAX_SPEED); }
    if b.vx < -MAX_SPEED { b := b.(vx := -MAX_SPEED); }
    if b.vy > MAX_SPEED { b := b.(vy := MAX_SPEED); }
    if b.vy < -MAX_SPEED { b := b.(vy := -MAX_SPEED); }
    b := b.(px := b.px + b.vx, py := b.py + b.vy);
  }

  /** Everything the ball loop does to ball `i` before looking whether it fell outside. */
  method UpdateBall(balls: array<Ball>, i: nat, events: array<Event>)
    requires i < balls.Length
    requires Sorted(events[..])
    modifies balls
    ensures balls[..] == old(balls[..])[i := Drift(Steered(old(balls[i]), Actions(events[..])))]
  {
    hide Sorted, Actions, Drift, SteerByPlace, ButtonsAfter;
    if balls[i].player >= 0 {
      ReactToEvents(balls, i, events);
    }
    var b := Steer(balls[i]);
    b := LimitAndMove(b);
    balls[i] := b;
  }

  lemma KeepsOwner(b: Ball, acts: set<Action>)
    ensures Drift(Steered(b, acts)).player == b.player
    ensures forall seed :: Reset(Drift(Steered(b, acts)), seed).player == b.player
  {
  }

  /** The ball loop: move every ball and reset the ones that fell outside. */
  method UpdateBalls(balls: array<Ball>, scores: array<int>, deaths: int, events: array<Event>, ghost w: World)
    returns (deathCount: int)
    requires balls.Length == N_BALLS && scores.Length == MAX_PLAYERS && balls as object != scores
    requires Sorted(events[..])
    requires balls[..] == w.balls && scores[..] == w.scores && deaths == w.deathCount
    requires OwnersInRange(balls[..])
    modifies balls, scores
    ensures var m := Moved(w, Actions(events[..]), N_BALLS);
            balls[..] == m.balls && scores[..] == m.scores && deathCount == m.deathCount
    ensures OwnersInRange(balls[..])
  {
    hide ButtonsAfter, SteerByButtons, SteerByPlace, Drift, Reset, Sorted, Actions;
    deathCount := deaths;
    ghost var acts := Actions(events[..]);
    for i := 0 to N_BALLS
      invariant balls[..] == Moved(w, acts, i).balls
      invariant scores[..] == Moved(w, acts, i).scores
      invariant deathCount == Moved(w, acts, i).deathCount
      invariant OwnersInRange(balls[..])
    {
      ghost var m := Moved(w, acts, i);
      UpdateBall(balls, i, events);
      ghost var b := Drift(Steered(m.balls[i], acts));
      KeepsOwner(m.balls[i], acts);
      assert balls[i] == b;
      if balls[i].px < 0 || balls[i].py < 0 || balls[i].px >= ARENA_SIZE || balls[i].py >= ARENA_SIZE {
        ResetBall(balls, i, deathCount);
        deathCount := deathCount + 1;
        if balls[i].player >= 0 {
          var p := balls[i].player;
          assert p < MAX_PLAYERS;
          scores[p] := scores[p] - 1;
          if scores[p] < 0 { scores[p] := 0; }
        }
        assert balls[..] == m.balls[i := Reset(b, m.deathCount)];
        assert scores[..] == Penalise(m.scores, b.player);
      } else {
        assert balls[..] == m.balls[i := b];
      }
    }
  }

  /** One pair of the nested collision loop. */
  method CollidePairOf(balls: array<Ball>, scores: array<int>, deaths: int, a: nat, b: nat, ghost w: World)
    returns (deathCount: int)
    requires balls.Length == N_BALLS && scores.Length == MAX_PLAYERS && a < b < N_BALLS && balls as object != scores
    requires balls[..] == w.balls && scores[..] == w.scores && deaths == w.deathCount
    requires OwnersInRange(balls[..])
    modifies balls, scores
    ensures var m := CollidePair(w, a, b);
            balls[..] == m.balls && scores[..] == m.scores && deathCount == m.deathCount
    ensures OwnersInRange(balls[..])
  {
    deathCount := deaths;
    assert balls[a] == w.balls[a] && balls[b] == w.balls[b];
    var res := CollideBalls(balls, a, b);
    if res == -1 {
      assert balls[b].player < MAX_PLAYERS;
      scores[balls[b].player] := scores[balls[b].player] + 1;
      ResetBall(balls, a, deathCount);
      deathCount := deathCount + 1;
      assert scores[..] == Award(w.scores, w.balls[b].player);
    }
    if res == 1 {
      assert balls[a].player < MAX_PLAYERS;
      scores[balls[a].player] := scores[balls[a].player] + 1;
      ResetBall(balls, b, deathCount);
      deathCount := deathCount + 1;
      assert scores[..] == Award(w.scores, w.balls[a].player);
    }
  }

  /** The nested collision loop over all pairs. */
  method CollideAll(balls: array<Ball>, scores: array<int>, deaths: int, ghost w: World) returns (deathCount: int)
    requires balls.Length == N_BALLS && scores.Length == MAX_PLAYERS && balls as object != scores
    requires balls[..] == w.balls && scores[..] == w.scores && deaths == w.deathCount
    requires OwnersInRange(balls[..])
    modifies balls, scores
    ensures var m := CollidedRows(w, N_BALLS);
            balls[..] == m.balls && scores[..] == m.scores && deathCount == m.deathCount
    ensures OwnersInRange(balls[..])
  {
    deathCount := deaths;
    for a := 0 to N_BALLS
      invariant balls[..] == CollidedRows(w, a).balls && scores[..] == CollidedRows(w, a).scores
      invariant deathCount == CollidedRows(w, a).deathCount
      invariant OwnersInRange(balls[..])
    {
      ghost var row := CollidedRows(w, a);
      for b := a + 1 to N_BALLS
        invariant balls[..] == CollidedRow(row, a, b).balls && scores[..] == CollidedRow(row, a, b).scores
        invariant deathCount == CollidedRow(row, a, b).deathCount
        invariant OwnersInRange(balls[..])
      {
        deathCount := CollidePairOf(balls, scores, deathCount, a, b, CollidedRow(row, a, b));
      }
    }
  }

  /** One step of the simulation. The event array is sorted in place. */
  method AdvanceState(ini: State, events: array<Event>) returns (st: State)
    requires forall e :: e in events[..] ==> Legal(e)
    requires OwnersInRange(ini.balls)
    modifies events
    ensures multiset(events[..]) == multiset(old(events[..]))
    ensures st == Advance(ini, Actions(old(events[..]))) && OwnersInRange(st.balls)
  {
    ghost var given := events[..];
    if events.Length > 0 {
      Qsort(events);
    }
    SameActions(given, events[..]);
    ghost var acts := Actions(events[..]);
    var balls := new Ball[N_BALLS](i requires 0 <= i < N_BALLS => ini.balls[i]);
    var scores := new int[MAX_PLAYERS](i requires 0 <= i < MAX_PLAYERS => ini.scores[i]);
    assert balls[..] == ini.balls && scores[..] == ini.scores;
    assert forall e :: e in events[..] ==> e in multiset(events[..]);
    var paused := ConnectPlayers(balls, events, ini.paused);
    ghost var c := Connect(WorldOf(ini), acts);
    assert balls[..] == c.balls;
    OwnersStayInRange(WorldOf(ini), events[..]);
    if paused != 0 {
      return State(paused, ini.frame + 1, ini.deathCount, scores[..], balls[..], ini.lie);
    }
    var deathCount := UpdateBalls(balls, scores, ini.deathCount, events, c);
    deathCount := CollideAll(balls, scores, deathCount, Moved(c, acts, N_BALLS));
    FoldsKeepPause(c, acts);
    st := State(paused, ini.frame + 1, deathCount, scores[..], balls[..], ini.lie);
  }

  /** Rearranged and repeated events stand for the same actions. */
  lemma SameActions(evs: seq<Event>, evs': seq<Event>)
    requires multiset(evs) == multiset(evs')
    ensures Actions(evs) == Actions(evs')
  {
    assert forall e :: e in evs <==> e in multiset(evs);
    assert forall e :: e in evs' <==> e in multiset(evs');
  }

  lemma OwnersStayInRange(w: World, evs: seq<Event>)
    requires OwnersInRange(w.balls) && forall e :: e in evs ==> Legal(e)
    ensures OwnersInRange(Connect(w, Actions(evs)).balls)
  {
  }

  lemma {:induction false} MovedKeepsPause(w: World, acts: set<Action>, n: nat)
    requires n <= N_BALLS
    ensures Moved(w, acts, n).paused == w.paused
  {
    if n > 0 { MovedKeepsPause(w, acts, n - 1); }
  }

  lemma {:induction false} RowKeepsPause(w: World, a: int, b: int)
    requires 0 <= a < b <= N_BALLS
    ensures CollidedRow(w, a, b).paused == w.paused
  {
    if b > a + 1 { RowKeepsPause(w, a, b - 1); }
  }

  lemma {:induction false} RowsKeepPause(w: World, a: nat)
    requires a <= N_BALLS
    ensures CollidedRows(w, a).paused == w.paused
  {
    if a > 0 {
      RowsKeepPause(w, a - 1);
      RowKeepsPause(CollidedRows(w, a - 1), a - 1, N_BALLS);
    }
  }

  lemma FoldsKeepPause(w: World, acts: set<Action>)
    ensures CollidedRows(Moved(w, acts, N_BALLS), N_BALLS).paused == w.paused
  {
    MovedKeepsPause(w, acts, N_BALLS);
    RowsKeepPause(Moved(w, acts, N_BALLS), N_BALLS);
  }
}
