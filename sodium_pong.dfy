/**
 * The game rules of the Sodium pong sample: pausing, moving and clamping the
 * players, moving and reflecting the ball, collision stripes and the goal-line
 * tests that scoring is built from. Every rule is a pure function over
 * immutable game objects.
 */
module SodiumPong {
  import opened Numerics
  import opened Util

  const BoardWidth: int := 600
  const BoardHeight: int := 400
  const BoardWidthHalf: int := BoardWidth / 2
  const BoardHeightHalf: int := BoardHeight / 2

  /** Vertical speed of a moving player (`playerVelocityAbs` is `(0, 200)`). */
  const PlayerSpeed: real := 200.0

  /** Vertical range a player's centre is clamped to. */
  const PlayerMinY: real := 25.0
  const PlayerMaxY: real := 375.0

  datatype Point = Point(x: real, y: real)
  datatype Vector = Vector(x: real, y: real)

  /** Identity of the WPF element that draws an object; the rules only carry it along. */
  type View = nat

  /** An immutable game object: `With` and `ClampY` return fresh copies. */
  datatype GameObject = GameObject(pos: Point, vel: Vector, view: View) {

    /** `With(Point)`: same velocity and view, new position. */
    function WithPos(p: Point): (r: GameObject)
      ensures r.pos == p && r.vel == vel && r.view == view
    {
      GameObject(p, vel, view)
    }

    /** `With(Vector)`: same position and view, new velocity. */
    function WithVel(v: Vector): (r: GameObject)
      ensures r.pos == pos && r.vel == v && r.view == view
    {
      GameObject(pos, v, view)
    }

    /** `ClampX`: clamps the horizontal position, nothing else changes. */
    function ClampX(min: real, max: real): (r: GameObject)
      ensures r.pos.y == pos.y && r.vel == vel && r.view == view
      ensures min <= max ==> min <= r.pos.x <= max
      ensures min <= pos.x <= max ==> r == this
      ensures pos.x < min ==> r.pos.x == min
      ensures min <= pos.x && pos.x > max ==> r.pos.x == max
    {
      WithPos(Point(ClampReal(pos.x, min, max), pos.y))
    }

    /** `ClampY`: clamps the vertical position, nothing else changes. */
    function ClampY(min: real, max: real): (r: GameObject)
      ensures r.pos.x == pos.x && r.vel == vel && r.view == view
      ensures min <= max ==> min <= r.pos.y <= max
      ensures min <= pos.y <= max ==> r == this
      ensures pos.y < min ==> r.pos.y == min
      ensures min <= pos.y && pos.y > max ==> r.pos.y == max
    {
      WithPos(Point(pos.x, ClampReal(pos.y, min, max)))
    }
  }

  /** The `[Flags]` enum `GameState { Paused = 0, Running = 1 }`. */
  datatype GameState = Paused | Running

  /** The underlying 32-bit value of a `GameState`. */
  function Flags(s: GameState): bv32 {
    if s == Paused then 0 else 1
  }

  function OfFlags(b: bv32): GameState
    requires b == 0 || b == 1
  {
    if b == 0 then Paused else Running
  }

  /** Reference meaning of the pause toggle. */
  function Toggle(s: GameState): GameState {
    match s
    case Paused => Running
    case Running => Paused
  }

  datatype Key = W | S | Up | Down | Space | OtherKey(code: int)

  /** The parts of a WPF `KeyEventArgs` the game reads. */
  datatype KeyEvent = KeyEvent(key: Key, isDown: bool)

  /**
   * `UpdateGameState`: a key-down computes `Running & ~state` on the enum's
   * bits, which toggles between the two states; a key-up changes nothing.
   */
  function UpdateGameState(e: KeyEvent, gameState: GameState): (r: GameState)
    ensures e.isDown ==> r == Toggle(gameState) && r != gameState
    ensures !e.isDown ==> r == gameState
  {
    if e.isDown then OfFlags(Flags(Running) & !Flags(gameState)) else gameState
  }

  /** Two key-downs in a row bring the game back to where it was. */
  lemma UpdateGameStateTwice(e1: KeyEvent, e2: KeyEvent, s: GameState)
    requires e1.isDown && e2.isDown
    ensures UpdateGameState(e2, UpdateGameState(e1, s)) == s
  {
  }

  /** `UpdatePlayerVelocity`: the player moves vertically at full speed in direction `dir`. */
  function UpdatePlayerVelocity(player: GameObject, dir: int): (r: GameObject)
    ensures r.pos == player.pos && r.view == player.view
    ensures r.vel.x == 0.0
    ensures dir == 0 ==> r.vel.y == 0.0
    ensures dir < 0 ==> r.vel.y < 0.0
    ensures dir > 0 ==> r.vel.y > 0.0
    ensures Abs(r.vel.y) == PlayerSpeed * Abs(dir as real)
  {
    player.WithVel(Vector(0.0 * dir as real, PlayerSpeed * dir as real))
  }

  /** `UpdatePosition`: moves an object along its velocity for the span's length in seconds. */
  function UpdatePosition(timeSpan: TimeSpan, gameObject: GameObject): (r: GameObject)
    ensures r.vel == gameObject.vel && r.view == gameObject.view
    ensures (r.pos.x - gameObject.pos.x) * TicksPerSecond as real == gameObject.vel.x * timeSpan as real
    ensures (r.pos.y - gameObject.pos.y) * TicksPerSecond as real == gameObject.vel.y * timeSpan as real
  {
    var dt := TotalSeconds(timeSpan);
    gameObject.WithPos(Point(gameObject.pos.x + gameObject.vel.x * dt, gameObject.pos.y + gameObject.vel.y * dt))
  }

  /** Moving for `a` and then for `b` is moving for `a + b`. */
  lemma UpdatePositionAdditive(a: TimeSpan, b: TimeSpan, o: GameObject)
    ensures UpdatePosition(b, UpdatePosition(a, o)) == UpdatePosition(a + b, o)
  {
    var u := UpdatePosition(a, o);
    var ta, tb := TotalSeconds(a), TotalSeconds(b);
    assert TotalSeconds(a + b) == ta + tb;
    assert o.vel.x * (ta + tb) == o.vel.x * ta + o.vel.x * tb;
    assert o.vel.y * (ta + tb) == o.vel.y * ta + o.vel.y * tb;
  }

  /**
   * `UpdatePlayer`: a paused game leaves the player alone; a running one sets
   * the velocity from the direction, moves the player and clamps its height
   * to `[25, 375]`. Its horizontal position never changes.
   */
  function UpdatePlayer(timeSpan: TimeSpan, player: GameObject, dir: int, gameState: GameState): (r: GameObject)
    ensures gameState == Paused ==> r == player
    ensures gameState == Running ==>
      && r.vel == Vector(0.0, PlayerSpeed * dir as real)
      && r.pos.y == ClampReal(player.pos.y + PlayerSpeed * dir as real * TotalSeconds(timeSpan), PlayerMinY, PlayerMaxY)
      && PlayerMinY <= r.pos.y <= PlayerMaxY
    ensures r.pos.x == player.pos.x && r.view == player.view
  {
    if gameState == Paused then player
    else UpdatePosition(timeSpan, UpdatePlayerVelocity(player, dir)).ClampY(PlayerMinY, PlayerMaxY)
  }

  /**
   * `StepV`: sign-based reflection of one velocity component. A lower
   * collision makes it non-positive, otherwise an upper collision makes it
   * non-negative, otherwise it is kept; its magnitude never changes.
   */
  function StepV(v: real, lowerCollision: bool, upperCollision: bool): (r: real)
    ensures Abs(r) == Abs(v)
    ensures lowerCollision ==> r <= 0.0
    ensures !lowerCollision && upperCollision ==> r >= 0.0
    ensures !lowerCollision && !upperCollision ==> r == v
  {
    if lowerCollision then -Abs(v)
    else if upperCollision then Abs(v)
    else v
  }

  /** The sign rule above leaves only one possible value. */
  lemma StepVDetermined(v: real, lowerCollision: bool, upperCollision: bool, r: real)
    requires Abs(r) == Abs(v)
    requires lowerCollision ==> r <= 0.0
    requires !lowerCollision && upperCollision ==> r >= 0.0
    requires !lowerCollision && !upperCollision ==> r == v
    ensures r == StepV(v, lowerCollision, upperCollision)
  {
  }

  /** `Within(left, right, n)`: `n` lies in the closed interval, which is empty when `left > right`. */
  function Within(left: int, right: int, n: int): (r: bool)
    ensures r <==> left <= n <= right
    ensures left > right ==> !r
  {
    left <= n && n <= right
  }

  /** The horizontal test of a collision: `n` lies between `a` and `b`, in either order. */
  predicate Between(a: int, b: int, n: int) {
    (a <= n <= b) || (b <= n <= a)
  }

  /**
   * `Within(GameObject p, GameObject b, int xOffset)`: the ball's truncated
   * position lies in the horizontal stripe spanned by the player's truncated
   * `x` and `x + xOffset` (ordered as min and max, so the sign of the offset
   * does not matter), and in the vertical stripe `y - 27.5 .. y + 27.5`.
   */
  function WithinPlayer(p: GameObject, b: GameObject, xOffset: int): (r: bool)
    ensures r <==>
      && Between(Trunc(p.pos.x + xOffset as real), Trunc(p.pos.x), Trunc(b.pos.x))
      && Trunc(p.pos.y - 27.5) <= Trunc(b.pos.y) <= Trunc(p.pos.y + 27.5)
  {
    var tmp := Trunc(p.pos.x + xOffset as real);
    var right := Trunc(p.pos.x);
    var left := if tmp < right then tmp else right;
    var right' := if tmp > right then tmp else right;
    Within(left, right', Trunc(b.pos.x))
      && Within(Trunc(p.pos.y - 27.5), Trunc(p.pos.y + 27.5), Trunc(b.pos.y))
  }

  /**
   * The horizontal stripe lies on the side of the player the offset points
   * to: right of it for a positive offset, left of it for a negative one.
   */
  lemma WithinPlayerStripeSide(p: GameObject, b: GameObject, xOffset: int)
    ensures xOffset >= 0 ==>
      (WithinPlayer(p, b, xOffset) <==>
        && Trunc(p.pos.x) <= Trunc(b.pos.x) <= Trunc(p.pos.x + xOffset as real)
        && Trunc(p.pos.y - 27.5) <= Trunc(b.pos.y) <= Trunc(p.pos.y + 27.5))
    ensures xOffset <= 0 ==>
      (WithinPlayer(p, b, xOffset) <==>
        && Trunc(p.pos.x + xOffset as real) <= Trunc(b.pos.x) <= Trunc(p.pos.x)
        && Trunc(p.pos.y - 27.5) <= Trunc(b.pos.y) <= Trunc(p.pos.y + 27.5))
  {
    if xOffset >= 0 {
      TruncMonotone(p.pos.x, p.pos.x + xOffset as real);
    }
    if xOffset <= 0 {
      TruncMonotone(p.pos.x + xOffset as real, p.pos.x);
    }
  }

  /**
   * `UpdateBallVelocity`: reflects the ball off player 2 (stripe to its left)
   * and player 1 (stripe to its right) horizontally, and off the bottom and
   * top walls vertically. Speed per component is preserved.
   */
  function UpdateBallVelocity(ball: GameObject, p1: GameObject, p2: GameObject): (r: GameObject)
    ensures r.pos == ball.pos && r.view == ball.view
    ensures Abs(r.vel.x) == Abs(ball.vel.x) && Abs(r.vel.y) == Abs(ball.vel.y)
    ensures WithinPlayer(p2, ball, -10) ==> r.vel.x <= 0.0
    ensures !WithinPlayer(p2, ball, -10) && WithinPlayer(p1, ball, 10) ==> r.vel.x >= 0.0
    ensures !WithinPlayer(p2, ball, -10) && !WithinPlayer(p1, ball, 10) ==> r.vel.x == ball.vel.x
    ensures ball.pos.y > (BoardHeight - 5) as real ==> r.vel.y <= 0.0
    ensures ball.pos.y < 5.0 ==> r.vel.y >= 0.0
    ensures 5.0 <= ball.pos.y <= (BoardHeight - 5) as real ==> r.vel.y == ball.vel.y
  {
    ball.WithVel(
      Vector(
        StepV(ball.vel.x, WithinPlayer(p2, ball, -10), WithinPlayer(p1, ball, 10)),
        StepV(ball.vel.y, ball.pos.y > (BoardHeight - 5) as real, ball.pos.y < 5.0)))
  }

  /** The court centre the ball is put back to after leaving the court. */
  const Centre: Point := Point(BoardWidthHalf as real, BoardHeightHalf as real)

  /**
   * `UpdateBall`: a paused game leaves the ball alone. If the ball's truncated
   * `x` is outside `[0, 600]` it is put back at the centre with its velocity
   * kept; otherwise it is reflected and then moved. The bounds test reads the
   * position from before the step.
   */
  function UpdateBall(timeSpan: TimeSpan, ball: GameObject, p1: GameObject, p2: GameObject, gameState: GameState): (r: GameObject)
    ensures gameState == Paused ==> r == ball
    ensures gameState == Running && !(0 <= Trunc(ball.pos.x) <= BoardWidth) ==>
      r.pos == Centre && r.vel == ball.vel
    ensures gameState == Running && 0 <= Trunc(ball.pos.x) <= BoardWidth ==>
      r == UpdatePosition(timeSpan, UpdateBallVelocity(ball, p1, p2))
    ensures r.view == ball.view
    ensures Abs(r.vel.x) == Abs(ball.vel.x) && Abs(r.vel.y) == Abs(ball.vel.y)
  {
    if gameState == Paused then ball
    else if !Within(0, BoardWidth, Trunc(ball.pos.x)) then ball.WithPos(Centre)
    else UpdatePosition(timeSpan, UpdateBallVelocity(ball, p1, p2))
  }

  /**
   * A ball that is still on the court moves past the right goal line on one
   * tick and is put back at the centre only on the next: at x = 595 with
   * velocity (200, 0) and players at their starting places, a 0.1 s tick takes
   * it to x = 615, and the tick after that to the centre.
   */
  lemma BallLeavesThenResets()
    ensures var p1 := GameObject(Point(20.0, 200.0), Vector(0.0, 0.0), 1);
      var p2 := GameObject(Point(580.0, 200.0), Vector(0.0, 0.0), 2);
      var ball := GameObject(Point(595.0, 200.0), Vector(200.0, 0.0), 3);
      var once := UpdateBall(1_000_000, ball, p1, p2, Running);
      && once.pos == Point(615.0, 200.0)
      && UpdateBall(1_000_000, once, p1, p2, Running).pos == Centre
  {
    var p1 := GameObject(Point(20.0, 200.0), Vector(0.0, 0.0), 1);
    var p2 := GameObject(Point(580.0, 200.0), Vector(0.0, 0.0), 2);
    var ball := GameObject(Point(595.0, 200.0), Vector(200.0, 0.0), 3);
    TruncOfInt(595);
    TruncOfInt(580);
    TruncOfInt(570);
    TruncOfInt(20);
    TruncOfInt(30);
    TruncOfInt(615);
    assert !WithinPlayer(p2, ball, -10);
    assert !WithinPlayer(p1, ball, 10);
  }

  /** A ball clear of both players at x = 580 moving right for 0.05 s reaches x = 590. */
  lemma BallMovesWithinCourt()
    ensures var p1 := GameObject(Point(20.0, 200.0), Vector(0.0, 0.0), 1);
      var p2 := GameObject(Point(580.0, 50.0), Vector(0.0, 0.0), 2);
      var ball := GameObject(Point(580.0, 200.0), Vector(200.0, 0.0), 3);
      UpdateBall(500_000, ball, p1, p2, Running).pos == Point(590.0, 200.0)
  {
    var p1 := GameObject(Point(20.0, 200.0), Vector(0.0, 0.0), 1);
    var p2 := GameObject(Point(580.0, 50.0), Vector(0.0, 0.0), 2);
    var ball := GameObject(Point(580.0, 200.0), Vector(200.0, 0.0), 3);
    TruncOfInt(580);
    TruncOfInt(200);
    TruncOfInt(77);
    assert Trunc(50.0 + 27.5) == 77;
    assert !WithinPlayer(p2, ball, -10);
    TruncOfInt(20);
    TruncOfInt(30);
    assert !WithinPlayer(p1, ball, 10);
  }

  /**
   * `P1Scored`: player 1 scores when the ball goes from at or before the right
   * goal line (x <= 600) to beyond it; the current ball becomes the new state.
   */
  function P1Scored(ballCur: GameObject, ballOld: GameObject): (r: (bool, GameObject))
    ensures r.0 <==> ballOld.pos.x <= BoardWidth as real < ballCur.pos.x
    ensures r.1 == ballCur
  {
    (ballOld.pos.x <= BoardWidth as real && ballCur.pos.x > BoardWidth as real, ballCur)
  }

  /**
   * `P2Scored`: player 2 scores when the ball goes from right of the left goal
   * line (x > 0) to on or beyond it; the current ball becomes the new state.
   */
  function P2Scored(ballCur: GameObject, ballOld: GameObject): (r: (bool, GameObject))
    ensures r.0 <==> ballCur.pos.x <= 0.0 < ballOld.pos.x
    ensures r.1 == ballCur
  {
    (ballOld.pos.x > 0.0 && ballCur.pos.x <= 0.0, ballCur)
  }

  /** A single step cannot score for both players at once. */
  lemma NoDoubleGoal(ballCur: GameObject, ballOld: GameObject)
    ensures !(P1Scored(ballCur, ballOld).0 && P2Scored(ballCur, ballOld).0)
  {
  }
}
