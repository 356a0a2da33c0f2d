/**
 * The `pongAlt` live script: the same game as `pongElm`, but wired like the
 * Sodium pong window, with one cell per game object and per score, and the
 * `Game` value assembled from them by `NewGame` on every transaction.
 */
module PongAlt {
  import opened Numerics
  import opened Frp
  import opened PongScript
  import SodiumPong
  import PongNetwork
  import PongElm

  /** The script's `struct Game`, with the pause state kept in the game. */
  datatype Game = Game(state: SodiumPong.GameState, ball: GameObject, player1: GameObject, player2: GameObject, scoreP1: int, scoreP2: int, help: string)

  /** `NewGame`: copies its arguments; the help line shows the default exactly while paused. */
  function NewGame(s: SodiumPong.GameState, b: GameObject, p1: GameObject, p2: GameObject, sP1: int, sP2: int): (r: Game)
    ensures r.state == s && r.ball == b && r.player1 == p1 && r.player2 == p2
    ensures r.scoreP1 == sP1 && r.scoreP2 == sP2
    ensures s == SodiumPong.Paused ==> r.help == HelpDefault
    ensures s == SodiumPong.Running ==> r.help == ""
  {
    Game(s, b, p1, p2, sP1, sP2, if s == SodiumPong.Paused then HelpDefault else "")
  }

  /** `Player(x, y)`: a player at rest. */
  function Player(x: real, y: real): (r: GameObject)
    ensures r.x == x && r.y == y && r.vx == 0.0 && r.vy == 0.0
  {
    GameObject(x, y, 0.0, 0.0)
  }

  /** `DefaultBall()`: at (295, 195), moving right and down at 200 per second on each axis. */
  function DefaultBall(): (r: GameObject)
    ensures r.x == ResetX && r.y == ResetY && r.vx == 200.0 && r.vy == 200.0
  {
    GameObject(ResetX, ResetY, 200.0, 200.0)
  }

  /**
   * `Within(p, b, xOffset)`: as in `pongElm` horizontally, but vertically the
   * stripe is `p.y .. p.y + 40`, the paddle's own extent.
   */
  function WithinPlayer(p: GameObject, b: GameObject, xOffset: int): (r: bool)
    ensures r <==>
      && SodiumPong.Between(Trunc(p.x + xOffset as real), Trunc(p.x), Trunc(b.x))
      && Trunc(p.y) <= Trunc(b.y) <= Trunc(p.y + 40.0)
  {
    var tmp := Trunc(p.x + xOffset as real);
    var right := Trunc(p.x);
    var left := if tmp < right then tmp else right;
    var right' := if tmp > right then tmp else right;
    SodiumPong.Within(left, right', Trunc(b.x)) && SodiumPong.Within(Trunc(p.y), Trunc(p.y + 40.0), Trunc(b.y))
  }

  /**
   * The two scripts disagree on where a paddle is: a ball 10 above the top of
   * player 2, just left of it, bounces in `pongElm` but not here, and one 30
   * below the top bounces here but not in `pongElm`.
   */
  lemma PaddleStripesDiffer()
    ensures var p2 := Player((SodiumPong.BoardWidth - 20) as real, 180.0);
      && PongElm.WithinPlayer(p2, GameObject(575.0, 170.0, 200.0, 0.0), -10)
      && !WithinPlayer(p2, GameObject(575.0, 170.0, 200.0, 0.0), -10)
      && !PongElm.WithinPlayer(p2, GameObject(575.0, 210.0, 200.0, 0.0), -10)
      && WithinPlayer(p2, GameObject(575.0, 210.0, 200.0, 0.0), -10)
  {
    TruncOfInt(570);
    TruncOfInt(575);
    TruncOfInt(580);
    TruncOfInt(180);
    TruncOfInt(170);
    TruncOfInt(210);
    TruncOfInt(220);
    assert Trunc(180.0 - 27.5) == 152;
    assert Trunc(180.0 + 27.5) == 207;
  }

  /** `UpdateBallVelocity`: reflection off the paddles (with this script's stripe) and the walls. */
  function UpdateBallVelocity(ball: GameObject, p1: GameObject, p2: GameObject): (r: GameObject)
    ensures r.x == ball.x && r.y == ball.y
    ensures Abs(r.vx) == Abs(ball.vx) && Abs(r.vy) == Abs(ball.vy)
    ensures WithinPlayer(p2, ball, -10) ==> r.vx <= 0.0
    ensures !WithinPlayer(p2, ball, -10) && WithinPlayer(p1, ball, 10) ==> r.vx >= 0.0
    ensures !WithinPlayer(p2, ball, -10) && !WithinPlayer(p1, ball, 10) ==> r.vx == ball.vx
    ensures ball.y > (SodiumPong.BoardHeight - 10) as real ==> r.vy <= 0.0
    ensures ball.y < 0.0 ==> r.vy >= 0.0
    ensures 0.0 <= ball.y <= (SodiumPong.BoardHeight - 10) as real ==> r.vy == ball.vy
  {
    ReflectBall(ball, WithinPlayer(p2, ball, -10), WithinPlayer(p1, ball, 10))
  }

  /**
   * `UpdateBall`: paused, the ball stays; running, a ball whose truncated x is
   * outside `[-10, 600]` is put back at (295, 195) with its velocity, any
   * other is reflected and moved.
   */
  function UpdateBall(dt: TimeSpan, ball: GameObject, p1: GameObject, p2: GameObject, state: SodiumPong.GameState): (r: GameObject)
    ensures state == SodiumPong.Paused ==> r == ball
    ensures state == SodiumPong.Running && !(-10 <= Trunc(ball.x) <= SodiumPong.BoardWidth) ==>
      r == GameObject(ResetX, ResetY, ball.vx, ball.vy)
    ensures state == SodiumPong.Running && -10 <= Trunc(ball.x) <= SodiumPong.BoardWidth ==>
      r == UpdatePosition(dt, UpdateBallVelocity(ball, p1, p2))
    ensures Abs(r.vx) == Abs(ball.vx) && Abs(r.vy) == Abs(ball.vy)
  {
    if state == SodiumPong.Paused then ball
    else if !SodiumPong.Within(-10, SodiumPong.BoardWidth, Trunc(ball.x)) then GameObject(ResetX, ResetY, ball.vx, ball.vy)
    else UpdatePosition(dt, UpdateBallVelocity(ball, p1, p2))
  }

  /**
   * `UpdatePlayer`: paused, the player stays; running, its vertical speed
   * becomes `200 * dir`, it moves and its top edge is clamped to `[5, 355]`.
   */
  function UpdatePlayer(timeSpan: TimeSpan, dir: int, player: GameObject, state: SodiumPong.GameState): (r: GameObject)
    ensures state == SodiumPong.Paused ==> r == player
    ensures state == SodiumPong.Running ==>
      && r.vx == player.vx && r.vy == (dir * 200) as real
      && (r.x - player.x) * TicksPerSecond as real == player.vx * timeSpan as real
      && PlayerMinY as real <= r.y <= PlayerMaxY as real
      && r.y == Util.ClampReal(player.y + (dir * 200) as real * TotalSeconds(timeSpan), PlayerMinY as real, PlayerMaxY as real)
  {
    if state == SodiumPong.Paused then player
    else ClampY(UpdatePosition(timeSpan, UpdatePlayerVelocity(player, dir)), PlayerMinY, PlayerMaxY)
  }

  /** `P2Scored`: the ball goes from right of x = 0 to on or left of it; the current ball is the new state. */
  function P2Scored(ballCur: GameObject, ballOld: GameObject): (r: (bool, GameObject))
    ensures r.0 <==> ballCur.x <= 0.0 < ballOld.x
    ensures r.1 == ballCur
  {
    (ballOld.x > 0.0 && ballCur.x <= 0.0, ballCur)
  }

  /** `P1Scored`: the ball goes from at or left of x = 600 to right of it; the current ball is the new state. */
  function P1Scored(ballCur: GameObject, ballOld: GameObject): (r: (bool, GameObject))
    ensures r.0 <==> ballOld.x <= SodiumPong.BoardWidth as real < ballCur.x
    ensures r.1 == ballCur
  {
    (ballOld.x <= SodiumPong.BoardWidth as real && ballCur.x > SodiumPong.BoardWidth as real, ballCur)
  }

  /** No single ball step scores for both players. */
  lemma NoDoubleGoal(ballCur: GameObject, ballOld: GameObject)
    ensures !(P1Scored(ballCur, ballOld).0 && P2Scored(ballCur, ballOld).0)
  {
  }

  // ---------------------------------------------------------------- signals

  const P1Initial: GameObject := Player(10.0, (SodiumPong.BoardHeightHalf - 20) as real)
  const P2Initial: GameObject := Player((SodiumPong.BoardWidth - 20) as real, (SodiumPong.BoardHeightHalf - 20) as real)

  /**
   * `CellPlayer`: a `CellLoop` holding `Time.Ticks.Snapshot(cDir, cPlayer,
   * cState, UpdatePlayer)`; `first` picks the W/S cell, otherwise the arrows.
   */
  function PlayerAt(stim: seq<Stimulus>, init: GameObject, first: bool, k: nat): GameObject
    requires k <= |stim|
    decreases k
  {
    if k == 0 then init
    else
      var previous := PlayerAt(stim, init, first, k - 1);
      if stim[k - 1].Tick? then
        var dir := if first then Dir1At(stim, k - 1) else Dir2At(stim, k - 1);
        UpdatePlayer(stim[k - 1].dt, dir, previous, StateAt(stim, k - 1))
      else previous
  }

  /** The cells `sPlayer` reads, `cDir`, `cPlayer` and `cState`, after 0, 1, ..., |stim| transactions. */
  function PlayerCells(stim: seq<Stimulus>, init: GameObject, first: bool): (c: seq<(int, GameObject, SodiumPong.GameState)>)
    ensures |c| == |stim| + 1
  {
    seq(|stim| + 1, k requires 0 <= k <= |stim| =>
      (if first then Dir1At(stim, k) else Dir2At(stim, k), PlayerAt(stim, init, first, k), StateAt(stim, k)))
  }

  /**
   * `sPlayer = Time.Ticks.Snapshot(cDir, cPlayer, cState, UpdatePlayer)`: on
   * every frame, the player moved by `UpdatePlayer` from the values the three
   * cells had before that transaction.
   */
  function PlayerStream(stim: seq<Stimulus>, init: GameObject, first: bool): (r: seq<Option<GameObject>>)
    ensures |r| == |stim|
    ensures forall i :: 0 <= i < |r| ==> (r[i].Some? <==> stim[i].Tick?)
    ensures forall i :: 0 <= i < |r| && r[i].Some? ==>
      r[i].value == UpdatePlayer(stim[i].dt, if first then Dir1At(stim, i) else Dir2At(stim, i),
                                 PlayerAt(stim, init, first, i), StateAt(stim, i))
  {
    Snapshot(TickStream(stim), PlayerCells(stim, init, first),
      (dt: TimeSpan, c: (int, GameObject, SodiumPong.GameState)) => UpdatePlayer(dt, c.0, c.1, c.2))
  }

  /** The loop `cPlayer.Loop(sPlayer.Hold(playerInitial))` is closed: `cPlayer` is what `sPlayer` fired last. */
  lemma PlayerLoopIsHold(stim: seq<Stimulus>, init: GameObject, first: bool, k: nat)
    requires k <= |stim|
    ensures PlayerAt(stim, init, first, k) == HoldAt(init, PlayerStream(stim, init, first), k)
  {
    forall j | 0 < j <= |stim|
      ensures HoldsStep(PlayerStream(stim, init, first), PlayerValues(stim, init, first), j)
    {
      PlayerStep(stim, init, first, j);
    }
    StepsAreHold(init, PlayerStream(stim, init, first), PlayerValues(stim, init, first), k);
  }

  /** `cPlayer` after 0, 1, ..., |stim| transactions. */
  function PlayerValues(stim: seq<Stimulus>, init: GameObject, first: bool): (c: seq<GameObject>)
    ensures |c| == |stim| + 1
    ensures forall k :: 0 <= k <= |stim| ==> c[k] == PlayerAt(stim, init, first, k)
  {
    seq(|stim| + 1, k requires 0 <= k <= |stim| => PlayerAt(stim, init, first, k))
  }

  /** Transaction `j - 1` moves `cPlayer` as `Hold` moves on `sPlayer`. */
  lemma PlayerStep(stim: seq<Stimulus>, init: GameObject, first: bool, j: nat)
    requires 0 < j <= |stim|
    ensures HoldsStep(PlayerStream(stim, init, first), PlayerValues(stim, init, first), j)
  {
  }

  function P1At(stim: seq<Stimulus>, k: nat): GameObject
    requires k <= |stim|
  {
    PlayerAt(stim, P1Initial, true, k)
  }

  function P2At(stim: seq<Stimulus>, k: nat): GameObject
    requires k <= |stim|
  {
    PlayerAt(stim, P2Initial, false, k)
  }

  /** A player that starts on the court at rest stays on the court, on its vertical line. */
  lemma {:induction false} PlayerStaysOnCourt(stim: seq<Stimulus>, init: GameObject, first: bool, k: nat)
    requires k <= |stim|
    requires PlayerMinY as real <= init.y <= PlayerMaxY as real && init.vx == 0.0
    ensures var p := PlayerAt(stim, init, first, k);
      PlayerMinY as real <= p.y <= PlayerMaxY as real && p.x == init.x && p.vx == 0.0
    decreases k
  {
    if k > 0 {
      PlayerStaysOnCourt(stim, init, first, k - 1);
    }
  }

  /** `cBall` after `k` transactions: each frame applies `UpdateBall` to the cells' old values. */
  function BallAt(stim: seq<Stimulus>, k: nat): GameObject
    requires k <= |stim|
    decreases k
  {
    if k == 0 then DefaultBall()
    else
      var previous := BallAt(stim, k - 1);
      if stim[k - 1].Tick? then UpdateBall(stim[k - 1].dt, previous, P1At(stim, k - 1), P2At(stim, k - 1), StateAt(stim, k - 1))
      else previous
  }

  /** The cells `sBall` reads, `cBall`, `cP1`, `cP2` and `cState`, after 0, 1, ..., |stim| transactions. */
  function BallCells(stim: seq<Stimulus>): (c: seq<(GameObject, GameObject, GameObject, SodiumPong.GameState)>)
    ensures |c| == |stim| + 1
  {
    seq(|stim| + 1, k requires 0 <= k <= |stim| => (BallAt(stim, k), P1At(stim, k), P2At(stim, k), StateAt(stim, k)))
  }

  /**
   * `sBall = Time.Ticks.Snapshot(cBall, cP1, cP2, cState, UpdateBall)`: on
   * every frame, the ball moved by `UpdateBall` from the values the four cells
   * had before that transaction.
   */
  function BallStream(stim: seq<Stimulus>): (r: seq<Option<GameObject>>)
    ensures |r| == |stim|
    ensures forall i :: 0 <= i < |r| ==> (r[i].Some? <==> stim[i].Tick?)
    ensures forall i :: 0 <= i < |r| && r[i].Some? ==>
      r[i].value == UpdateBall(stim[i].dt, BallAt(stim, i), P1At(stim, i), P2At(stim, i), StateAt(stim, i))
  {
    Snapshot(TickStream(stim), BallCells(stim),
      (dt: TimeSpan, c: (GameObject, GameObject, GameObject, SodiumPong.GameState)) => UpdateBall(dt, c.0, c.1, c.2, c.3))
  }

  /** The loop `cBall.Loop(sBall.Hold(DefaultBall()))` is closed: `cBall` is what `sBall` fired last. */
  lemma BallLoopIsHold(stim: seq<Stimulus>, k: nat)
    requires k <= |stim|
    ensures BallAt(stim, k) == HoldAt(DefaultBall(), BallStream(stim), k)
  {
    forall j | 0 < j <= |stim|
      ensures HoldsStep(BallStream(stim), BallValues(stim), j)
    {
      BallStep(stim, j);
    }
    StepsAreHold(DefaultBall(), BallStream(stim), BallValues(stim), k);
  }

  /** `cBall` after 0, 1, ..., |stim| transactions. */
  function BallValues(stim: seq<Stimulus>): (c: seq<GameObject>)
    ensures |c| == |stim| + 1
    ensures forall k :: 0 <= k <= |stim| ==> c[k] == BallAt(stim, k)
  {
    seq(|stim| + 1, k requires 0 <= k <= |stim| => BallAt(stim, k))
  }

  /** Transaction `j - 1` moves `cBall` as `Hold` moves on `sBall`. */
  lemma BallStep(stim: seq<Stimulus>, j: nat)
    requires 0 < j <= |stim|
    ensures HoldsStep(BallStream(stim), BallValues(stim), j)
  {
  }

  /** The ball keeps its speed: each velocity component stays at magnitude 200. */
  lemma {:induction false} BallKeepsSpeed(stim: seq<Stimulus>, k: nat)
    requires k <= |stim|
    ensures Abs(BallAt(stim, k).vx) == 200.0 && Abs(BallAt(stim, k).vy) == 200.0
    decreases k
  {
    if k > 0 {
      BallKeepsSpeed(stim, k - 1);
    }
  }

  /** `cPoints1` and `cPoints2`: `CellPoints(cBall, sBall, P1Scored)` and with `P2Scored`. */
  function Points1At(stim: seq<Stimulus>, k: nat): int
    requires k <= |stim|
  {
    PongNetwork.CellPoints(DefaultBall(), BallStream(stim), P1Scored, k)
  }

  function Points2At(stim: seq<Stimulus>, k: nat): int
    requires k <= |stim|
  {
    PongNetwork.CellPoints(DefaultBall(), BallStream(stim), P2Scored, k)
  }

  /** `GameSignal() = cState.Lift(cBall, cP1, cP2, cPoints1, cPoints2, NewGame)`. */
  function GameSignalAt(stim: seq<Stimulus>, k: nat): Game
    requires k <= |stim|
  {
    NewGame(StateAt(stim, k), BallAt(stim, k), P1At(stim, k), P2At(stim, k), Points1At(stim, k), Points2At(stim, k))
  }

  /**
   * What the player sees after any run: each score is the number of times the
   * ball crossed that goal line, the help line is shown exactly while paused
   * (an odd number of SPACE key-downs runs the game), and the paddles are on
   * the court.
   */
  lemma GameSignalInvariants(stim: seq<Stimulus>, k: nat)
    requires k <= |stim|
    ensures var g := GameSignalAt(stim, k);
      var balls := FiredUpTo(BallStream(stim), k);
      && g.scoreP1 == PongNetwork.Crossings(DefaultBall(), P1Scored, balls)
      && g.scoreP2 == PongNetwork.Crossings(DefaultBall(), P2Scored, balls)
      && (g.help == HelpDefault <==> CountFired(SpaceDowns(stim), k) % 2 == 0)
      && PlayerMinY as real <= g.player1.y <= PlayerMaxY as real
      && PlayerMinY as real <= g.player2.y <= PlayerMaxY as real
  {
    PongNetwork.CellPointsCountsCrossings(DefaultBall(), BallStream(stim), P1Scored, k);
    PongNetwork.CellPointsCountsCrossings(DefaultBall(), BallStream(stim), P2Scored, k);
    StateIsParity(stim, k);
    PlayerStaysOnCourt(stim, P1Initial, true, k);
    PlayerStaysOnCourt(stim, P2Initial, false, k);
  }

  /** Scores never go down. */
  lemma ScoresMonotone(stim: seq<Stimulus>, j: nat, k: nat)
    requires j <= k <= |stim|
    ensures GameSignalAt(stim, j).scoreP1 <= GameSignalAt(stim, k).scoreP1
    ensures GameSignalAt(stim, j).scoreP2 <= GameSignalAt(stim, k).scoreP2
  {
    PongNetwork.CellPointsMonotone(DefaultBall(), BallStream(stim), P1Scored, j, k);
    PongNetwork.CellPointsMonotone(DefaultBall(), BallStream(stim), P2Scored, j, k);
  }

  /** A frame while paused moves nothing. */
  lemma PausedFrameFreezesObjects(stim: seq<Stimulus>, k: nat)
    requires k < |stim|
    requires StateAt(stim, k) == SodiumPong.Paused
    ensures BallAt(stim, k + 1) == BallAt(stim, k)
    ensures P1At(stim, k + 1) == P1At(stim, k) && P2At(stim, k + 1) == P2At(stim, k)
  {
  }
}
