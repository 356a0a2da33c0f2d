/**
 * The `pongElm` live script: the whole game is one `Game` value, and a single
 * `Update(Input, Game)` step, accumulated over the ticks, advances it.
 */
module PongElm {
  import opened Numerics
  import opened Frp
  import SodiumPong
  import opened PongScript

  /** The script's `struct Game`. */
  datatype Game = Game(ball: GameObject, player1: GameObject, player2: GameObject, scoreP1: int, scoreP2: int, help: string)

  /** The script's `struct Input`: what one tick snapshots from the keyboard cells. */
  datatype Input = Input(state: SodiumPong.GameState, dir1: int, dir2: int, dt: TimeSpan)

  const P1Initial: GameObject := GameObject(10.0, (SodiumPong.BoardHeightHalf - 20) as real, 0.0, 0.0)
  const P2Initial: GameObject := GameObject((SodiumPong.BoardWidth - 20) as real, (SodiumPong.BoardHeightHalf - 20) as real, 0.0, 0.0)
  const BallInitial: GameObject := GameObject(ResetX, ResetY, 200.0, 200.0)
  const GameInitial: Game := Game(BallInitial, P1Initial, P2Initial, 0, 0, HelpDefault)

  /**
   * `Within(p, b, xOffset)`: the ball's truncated position lies in the
   * horizontal stripe between the player's truncated `x` and `x + xOffset`
   * (either order) and in the vertical stripe `y - 27.5 .. y + 27.5`.
   */
  function WithinPlayer(p: GameObject, b: GameObject, xOffset: int): (r: bool)
    ensures r <==>
      && SodiumPong.Between(Trunc(p.x + xOffset as real), Trunc(p.x), Trunc(b.x))
      && Trunc(p.y - 27.5) <= Trunc(b.y) <= Trunc(p.y + 27.5)
  {
    var tmp := Trunc(p.x + xOffset as real);
    var right := Trunc(p.x);
    var left := if tmp < right then tmp else right;
    var right' := if tmp > right then tmp else right;
    SodiumPong.Within(left, right', Trunc(b.x)) && SodiumPong.Within(Trunc(p.y - 27.5), Trunc(p.y + 27.5), Trunc(b.y))
  }

  /**
   * `UpdateBallVelocity`: the ball turns left when it is in the stripe just
   * left of player 2, turns right in the stripe just right of player 1, and
   * bounces off the bottom (y > 390) and top (y < 0) walls.
   */
  function UpdateBallVelocity(ball: GameObject, p1: GameObject, p2: GameObject): (r: GameObject)
    ensures r.x == ball.x && r.y == ball.y
    ensures Abs(r.vx) == Abs(ball.vx) && Abs(r.vy) == Abs(ball.vy)
    ensures WithinPlayer(p2, ball, -10) ==> r.vx <= 0.0
    ensures !WithinPlayer(p2, ball, -10) && WithinPlayer(p1, ball, 10) ==> r.vx >= 0.0
    ensures !WithinPlayer(p2, ball, -10) && !WithinPlayer(p1, ball, 10) ==> r.vx == ball.vx
    ensures ball.y > (SodiumPong.BoardHeight - 10) as real ==> r.vy <= 0.0
    ensures ball.y < 0.0 ==> r.vy >= 0.0
    ensures 0.0 <= ball.y <= (SodiumPong.BoardHeight - 10) as real ==> r.vy == ball.vy
  {
    ReflectBall(ball, WithinPlayer(p2, ball, -10), WithinPlayer(p1, ball, 10))
  }

  /**
   * `UpdateBall`: a ball whose truncated `x` is outside `[-10, 600]` is put
   * back at (295, 195) with its velocity kept; otherwise it is reflected and
   * moved. There is no pause test here: `Update` makes it.
   */
  function UpdateBall(dt: TimeSpan, ball: GameObject, p1: GameObject, p2: GameObject): (r: GameObject)
    ensures !(-10 <= Trunc(ball.x) <= SodiumPong.BoardWidth) ==>
      r == GameObject(ResetX, ResetY, ball.vx, ball.vy)
    ensures -10 <= Trunc(ball.x) <= SodiumPong.BoardWidth ==>
      r == UpdatePosition(dt, UpdateBallVelocity(ball, p1, p2))
    ensures Abs(r.vx) == Abs(ball.vx) && Abs(r.vy) == Abs(ball.vy)
  {
    if !SodiumPong.Within(-10, SodiumPong.BoardWidth, Trunc(ball.x)) then GameObject(ResetX, ResetY, ball.vx, ball.vy)
    else UpdatePosition(dt, UpdateBallVelocity(ball, p1, p2))
  }

  /**
   * `UpdatePlayer`: sets the vertical velocity from the direction, moves the
   * player and clamps its top edge to `[5, 355]`. The state argument is not
   * read. A player with no horizontal speed keeps its `x`.
   */
  function UpdatePlayer(timeSpan: TimeSpan, dir: int, player: GameObject, state: SodiumPong.GameState): (r: GameObject)
    ensures r.vx == player.vx && r.vy == (dir * 200) as real
    ensures (r.x - player.x) * TicksPerSecond as real == player.vx * timeSpan as real
    ensures PlayerMinY as real <= r.y <= PlayerMaxY as real
    ensures r.y == Util.ClampReal(player.y + (dir * 200) as real * TotalSeconds(timeSpan), PlayerMinY as real, PlayerMaxY as real)
  {
    ClampY(UpdatePosition(timeSpan, UpdatePlayerVelocity(player, dir)), PlayerMinY, PlayerMaxY)
  }

  /**
   * `Update(input, game)`. Paused: the game is kept, only the help line is put
   * back to the default (which returns `game` itself when it already shows
   * it). Running: each score grows by one exactly when the ball was beyond
   * that player's goal (x > 600, resp. x < -10) before the step, the ball and
   * players take a step and the help line is cleared.
   */
  function Update(input: Input, game: Game): (r: Game)
    ensures input.state == SodiumPong.Paused ==> r == game.(help := HelpDefault)
    ensures input.state == SodiumPong.Running ==>
      && r.scoreP1 == game.scoreP1 + (if game.ball.x > SodiumPong.BoardWidth as real then 1 else 0)
      && r.scoreP2 == game.scoreP2 + (if game.ball.x < -10.0 then 1 else 0)
      && r.ball == UpdateBall(input.dt, game.ball, game.player1, game.player2)
      && r.player1 == UpdatePlayer(input.dt, input.dir1, game.player1, input.state)
      && r.player2 == UpdatePlayer(input.dt, input.dir2, game.player2, input.state)
    ensures r.help == (if input.state == SodiumPong.Paused then HelpDefault else "")
    ensures game.scoreP1 <= r.scoreP1 <= game.scoreP1 + 1
    ensures game.scoreP2 <= r.scoreP2 <= game.scoreP2 + 1
  {
    if input.state == SodiumPong.Paused then
      if game.help == HelpDefault then game
      else Game(game.ball, game.player1, game.player2, game.scoreP1, game.scoreP2, HelpDefault)
    else
      var score1 := if game.ball.x > SodiumPong.BoardWidth as real then 1 else 0;
      var score2 := if game.ball.x < -10.0 then 1 else 0;
      var newBall := UpdateBall(input.dt, game.ball, game.player1, game.player2);
      var p1 := UpdatePlayer(input.dt, input.dir1, game.player1, input.state);
      var p2 := UpdatePlayer(input.dt, input.dir2, game.player2, input.state);
      Game(newBall, p1, p2, game.scoreP1 + score1, game.scoreP2 + score2, "")
  }

  /** `gameSignal = input.Accum(gameInitial, Update)`: the game after `k` transactions. */
  function GameAt(inputs: seq<Option<Input>>, k: nat): Game
    requires k <= |inputs|
  {
    AccumAt(GameInitial, Update, inputs, k)
  }

  /**
   * Over any run the scores never decrease and each grows by at most one per
   * tick, so neither exceeds the number of ticks.
   */
  lemma {:induction false} ScoresBoundedByTicks(inputs: seq<Option<Input>>, k: nat)
    requires k <= |inputs|
    ensures 0 <= GameAt(inputs, k).scoreP1 <= CountFired(inputs, k)
    ensures 0 <= GameAt(inputs, k).scoreP2 <= CountFired(inputs, k)
    decreases k
  {
    if k > 0 {
      ScoresBoundedByTicks(inputs, k - 1);
    }
  }

  /** Both players stay on the court and on their vertical lines, and the ball keeps its speed. */
  lemma {:induction false} GameStaysOnCourt(inputs: seq<Option<Input>>, k: nat)
    requires k <= |inputs|
    ensures var g := GameAt(inputs, k);
      && PlayerMinY as real <= g.player1.y <= PlayerMaxY as real
      && PlayerMinY as real <= g.player2.y <= PlayerMaxY as real
      && g.player1.x == P1Initial.x && g.player2.x == P2Initial.x
      && g.player1.vx == 0.0 && g.player2.vx == 0.0
      && Abs(g.ball.vx) == 200.0 && Abs(g.ball.vy) == 200.0
    decreases k
  {
    if k > 0 {
      GameStaysOnCourt(inputs, k - 1);
    }
  }

  /**
   * As written, a goal can count twice: a running tick that sees the ball at
   * x = 600.5 scores (x > 600) but does not put the ball back, because its
   * truncated x, 600, is still inside `[-10, 600]`. The ball moves on and the
   * next tick scores again before putting it back.
   */
  lemma GoalCountsTwice()
    ensures var p1 := P1Initial;
      var p2 := GameObject((SodiumPong.BoardWidth - 20) as real, 0.0, 0.0, 0.0);
      var game := Game(GameObject(600.5, 195.0, 200.0, 0.0), p1, p2, 0, 0, "");
      var tick := Input(SodiumPong.Running, 0, 0, 166_667);
      var once := Update(tick, game);
      var twice := Update(tick, once);
      && once.scoreP1 == 1
      && twice.scoreP1 == 2
      && twice.ball.x == ResetX
  {
    var p2 := GameObject((SodiumPong.BoardWidth - 20) as real, 0.0, 0.0, 0.0);
    var ball := GameObject(600.5, 195.0, 200.0, 0.0);
    assert Trunc(600.5) == 600;
    assert !WithinPlayer(p2, ball, -10);
    assert !WithinPlayer(P1Initial, ball, 10);
    var moved := UpdateBall(166_667, ball, P1Initial, p2);
    assert moved.x == 600.5 + 200.0 * TotalSeconds(166_667);
    assert Trunc(moved.x) > SodiumPong.BoardWidth;
  }

  /**
   * `Update` with a one-point-per-goal rule of this model's own: a point is
   * given exactly on the tick that puts the ball back from behind that
   * player's goal, i.e. when the truncated x is above 600 (resp. below -10),
   * the very test `UpdateBall` resets on.
   */
  function UpdateScoringOnReset(input: Input, game: Game): (r: Game)
    ensures input.state == SodiumPong.Paused ==> r == game.(help := HelpDefault)
    ensures input.state == SodiumPong.Running ==>
      && r.ball == UpdateBall(input.dt, game.ball, game.player1, game.player2)
      && r.player1 == UpdatePlayer(input.dt, input.dir1, game.player1, input.state)
      && r.player2 == UpdatePlayer(input.dt, input.dir2, game.player2, input.state)
      && r.help == ""
    ensures input.state == SodiumPong.Running ==>
      (r.scoreP1 == game.scoreP1 + 1 <==> Trunc(game.ball.x) > SodiumPong.BoardWidth && r.ball.x == ResetX)
    ensures input.state == SodiumPong.Running ==>
      (r.scoreP2 == game.scoreP2 + 1 <==> Trunc(game.ball.x) < -10 && r.ball.x == ResetX)
    ensures game.scoreP1 <= r.scoreP1 <= game.scoreP1 + 1
    ensures game.scoreP2 <= r.scoreP2 <= game.scoreP2 + 1
  {
    if input.state == SodiumPong.Paused then
      if game.help == HelpDefault then game
      else Game(game.ball, game.player1, game.player2, game.scoreP1, game.scoreP2, HelpDefault)
    else
      var score1 := if Trunc(game.ball.x) > SodiumPong.BoardWidth then 1 else 0;
      var score2 := if Trunc(game.ball.x) < -10 then 1 else 0;
      var newBall := UpdateBall(input.dt, game.ball, game.player1, game.player2);
      var p1 := UpdatePlayer(input.dt, input.dir1, game.player1, input.state);
      var p2 := UpdatePlayer(input.dt, input.dir2, game.player2, input.state);
      Game(newBall, p1, p2, game.scoreP1 + score1, game.scoreP2 + score2, "")
  }

  /** With the corrected rule a goal counts once: the tick after a point never scores again. */
  lemma GoalCountsOnce(tick1: Input, tick2: Input, game: Game)
    requires tick1.state == SodiumPong.Running
    requires UpdateScoringOnReset(tick1, game).scoreP1 == game.scoreP1 + 1
      || UpdateScoringOnReset(tick1, game).scoreP2 == game.scoreP2 + 1
    ensures var once := UpdateScoringOnReset(tick1, game);
      var twice := UpdateScoringOnReset(tick2, once);
      twice.scoreP1 == once.scoreP1 && twice.scoreP2 == once.scoreP2
  {
    var once := UpdateScoringOnReset(tick1, game);
    assert once.ball.x == ResetX;
    TruncOfInt(SodiumPong.BoardWidthHalf - 5);
  }

  /** `gameSignal` with the corrected scoring rule. */
  function CorrectedGameAt(inputs: seq<Option<Input>>, k: nat): Game
    requires k <= |inputs|
  {
    AccumAt(GameInitial, UpdateScoringOnReset, inputs, k)
  }

  /** The corrected signal keeps the players on the court and its scores below the tick count. */
  lemma {:induction false} CorrectedGameInvariants(inputs: seq<Option<Input>>, k: nat)
    requires k <= |inputs|
    ensures var g := CorrectedGameAt(inputs, k);
      && PlayerMinY as real <= g.player1.y <= PlayerMaxY as real
      && PlayerMinY as real <= g.player2.y <= PlayerMaxY as real
      && 0 <= g.scoreP1 <= CountFired(inputs, k)
      && 0 <= g.scoreP2 <= CountFired(inputs, k)
    decreases k
  {
    if k > 0 {
      CorrectedGameInvariants(inputs, k - 1);
    }
  }

  // ---------------------------------------------------------------- signals

  /**
   * `input = Time.Ticks.Snapshot(state, dir1, dir2, NewInput)`: every frame
   * packs the cell values from before its transaction with the frame's span.
   */
  function InputStream(stim: seq<Stimulus>): (r: seq<Option<Input>>)
    ensures |r| == |stim|
    ensures forall i :: 0 <= i < |r| ==> (r[i].Some? <==> stim[i].Tick?)
    ensures forall i :: 0 <= i < |r| && r[i].Some? ==>
      r[i].value == Input(StateAt(stim, i), Dir1At(stim, i), Dir2At(stim, i), stim[i].dt)
  {
    Snapshot(TickStream(stim), InputCells(stim),
      (dt: TimeSpan, c: (SodiumPong.GameState, int, int)) => Input(c.0, c.1, c.2, dt))
  }

  /** The cells `input` reads, `state`, `dir1` and `dir2`, after 0, 1, ..., |stim| transactions. */
  function InputCells(stim: seq<Stimulus>): (c: seq<(SodiumPong.GameState, int, int)>)
    ensures |c| == |stim| + 1
  {
    seq(|stim| + 1, k requires 0 <= k <= |stim| => (StateAt(stim, k), Dir1At(stim, k), Dir2At(stim, k)))
  }

  /** `gameSignal` driven by the host streams. */
  function GameSignalAt(stim: seq<Stimulus>, k: nat): Game
    requires k <= |stim|
  {
    GameAt(InputStream(stim), k)
  }

  /**
   * Only frames change the game, and a frame while the game is paused only
   * shows the help line: ball, players and scores stay as they were.
   */
  lemma PausedFrameFreezesGame(stim: seq<Stimulus>, k: nat)
    requires k < |stim|
    ensures !stim[k].Tick? ==> GameSignalAt(stim, k + 1) == GameSignalAt(stim, k)
    ensures stim[k].Tick? && StateAt(stim, k) == SodiumPong.Paused ==>
      GameSignalAt(stim, k + 1) == GameSignalAt(stim, k).(help := HelpDefault)
  {
  }
}
