/**
 * What the two live-scripting pong programs have in common: the mutable-free
 * `GameObject` struct with `x`, `y`, `vx`, `vy`, and the rules both scripts
 * spell out identically (pause toggle, player velocity, clamping, moving).
 * `StepV` and the integer `Within` are the very same text as in the Sodium
 * pong window and are taken from `SodiumPong`.
 */
module PongScript {
  import opened Numerics
  import opened Util
  import opened Frp
  import SodiumPong

  /** Default help line, shown while the game is paused. */
  const HelpDefault: string := "SPACE to play and pause, W/S and \U{2191}\U{2193} to move"

  /** Vertical range a script player's top edge is clamped to. */
  const PlayerMinY: int := 5
  const PlayerMaxY: int := 355

  /** The scripts' `struct GameObject`. */
  datatype GameObject = GameObject(x: real, y: real, vx: real, vy: real)

  /** `UpdateGameState(isDown, state)`: `Running & ~state` on a key-down, the same state otherwise. */
  function UpdateGameState(isDown: bool, state: SodiumPong.GameState): (r: SodiumPong.GameState)
    ensures isDown ==> r == SodiumPong.Toggle(state) && r != state
    ensures !isDown ==> r == state
  {
    if isDown then SodiumPong.OfFlags(SodiumPong.Flags(SodiumPong.Running) & !SodiumPong.Flags(state)) else state
  }

  /** `UpdatePlayerVelocity`: vertical speed 200 in direction `dir`; position and `vx` are kept. */
  function UpdatePlayerVelocity(player: GameObject, dir: int): (r: GameObject)
    ensures r.x == player.x && r.y == player.y && r.vx == player.vx
    ensures dir == 0 ==> r.vy == 0.0
    ensures dir < 0 ==> r.vy < 0.0
    ensures dir > 0 ==> r.vy > 0.0
    ensures Abs(r.vy) == 200.0 * Abs(dir as real)
  {
    GameObject(player.x, player.y, player.vx, (dir * 200) as real)
  }

  /**
   * `ClampY(g, min, max)`: clamps the vertical position and keeps the rest.
   * The host's `b.Clamp` is taken to behave as the sample's `Clamp`.
   */
  function ClampY(g: GameObject, min: int, max: int): (r: GameObject)
    ensures r.x == g.x && r.vx == g.vx && r.vy == g.vy
    ensures min <= max ==> min as real <= r.y <= max as real
    ensures min as real <= g.y <= max as real ==> r == g
    ensures g.y < min as real ==> r.y == min as real
    ensures min as real <= g.y && g.y > max as real ==> r.y == max as real
  {
    GameObject(g.x, ClampReal(g.y, min as real, max as real), g.vx, g.vy)
  }

  /** `UpdatePosition`: moves an object along its velocity for the span's length in seconds. */
  function UpdatePosition(timeSpan: TimeSpan, gameObject: GameObject): (r: GameObject)
    ensures r.vx == gameObject.vx && r.vy == gameObject.vy
    ensures (r.x - gameObject.x) * TicksPerSecond as real == gameObject.vx * timeSpan as real
    ensures (r.y - gameObject.y) * TicksPerSecond as real == gameObject.vy * timeSpan as real
  {
    var dt := TotalSeconds(timeSpan);
    GameObject(gameObject.x + gameObject.vx * dt, gameObject.y + gameObject.vy * dt, gameObject.vx, gameObject.vy)
  }

  /** `UpdateBallVelocity` for a given collision test: reflect off the players and the walls. */
  function ReflectBall(ball: GameObject, collidesP2: bool, collidesP1: bool): (r: GameObject)
    ensures r.x == ball.x && r.y == ball.y
    ensures Abs(r.vx) == Abs(ball.vx) && Abs(r.vy) == Abs(ball.vy)
    ensures collidesP2 ==> r.vx <= 0.0
    ensures !collidesP2 && collidesP1 ==> r.vx >= 0.0
    ensures !collidesP2 && !collidesP1 ==> r.vx == ball.vx
    ensures ball.y > (SodiumPong.BoardHeight - 10) as real ==> r.vy <= 0.0
    ensures ball.y < 0.0 ==> r.vy >= 0.0
    ensures 0.0 <= ball.y <= (SodiumPong.BoardHeight - 10) as real ==> r.vy == ball.vy
  {
    GameObject(
      ball.x,
      ball.y,
      SodiumPong.StepV(ball.vx, collidesP2, collidesP1),
      SodiumPong.StepV(ball.vy, ball.y > (SodiumPong.BoardHeight - 10) as real, ball.y < 0.0))
  }

  /** Where a script ball is put back after leaving the court. */
  const ResetX: real := (SodiumPong.BoardWidthHalf - 5) as real
  const ResetY: real := (SodiumPong.BoardHeightHalf - 5) as real

  // ---------------------------------------------------------------- host streams

  /**
   * One transaction of the script host: a SPACE key event (`k.SpaceStream`),
   * a new value of the W/S direction cell (`k.WasdCell.Map(t => t.Item2)`), a
   * new value of the arrow direction cell, or a frame (`Time.Ticks`) with the
   * time since the previous frame.
   */
  datatype Stimulus = SpaceKey(isDown: bool) | WasdDir(dir1: int) | ArrowsDir(dir2: int) | Tick(dt: TimeSpan)

  function SpaceStream(stim: seq<Stimulus>): (r: seq<Option<bool>>)
    ensures |r| == |stim|
    ensures forall i :: 0 <= i < |r| ==> (r[i].Some? <==> stim[i].SpaceKey?)
  {
    seq(|stim|, i requires 0 <= i < |stim| => if stim[i].SpaceKey? then Some(stim[i].isDown) else None)
  }

  function WasdStream(stim: seq<Stimulus>): (r: seq<Option<int>>)
    ensures |r| == |stim|
    ensures forall i :: 0 <= i < |r| ==> (r[i].Some? <==> stim[i].WasdDir?)
  {
    seq(|stim|, i requires 0 <= i < |stim| => if stim[i].WasdDir? then Some(stim[i].dir1) else None)
  }

  function ArrowsStream(stim: seq<Stimulus>): (r: seq<Option<int>>)
    ensures |r| == |stim|
    ensures forall i :: 0 <= i < |r| ==> (r[i].Some? <==> stim[i].ArrowsDir?)
  {
    seq(|stim|, i requires 0 <= i < |stim| => if stim[i].ArrowsDir? then Some(stim[i].dir2) else None)
  }

  function TickStream(stim: seq<Stimulus>): (r: seq<Option<TimeSpan>>)
    ensures |r| == |stim|
    ensures forall i :: 0 <= i < |r| ==> (r[i].Some? <==> stim[i].Tick?)
    ensures forall i :: 0 <= i < |r| && r[i].Some? ==> r[i].value == stim[i].dt
  {
    seq(|stim|, i requires 0 <= i < |stim| => if stim[i].Tick? then Some(stim[i].dt) else None)
  }

  /** `k.SpaceStream.Accum(State.Paused, UpdateGameState)` after `k` transactions. */
  function StateAt(stim: seq<Stimulus>, k: nat): SodiumPong.GameState
    requires k <= |stim|
  {
    AccumAt(SodiumPong.Paused, UpdateGameState, SpaceStream(stim), k)
  }

  /** Direction cells start at 0 and hold the last value the host gave them. */
  function Dir1At(stim: seq<Stimulus>, k: nat): int
    requires k <= |stim|
  {
    HoldAt(0, WasdStream(stim), k)
  }

  function Dir2At(stim: seq<Stimulus>, k: nat): int
    requires k <= |stim|
  {
    HoldAt(0, ArrowsStream(stim), k)
  }

  /** `Filter(SpaceStream, isDown)`: the SPACE key-downs. */
  function SpaceDowns(stim: seq<Stimulus>): (r: seq<Option<bool>>)
    ensures |r| == |stim|
    ensures forall i :: 0 <= i < |r| ==> (r[i].Some? <==> stim[i].SpaceKey? && stim[i].isDown)
  {
    Filter(SpaceStream(stim), (d: bool) => d)
  }

  /** A script game runs exactly when SPACE has gone down an odd number of times. */
  lemma {:induction false} StateIsParity(stim: seq<Stimulus>, k: nat)
    requires k <= |stim|
    ensures StateAt(stim, k) == SodiumPong.Running <==> CountFired(SpaceDowns(stim), k) % 2 == 1
    decreases k
  {
    if k > 0 {
      StateIsParity(stim, k - 1);
    }
  }
}
