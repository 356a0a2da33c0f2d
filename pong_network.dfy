/**
 * How the Sodium pong window wires its rules into cells and streams, stated
 * over a run of host stimuli. Every key event and every rendering event is sent
 * from its own event handler, so each one is a transaction of its own.
 */
module PongNetwork {
  import opened Numerics
  import opened Frp
  import opened SodiumPong

  /** One host stimulus: a WPF key event or a rendering event with its time. */
  datatype Stimulus = KeyInput(event: KeyEvent) | Rendering(renderingTime: TimeSpan)

  /** `sKeyEvents`: fires in the transactions that carry a key event. */
  function KeyEvents(stim: seq<Stimulus>): (r: seq<Option<KeyEvent>>)
    ensures |r| == |stim|
    ensures forall i :: 0 <= i < |r| ==> (r[i].Some? <==> stim[i].KeyInput?)
    ensures forall i :: 0 <= i < |r| && r[i].Some? ==> r[i].value == stim[i].event
  {
    seq(|stim|, i requires 0 <= i < |stim| => if stim[i].KeyInput? then Some(stim[i].event) else None)
  }

  /** `sRenderEvents`, reduced to the rendering time it carries. */
  function RenderEvents(stim: seq<Stimulus>): (r: seq<Option<TimeSpan>>)
    ensures |r| == |stim|
    ensures forall i :: 0 <= i < |r| ==> (r[i].Some? <==> stim[i].Rendering?)
    ensures forall i :: 0 <= i < |r| && r[i].Some? ==> r[i].value == stim[i].renderingTime
  {
    seq(|stim|, i requires 0 <= i < |stim| => if stim[i].Rendering? then Some(stim[i].renderingTime) else None)
  }

  // ---------------------------------------------------------------- sTicks

  /** The `Collect` step of `sTicks`: emit the time since the previous event, remember this one. */
  function TickStep(renderingTime: TimeSpan, previous: TimeSpan): (TimeSpan, TimeSpan) {
    (renderingTime - previous, renderingTime)
  }

  /** `sTicks = sRenderEvents.Collect(TimeSpan.Zero, TickStep)`. */
  function Ticks(renders: seq<Option<TimeSpan>>): (r: seq<Option<TimeSpan>>)
    ensures |r| == |renders|
    ensures forall i :: 0 <= i < |r| ==> (r[i].Some? <==> renders[i].Some?)
  {
    Collect(0, TickStep, renders)
  }

  /**
   * The deltas `sTicks` has emitted add up to the latest rendering time (zero
   * before the first rendering event).
   */
  lemma {:induction false} TickDeltasSumToLatest(renders: seq<Option<TimeSpan>>, k: nat)
    requires k <= |renders|
    ensures Sum(FiredUpTo(Ticks(renders), k)) == HoldAt(0, renders, k)
    decreases k
  {
    if k > 0 {
      TickDeltasSumToLatest(renders, k - 1);
      var ticks := Ticks(renders);
      if renders[k - 1].Some? {
        var prefix := FiredUpTo(ticks, k - 1);
        CollectStateIsHold(0, TickStep, renders, k - 1);
        assert FiredUpTo(ticks, k) == prefix + [ticks[k - 1].value];
        assert (prefix + [ticks[k - 1].value])[..|prefix|] == prefix;
      } else {
        assert FiredUpTo(ticks, k) == FiredUpTo(ticks, k - 1);
      }
    }
  }

  // ---------------------------------------------------------------- CellDirPlayer

  function NorthDir(e: KeyEvent): int {
    if e.isDown then -1 else 0
  }

  function SouthDir(e: KeyEvent): int {
    if e.isDown then 1 else 0
  }

  /** The stream `CellDirPlayer` holds: north events map to -1/0, south ones to 1/0, north first. */
  function DirStream(keys: seq<Option<KeyEvent>>, keyNorth: Key, keySouth: Key): (r: seq<Option<int>>)
    ensures |r| == |keys|
    ensures forall i :: 0 <= i < |r| ==>
      (r[i].Some? <==> keys[i].Some? && (keys[i].value.key == keyNorth || keys[i].value.key == keySouth))
    ensures forall i :: 0 <= i < |r| && r[i].Some? ==>
      r[i].value == (if keys[i].value.key == keyNorth then NorthDir(keys[i].value) else SouthDir(keys[i].value))
  {
    OrElse(Map(Filter(keys, (e: KeyEvent) => e.key == keyNorth), NorthDir),
           Map(Filter(keys, (e: KeyEvent) => e.key == keySouth), SouthDir))
  }

  /** The key events that concern either of the two keys. */
  function RelevantKeys(keys: seq<Option<KeyEvent>>, keyNorth: Key, keySouth: Key): (r: seq<Option<KeyEvent>>)
    ensures |r| == |keys|
  {
    Filter(keys, (e: KeyEvent) => e.key == keyNorth || e.key == keySouth)
  }

  /** Direction a single relevant event asks for; the north key is read first. */
  function DirOf(e: KeyEvent, keyNorth: Key): int {
    if e.key == keyNorth then NorthDir(e) else SouthDir(e)
  }

  /** `CellDirPlayer(sKeyEvents, keyNorth, keySouth)`: its value after `k` transactions. */
  function CellDirPlayer(keys: seq<Option<KeyEvent>>, keyNorth: Key, keySouth: Key, k: nat): int
    requires k <= |keys|
  {
    HoldAt(0, DirStream(keys, keyNorth, keySouth), k)
  }

  /** Transaction by transaction, the direction stream fires exactly on the relevant key events. */
  lemma DirStreamAt(keys: seq<Option<KeyEvent>>, keyNorth: Key, keySouth: Key, i: nat)
    requires i < |keys|
    ensures var d := DirStream(keys, keyNorth, keySouth);
      var rel := RelevantKeys(keys, keyNorth, keySouth);
      && (d[i].Some? <==> rel[i].Some?)
      && (rel[i].Some? ==> d[i].value == DirOf(rel[i].value, keyNorth))
  {
  }

  /** One transaction of `CellDirPlayer`: a relevant event sets the direction, any other keeps it. */
  lemma CellDirPlayerStep(keys: seq<Option<KeyEvent>>, keyNorth: Key, keySouth: Key, k: nat)
    requires 0 < k <= |keys|
    ensures var rel := RelevantKeys(keys, keyNorth, keySouth);
      CellDirPlayer(keys, keyNorth, keySouth, k) ==
        if rel[k - 1].Some? then DirOf(rel[k - 1].value, keyNorth) else CellDirPlayer(keys, keyNorth, keySouth, k - 1)
  {
    DirStreamAt(keys, keyNorth, keySouth, k - 1);
  }

  /**
   * The player direction is decided by the last event of either key alone:
   * 0 before any, -1 while the north key was last pressed, 1 while the south
   * key was, 0 after a release. It is always -1, 0 or 1.
   */
  lemma {:induction false} CellDirPlayerIsLastKey(keys: seq<Option<KeyEvent>>, keyNorth: Key, keySouth: Key, k: nat)
    requires k <= |keys|
    ensures var rel := FiredUpTo(RelevantKeys(keys, keyNorth, keySouth), k);
      CellDirPlayer(keys, keyNorth, keySouth, k) == if rel == [] then 0 else DirOf(rel[|rel| - 1], keyNorth)
    ensures -1 <= CellDirPlayer(keys, keyNorth, keySouth, k) <= 1
    decreases k
  {
    if k > 0 {
      CellDirPlayerIsLastKey(keys, keyNorth, keySouth, k - 1);
      CellDirPlayerStep(keys, keyNorth, keySouth, k);
      var rel := RelevantKeys(keys, keyNorth, keySouth);
      if rel[k - 1].Some? {
        assert FiredUpTo(rel, k) == FiredUpTo(rel, k - 1) + [rel[k - 1].value];
      } else {
        assert FiredUpTo(rel, k) == FiredUpTo(rel, k - 1);
      }
    }
  }

  // ---------------------------------------------------------------- cGameState

  function IsSpace(e: KeyEvent): bool {
    e.key == Space
  }

  function IsSpaceDown(e: KeyEvent): bool {
    e.key == Space && e.isDown
  }

  /** `cGameState = sKeyEvents.Filter(SPACE).Accum(Paused, UpdateGameState)` after `k` transactions. */
  function GameStateAt(stim: seq<Stimulus>, k: nat): GameState
    requires k <= |stim|
  {
    AccumAt(Paused, UpdateGameState, Filter(KeyEvents(stim), IsSpace), k)
  }

  /**
   * The game runs exactly when SPACE has gone down an odd number of times;
   * every repeated key-down of a held key counts.
   */
  lemma {:induction false} GameStateIsParity(stim: seq<Stimulus>, k: nat)
    requires k <= |stim|
    ensures GameStateAt(stim, k) == Running <==> CountFired(Filter(KeyEvents(stim), IsSpaceDown), k) % 2 == 1
    decreases k
  {
    if k > 0 {
      GameStateIsParity(stim, k - 1);
      var keys := KeyEvents(stim);
      var space := Filter(keys, IsSpace);
      var spaceDown := Filter(keys, IsSpaceDown);
      assert spaceDown[k - 1].Some? <==> space[k - 1].Some? && space[k - 1].value.isDown;
    }
  }

  // ---------------------------------------------------------------- players and ball

  const P1Initial: GameObject := GameObject(Point(20.0, BoardHeightHalf as real), Vector(0.0, 0.0), 1)
  const P2Initial: GameObject := GameObject(Point((BoardWidth - 20) as real, BoardHeightHalf as real), Vector(0.0, 0.0), 2)
  const BallInitial: GameObject := GameObject(Centre, Vector(200.0, -200.0), 3)

  /** The `sTicks` firing of transaction `i`, if any. */
  function TickAt(stim: seq<Stimulus>, i: nat): (r: Option<TimeSpan>)
    requires i < |stim|
    ensures r.Some? <==> stim[i].Rendering?
  {
    Ticks(RenderEvents(stim))[i]
  }

  /**
   * `CellPlayer`: a `CellLoop` holding `sTicks.Snapshot(cPlayer, cDir,
   * cGameState, UpdatePlayer)`; each tick updates the player from the values
   * the cells had before that transaction.
   */
  function PlayerAt(stim: seq<Stimulus>, init: GameObject, keyNorth: Key, keySouth: Key, k: nat): GameObject
    requires k <= |stim|
    decreases k
  {
    if k == 0 then init
    else
      var previous := PlayerAt(stim, init, keyNorth, keySouth, k - 1);
      var tick := TickAt(stim, k - 1);
      if tick.Some? then
        UpdatePlayer(tick.value, previous, CellDirPlayer(KeyEvents(stim), keyNorth, keySouth, k - 1), GameStateAt(stim, k - 1))
      else previous
  }

  /** A player that starts on the court stays on the court and on its own vertical line. */
  lemma {:induction false} PlayerStaysOnCourt(stim: seq<Stimulus>, init: GameObject, keyNorth: Key, keySouth: Key, k: nat)
    requires k <= |stim|
    requires PlayerMinY <= init.pos.y <= PlayerMaxY
    ensures var p := PlayerAt(stim, init, keyNorth, keySouth, k);
      PlayerMinY <= p.pos.y <= PlayerMaxY && p.pos.x == init.pos.x && p.view == init.view
    decreases k
  {
    if k > 0 {
      PlayerStaysOnCourt(stim, init, keyNorth, keySouth, k - 1);
    }
  }

  /** The cells `sPlayer` reads, `cPlayer`, `cDir` and `cGameState`, after 0, 1, ..., |stim| transactions. */
  function PlayerCells(stim: seq<Stimulus>, init: GameObject, keyNorth: Key, keySouth: Key): (c: seq<(GameObject, int, GameState)>)
    ensures |c| == |stim| + 1
  {
    seq(|stim| + 1, k requires 0 <= k <= |stim| =>
      (PlayerAt(stim, init, keyNorth, keySouth, k), CellDirPlayer(KeyEvents(stim), keyNorth, keySouth, k), GameStateAt(stim, k)))
  }

  /**
   * `sPlayer = sTicks.Snapshot(cPlayer, cDir, cGameState, UpdatePlayer)`: on
   * every tick, the player moved by `UpdatePlayer` from the values the three
   * cells had before that transaction.
   */
  function PlayerStream(stim: seq<Stimulus>, init: GameObject, keyNorth: Key, keySouth: Key): (r: seq<Option<GameObject>>)
    ensures |r| == |stim|
    ensures forall i :: 0 <= i < |r| ==> (r[i].Some? <==> stim[i].Rendering?)
    ensures forall i :: 0 <= i < |r| && r[i].Some? ==>
      r[i].value == UpdatePlayer(TickAt(stim, i).value, PlayerAt(stim, init, keyNorth, keySouth, i),
                                 CellDirPlayer(KeyEvents(stim), keyNorth, keySouth, i), GameStateAt(stim, i))
  {
    Snapshot(Ticks(RenderEvents(stim)), PlayerCells(stim, init, keyNorth, keySouth),
      (dt: TimeSpan, c: (GameObject, int, GameState)) => UpdatePlayer(dt, c.0, c.1, c.2))
  }

  /** The loop `cPlayer.Loop(sPlayer.Hold(playerInitial))` is closed: `cPlayer` is what `sPlayer` fired last. */
  lemma PlayerLoopIsHold(stim: seq<Stimulus>, init: GameObject, keyNorth: Key, keySouth: Key, k: nat)
    requires k <= |stim|
    ensures PlayerAt(stim, init, keyNorth, keySouth, k) == HoldAt(init, PlayerStream(stim, init, keyNorth, keySouth), k)
  {
    forall j | 0 < j <= |stim|
      ensures HoldsStep(PlayerStream(stim, init, keyNorth, keySouth), PlayerValues(stim, init, keyNorth, keySouth), j)
    {
      PlayerStep(stim, init, keyNorth, keySouth, j);
    }
    StepsAreHold(init, PlayerStream(stim, init, keyNorth, keySouth), PlayerValues(stim, init, keyNorth, keySouth), k);
  }

  /** `cPlayer` after 0, 1, ..., |stim| transactions. */
  function PlayerValues(stim: seq<Stimulus>, init: GameObject, keyNorth: Key, keySouth: Key): (c: seq<GameObject>)
    ensures |c| == |stim| + 1
    ensures forall k :: 0 <= k <= |stim| ==> c[k] == PlayerAt(stim, init, keyNorth, keySouth, k)
  {
    seq(|stim| + 1, k requires 0 <= k <= |stim| => PlayerAt(stim, init, keyNorth, keySouth, k))
  }

  /** Transaction `j - 1` moves `cPlayer` as `Hold` moves on `sPlayer`. */
  lemma PlayerStep(stim: seq<Stimulus>, init: GameObject, keyNorth: Key, keySouth: Key, j: nat)
    requires 0 < j <= |stim|
    ensures HoldsStep(PlayerStream(stim, init, keyNorth, keySouth), PlayerValues(stim, init, keyNorth, keySouth), j)
  {
  }

  function P1At(stim: seq<Stimulus>, k: nat): GameObject
    requires k <= |stim|
  {
    PlayerAt(stim, P1Initial, W, S, k)
  }

  function P2At(stim: seq<Stimulus>, k: nat): GameObject
    requires k <= |stim|
  {
    PlayerAt(stim, P2Initial, Up, Down, k)
  }

  /** The ball `cBall` after `k` transactions: each tick applies `UpdateBall` to the old cell values. */
  function BallAt(stim: seq<Stimulus>, k: nat): GameObject
    requires k <= |stim|
    decreases k
  {
    if k == 0 then BallInitial
    else
      var previous := BallAt(stim, k - 1);
      var tick := TickAt(stim, k - 1);
      if tick.Some? then UpdateBall(tick.value, previous, P1At(stim, k - 1), P2At(stim, k - 1), GameStateAt(stim, k - 1))
      else previous
  }

  /** The cells `sBall` reads, `cBall`, `cP1`, `cP2` and `cGameState`, after 0, 1, ..., |stim| transactions. */
  function BallCells(stim: seq<Stimulus>): (c: seq<(GameObject, GameObject, GameObject, GameState)>)
    ensures |c| == |stim| + 1
  {
    seq(|stim| + 1, k requires 0 <= k <= |stim| => (BallAt(stim, k), P1At(stim, k), P2At(stim, k), GameStateAt(stim, k)))
  }

  /**
   * `sBall = sTicks.Snapshot(cBall, cP1, cP2, cGameState, UpdateBall)`: on
   * every tick, the ball moved by `UpdateBall` from the values the four cells
   * had before that transaction.
   */
  function BallStream(stim: seq<Stimulus>): (r: seq<Option<GameObject>>)
    ensures |r| == |stim|
    ensures forall i :: 0 <= i < |r| ==> (r[i].Some? <==> stim[i].Rendering?)
    ensures forall i :: 0 <= i < |r| && r[i].Some? ==>
      r[i].value == UpdateBall(TickAt(stim, i).value, BallAt(stim, i), P1At(stim, i), P2At(stim, i), GameStateAt(stim, i))
  {
    Snapshot(Ticks(RenderEvents(stim)), BallCells(stim),
      (dt: TimeSpan, c: (GameObject, GameObject, GameObject, GameState)) => UpdateBall(dt, c.0, c.1, c.2, c.3))
  }

  /** The loop `cBall.Loop(sBall.Hold(ballInitial))` is closed: `cBall` is what `sBall` fired last. */
  lemma BallLoopIsHold(stim: seq<Stimulus>, k: nat)
    requires k <= |stim|
    ensures BallAt(stim, k) == HoldAt(BallInitial, BallStream(stim), k)
  {
    forall j | 0 < j <= |stim|
      ensures HoldsStep(BallStream(stim), BallValues(stim), j)
    {
      BallStep(stim, j);
    }
    StepsAreHold(BallInitial, BallStream(stim), BallValues(stim), k);
  }

  /** `cBall` after 0, 1, ..., |stim| transactions. */
  function BallValues(stim: seq<Stimulus>): (c: seq<GameObject>)
    ensures |c| == |stim| + 1
    ensures forall k :: 0 <= k <= |stim| ==> c[k] == BallAt(stim, k)
  {
    seq(|stim| + 1, k requires 0 <= k <= |stim| => BallAt(stim, k))
  }

  /** Transaction `j - 1` moves `cBall` as `Hold` moves on `sBall`. */
  lemma BallStep(stim: seq<Stimulus>, j: nat)
    requires 0 < j <= |stim|
    ensures HoldsStep(BallStream(stim), BallValues(stim), j)
  {
    BallStreamAt(stim, j - 1);
  }

  /** Transaction `i` of `sBall`, and of `cBall` after it. */
  lemma BallStreamAt(stim: seq<Stimulus>, i: nat)
    requires i < |stim|
    ensures BallStream(stim)[i] == if TickAt(stim, i).Some? then Some(BallAt(stim, i + 1)) else None
    ensures TickAt(stim, i).None? ==> BallAt(stim, i + 1) == BallAt(stim, i)
  {
  }

  /** The ball never speeds up or slows down: each velocity component keeps magnitude 200. */
  lemma {:induction false} BallKeepsSpeed(stim: seq<Stimulus>, k: nat)
    requires k <= |stim|
    ensures Abs(BallAt(stim, k).vel.x) == 200.0 && Abs(BallAt(stim, k).vel.y) == 200.0
    decreases k
  {
    if k > 0 {
      BallKeepsSpeed(stim, k - 1);
    }
  }

  // ---------------------------------------------------------------- CellPoints

  function IsTrue(b: bool): bool {
    b
  }

  function ToUnit(b: bool): () {
    ()
  }

  function Increment(u: (), points: int): int {
    points + 1
  }

  /** `sScored = sBall.Collect(cBall.Sample(), ScoringCondition).Filter(scored => scored).Map(_ => Unit.Value)`. */
  function ScoredStream<T>(init: T, sBall: seq<Option<T>>, scoringCondition: (T, T) -> (bool, T)): (r: seq<Option<()>>)
    ensures |r| == |sBall|
    ensures forall i :: 0 <= i < |r| && r[i].Some? ==> sBall[i].Some?
  {
    Map(Filter(Collect(init, scoringCondition, sBall), IsTrue), ToUnit)
  }

  /** `CellPoints`: `sScored.Accum(0, (_, points) => ++points)` after `k` transactions. */
  function CellPoints<T>(init: T, sBall: seq<Option<T>>, scoringCondition: (T, T) -> (bool, T), k: nat): int
    requires k <= |sBall|
  {
    AccumAt(0, Increment, ScoredStream(init, sBall, scoringCondition), k)
  }

  /** The ball before the `i`-th of a list of balls (`init` before the first). */
  function Before<T>(init: T, balls: seq<T>, i: nat): T
    requires i < |balls|
  {
    if i == 0 then init else balls[i - 1]
  }

  /** Reference count: consecutive pairs of balls (starting from `init`) that meet the condition. */
  function Crossings<T>(init: T, scoringCondition: (T, T) -> (bool, T), balls: seq<T>): nat
    decreases |balls|
  {
    if balls == [] then 0
    else
      var n := |balls| - 1;
      Crossings(init, scoringCondition, balls[..n]) + (if scoringCondition(balls[n], Before(init, balls, n)).0 then 1 else 0)
  }

  /** Appending a ball adds one crossing exactly when it and the ball before it meet the condition. */
  lemma CrossingsSnoc<T>(init: T, scoringCondition: (T, T) -> (bool, T), prefix: seq<T>, ball: T)
    ensures Crossings(init, scoringCondition, prefix + [ball]) == Crossings(init, scoringCondition, prefix)
      + (if scoringCondition(ball, if prefix == [] then init else prefix[|prefix| - 1]).0 then 1 else 0)
  {
    assert (prefix + [ball])[..|prefix|] == prefix;
  }

  /** `sScored` fires exactly when a ball fires that meets the condition with the held ball before it. */
  lemma ScoredStreamAt<T>(init: T, sBall: seq<Option<T>>, scoringCondition: (T, T) -> (bool, T), i: nat)
    requires forall a, b :: scoringCondition(a, b).1 == a
    requires i < |sBall|
    ensures ScoredStream(init, sBall, scoringCondition)[i].Some? <==>
      sBall[i].Some? && scoringCondition(sBall[i].value, HoldAt(init, sBall, i)).0
  {
    CollectStateIsHold(init, scoringCondition, sBall, i);
    var collected := Collect(init, scoringCondition, sBall);
    assert sBall[i].Some? ==> collected[i] == Some(scoringCondition(sBall[i].value, HoldAt(init, sBall, i)).0);
  }

  /**
   * With a condition that carries the current ball forward, the points are the
   * number of goal-line crossings among the balls `sBall` fired, each pair
   * being a ball and the one fired before it (the initial ball for the first).
   */
  lemma {:induction false} CellPointsCountsCrossings<T>(init: T, sBall: seq<Option<T>>, scoringCondition: (T, T) -> (bool, T), k: nat)
    requires forall a, b :: scoringCondition(a, b).1 == a
    requires k <= |sBall|
    ensures CellPoints(init, sBall, scoringCondition, k) == Crossings(init, scoringCondition, FiredUpTo(sBall, k))
    decreases k
  {
    if k > 0 {
      CellPointsCountsCrossings(init, sBall, scoringCondition, k - 1);
      ScoredStreamAt(init, sBall, scoringCondition, k - 1);
      var prefix := FiredUpTo(sBall, k - 1);
      if sBall[k - 1].Some? {
        assert FiredUpTo(sBall, k) == prefix + [sBall[k - 1].value];
        HoldIsLastFired(init, sBall, k - 1);
        CrossingsSnoc(init, scoringCondition, prefix, sBall[k - 1].value);
      } else {
        assert FiredUpTo(sBall, k) == prefix;
      }
    }
  }

  /** Points never decrease, and grow by at most one per transaction. */
  lemma {:induction false} CellPointsMonotone<T>(init: T, sBall: seq<Option<T>>, scoringCondition: (T, T) -> (bool, T), j: nat, k: nat)
    requires j <= k <= |sBall|
    ensures CellPoints(init, sBall, scoringCondition, j) <= CellPoints(init, sBall, scoringCondition, k)
        <= CellPoints(init, sBall, scoringCondition, j) + (k - j)
    decreases k - j
  {
    if j < k {
      CellPointsMonotone(init, sBall, scoringCondition, j, k - 1);
    }
  }

  /** `cPoints1`: player 1's points after `k` transactions. */
  function Points1At(stim: seq<Stimulus>, k: nat): int
    requires k <= |stim|
  {
    CellPoints(BallInitial, BallStream(stim), P1Scored, k)
  }

  /** `cPoints2`: player 2's points after `k` transactions. */
  function Points2At(stim: seq<Stimulus>, k: nat): int
    requires k <= |stim|
  {
    CellPoints(BallInitial, BallStream(stim), P2Scored, k)
  }

  /** Each score equals the number of times the ball crossed that player's goal line. */
  lemma PointsCountGoals(stim: seq<Stimulus>, k: nat)
    requires k <= |stim|
    ensures Points1At(stim, k) == Crossings(BallInitial, P1Scored, FiredUpTo(BallStream(stim), k))
    ensures Points2At(stim, k) == Crossings(BallInitial, P2Scored, FiredUpTo(BallStream(stim), k))
  {
    CellPointsCountsCrossings(BallInitial, BallStream(stim), P1Scored, k);
    CellPointsCountsCrossings(BallInitial, BallStream(stim), P2Scored, k);
  }
}
