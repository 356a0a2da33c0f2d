/**
 * The `movableFaceKeyboard` live script: the face's position is an `Accum`
 * over the arrow-key stream, moving 3 units per unit of arrow direction.
 */
module MovableFace {
  import opened Frp

  /** Speed of the face per arrow event on each axis. */
  const Vx: int := 3
  const Vy: int := Vx

  /** A WPF `Point`. */
  datatype Point = Point(x: real, y: real)

  /** `NewPoint(input, pointOld)`: moves the point by three times the arrow direction. */
  function NewPoint(input: (int, int), pointOld: Point): (r: Point)
    ensures r.x - pointOld.x == (3 * input.0) as real
    ensures r.y - pointOld.y == (3 * input.1) as real
    ensures input == (0, 0) ==> r == pointOld
  {
    Point(pointOld.x + (input.0 * Vx) as real, pointOld.y + (input.1 * Vy) as real)
  }

  /** Two steps move the point as far as one step by the summed directions. */
  lemma NewPointAdditive(a: (int, int), b: (int, int), p: Point)
    ensures NewPoint(b, NewPoint(a, p)) == NewPoint((a.0 + b.0, a.1 + b.1), p)
  {
  }

  /** `k.ArrowsStream.Accum(new Point(0, 0), NewPoint)` after `k` transactions. */
  function FaceAt(arrows: seq<Option<(int, int)>>, k: nat): Point
    requires k <= |arrows|
  {
    AccumAt(Point(0.0, 0.0), NewPoint, arrows, k)
  }

  function Horizontal(input: (int, int)): int {
    input.0
  }

  function Vertical(input: (int, int)): int {
    input.1
  }

  /** One more transaction adds the value it fired, if any, to the sum of the fired values. */
  lemma SumFiredStep(s: seq<Option<int>>, k: nat)
    requires 0 < k <= |s|
    ensures Sum(FiredUpTo(s, k)) == Sum(FiredUpTo(s, k - 1)) + (if s[k - 1].Some? then s[k - 1].value else 0)
  {
    var prefix := FiredUpTo(s, k - 1);
    if s[k - 1].Some? {
      assert FiredUpTo(s, k) == prefix + [s[k - 1].value];
      assert (prefix + [s[k - 1].value])[..|prefix|] == prefix;
    } else {
      assert FiredUpTo(s, k) == prefix;
    }
  }

  /** The face sits at three times the summed arrow directions fired so far. */
  lemma {:induction false} FaceIsScaledSum(arrows: seq<Option<(int, int)>>, k: nat)
    requires k <= |arrows|
    ensures FaceAt(arrows, k) ==
      Point((3 * Sum(FiredUpTo(Map(arrows, Horizontal), k))) as real, (3 * Sum(FiredUpTo(Map(arrows, Vertical), k))) as real)
    decreases k
  {
    if k > 0 {
      FaceIsScaledSum(arrows, k - 1);
      var h := Map(arrows, Horizontal);
      var v := Map(arrows, Vertical);
      SumFiredStep(h, k);
      SumFiredStep(v, k);
    }
  }
}
