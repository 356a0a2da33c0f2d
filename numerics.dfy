/**
 * The C# and .NET primitives the game rules lean on, stated over Dafny's exact
 * numbers: the `(int)` cast of a double, `Math.Abs`, and `TimeSpan`.
 */
module Numerics {

  /** A .NET `TimeSpan` is a count of 100-nanosecond ticks. */
  type TimeSpan = int

  const TicksPerSecond: int := 10_000_000

  /** `TimeSpan.TotalSeconds`: the span in (fractional) seconds. */
  function TotalSeconds(t: TimeSpan): (r: real)
    ensures r * TicksPerSecond as real == t as real
    ensures t >= 0 <==> r >= 0.0
  {
    t as real / TicksPerSecond as real
  }

  /** `Math.Abs` on a double. */
  function Abs(x: real): (r: real)
    ensures r >= 0.0
    ensures r == x || r == -x
  {
    if x < 0.0 then -x else x
  }

  /**
   * The C# cast `(int)x` of a double: truncation toward zero, so the result
   * never lies farther from zero than `x` and is less than one away from it.
   */
  function Trunc(x: real): (r: int)
    ensures x >= 0.0 ==> r as real <= x < r as real + 1.0
    ensures x < 0.0 ==> r as real - 1.0 < x <= r as real
  {
    if x >= 0.0 then x.Floor else -((-x).Floor)
  }

  /** Truncation toward zero never reverses the order of two values. */
  lemma TruncMonotone(a: real, b: real)
    requires a <= b
    ensures Trunc(a) <= Trunc(b)
  {
  }

  /** Truncation leaves whole numbers alone. */
  lemma TruncOfInt(n: int)
    ensures Trunc(n as real) == n
  {
  }
}
