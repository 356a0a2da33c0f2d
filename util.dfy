/**
 * The generic `Clamp` extension method of the pong sample, over any type whose
 * `CompareTo` is a three-way comparison.
 */
module Util {

  /**
   * What `IComparable<T>.CompareTo` promises: a sign that is reflexive (zero on
   * equal arguments), antisymmetric and transitive.
   */
  ghost predicate IsComparison<T(!new)>(compareTo: (T, T) -> int) {
    && (forall a :: compareTo(a, a) == 0)
    && (forall a, b :: compareTo(a, b) < 0 <==> compareTo(b, a) > 0)
    && (forall a, b, c :: compareTo(a, b) <= 0 && compareTo(b, c) <= 0 ==> compareTo(a, c) <= 0)
  }

  /** `Clamp(val, min, max)`: the lower bound is checked first, then the upper one. */
  function Clamp<T>(val: T, min: T, max: T, compareTo: (T, T) -> int): (r: T)
    ensures r == val || r == min || r == max
    ensures compareTo(val, min) < 0 ==> r == min
  {
    if compareTo(val, min) < 0 then min
    else if compareTo(val, max) > 0 then max
    else val
  }

  /** With an ordered range, the result always lies inside `[min, max]`. */
  lemma ClampInRange<T(!new)>(val: T, min: T, max: T, compareTo: (T, T) -> int)
    requires IsComparison(compareTo)
    requires compareTo(min, max) <= 0
    ensures compareTo(min, Clamp(val, min, max, compareTo)) <= 0
    ensures compareTo(Clamp(val, min, max, compareTo), max) <= 0
  {
    assert compareTo(min, min) == 0 && compareTo(max, max) == 0;
    if compareTo(val, min) >= 0 {
      assert !(compareTo(min, val) > 0);
    }
  }

  /** A value below the range gives `min`; one above it (and not below `min`) gives `max`. */
  lemma ClampOutside<T(!new)>(val: T, min: T, max: T, compareTo: (T, T) -> int)
    ensures compareTo(val, min) < 0 ==> Clamp(val, min, max, compareTo) == min
    ensures compareTo(val, min) >= 0 && compareTo(val, max) > 0 ==> Clamp(val, min, max, compareTo) == max
  {
  }

  /** A value already inside `[min, max]` comes back unchanged. */
  lemma ClampKeepsInside<T(!new)>(val: T, min: T, max: T, compareTo: (T, T) -> int)
    requires IsComparison(compareTo)
    requires compareTo(min, val) <= 0 && compareTo(val, max) <= 0
    ensures Clamp(val, min, max, compareTo) == val
  {
    assert !(compareTo(val, min) < 0) by {
      assert compareTo(val, min) < 0 <==> compareTo(min, val) > 0;
    }
  }

  /** Clamping twice is clamping once. */
  lemma ClampIdempotent<T(!new)>(val: T, min: T, max: T, compareTo: (T, T) -> int)
    requires IsComparison(compareTo)
    requires compareTo(min, max) <= 0
    ensures Clamp(Clamp(val, min, max, compareTo), min, max, compareTo) == Clamp(val, min, max, compareTo)
  {
    ClampInRange(val, min, max, compareTo);
    ClampKeepsInside(Clamp(val, min, max, compareTo), min, max, compareTo);
  }

  /**
   * Because the lower bound is checked first, an inverted range (`min > max`)
   * yields one of the two bounds, never `val`.
   */
  lemma ClampInvertedRange<T(!new)>(val: T, min: T, max: T, compareTo: (T, T) -> int)
    requires IsComparison(compareTo)
    requires compareTo(min, max) > 0
    ensures Clamp(val, min, max, compareTo) == min || Clamp(val, min, max, compareTo) == max
  {
    assert compareTo(val, min) < 0 <==> compareTo(min, val) > 0;
    assert compareTo(min, val) <= 0 && compareTo(val, max) <= 0 ==> compareTo(min, max) <= 0;
    assert compareTo(val, min) < 0 || compareTo(val, max) > 0;
  }

  /** `double.CompareTo` on the reals: -1, 0 or 1. */
  function CompareReal(a: real, b: real): (r: int)
    ensures r < 0 <==> a < b
    ensures r > 0 <==> a > b
  {
    if a < b then -1 else if a > b then 1 else 0
  }

  lemma CompareRealIsComparison()
    ensures IsComparison(CompareReal)
  {
  }

  /** `Clamp` instantiated at `double`, as `pos.Y.Clamp(min, max)` uses it. */
  function ClampReal(val: real, min: real, max: real): (r: real)
    ensures min <= max ==> min <= r <= max
    ensures min <= val <= max ==> r == val
    ensures val < min ==> r == min
    ensures min <= val && val > max ==> r == max
  {
    CompareRealIsComparison();
    if min <= max then ClampInRange(val, min, max, CompareReal); Clamp(val, min, max, CompareReal)
    else Clamp(val, min, max, CompareReal)
  }
}
