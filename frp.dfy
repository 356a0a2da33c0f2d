/**
 * Sequence semantics of the Sodium combinators the pong game is wired from.
 *
 * A run is a sequence of transactions. A stream observed over a run is a
 * `seq<Option<T>>` with one slot per transaction: `Some(v)` when the stream
 * fired `v` in that transaction, `None` when it did not (a Sodium stream fires
 * at most once per transaction). A cell is described by its value after the
 * first `k` transactions of the run (`HoldAt`, `AccumAt`, ...); a snapshot taken
 * in transaction `i` sees the value after `i` transactions, i.e. the value from
 * before transaction `i` updated it.
 */
module Frp {

  datatype Option<T> = None | Some(value: T)

  /** The values fired in the first `k` transactions, in order. */
  function FiredUpTo<T>(s: seq<Option<T>>, k: nat): (r: seq<T>)
    requires k <= |s|
    ensures |r| <= k
    decreases k
  {
    if k == 0 then []
    else FiredUpTo(s, k - 1) + (if s[k - 1].Some? then [s[k - 1].value] else [])
  }

  /** Number of the first `k` transactions in which the stream fired. */
  function CountFired<T>(s: seq<Option<T>>, k: nat): (n: nat)
    requires k <= |s|
    decreases k
  {
    if k == 0 then 0 else CountFired(s, k - 1) + (if s[k - 1].Some? then 1 else 0)
  }

  /** `Stream.Map`: fires `f(v)` whenever the source fires `v`. */
  function Map<A, B>(s: seq<Option<A>>, f: A -> B): (r: seq<Option<B>>)
    ensures |r| == |s|
    ensures forall i :: 0 <= i < |s| ==> (r[i].Some? <==> s[i].Some?)
    ensures forall i :: 0 <= i < |s| && s[i].Some? ==> r[i].value == f(s[i].value)
  {
    seq(|s|, i requires 0 <= i < |s| => if s[i].Some? then Some(f(s[i].value)) else None)
  }

  /** `Stream.Filter`: fires the source's value when `p` holds of it. */
  function Filter<T>(s: seq<Option<T>>, p: T -> bool): (r: seq<Option<T>>)
    ensures |r| == |s|
    ensures forall i :: 0 <= i < |s| ==> (r[i].Some? <==> s[i].Some? && p(s[i].value))
    ensures forall i :: 0 <= i < |s| && r[i].Some? ==> r[i] == s[i]
  {
    seq(|s|, i requires 0 <= i < |s| => if s[i].Some? && p(s[i].value) then s[i] else None)
  }

  /**
   * `Stream.OrElse`: fires whenever either stream fires; when both fire in
   * the same transaction the left value is taken and the right one dropped.
   */
  function OrElse<T>(left: seq<Option<T>>, right: seq<Option<T>>): (r: seq<Option<T>>)
    requires |left| == |right|
    ensures |r| == |left|
    ensures forall i :: 0 <= i < |r| ==> (r[i].Some? <==> left[i].Some? || right[i].Some?)
    ensures forall i :: 0 <= i < |r| && left[i].Some? ==> r[i] == left[i]
    ensures forall i :: 0 <= i < |r| && left[i].None? ==> r[i] == right[i]
  {
    seq(|left|, i requires 0 <= i < |left| => if left[i].Some? then left[i] else right[i])
  }

  /** Number of the first `k` transactions in which both streams fired. */
  function CountSimultaneous<T>(left: seq<Option<T>>, right: seq<Option<T>>, k: nat): nat
    requires |left| == |right| && k <= |left|
    decreases k
  {
    if k == 0 then 0
    else CountSimultaneous(left, right, k - 1) + (if left[k - 1].Some? && right[k - 1].Some? then 1 else 0)
  }

  /**
   * `OrElse` loses exactly the right-hand events that arrive together with a
   * left-hand one, and nothing else.
   */
  lemma {:induction false} OrElseDropsOnlySimultaneous<T>(left: seq<Option<T>>, right: seq<Option<T>>, k: nat)
    requires |left| == |right| && k <= |left|
    ensures CountFired(OrElse(left, right), k) + CountSimultaneous(left, right, k)
         == CountFired(left, k) + CountFired(right, k)
    decreases k
  {
    if k > 0 {
      OrElseDropsOnlySimultaneous(left, right, k - 1);
    }
  }

  /** `Stream.Hold(init)`: the cell's value after `k` transactions. */
  function HoldAt<T>(init: T, s: seq<Option<T>>, k: nat): T
    requires k <= |s|
    decreases k
  {
    if k == 0 then init
    else if s[k - 1].Some? then s[k - 1].value
    else HoldAt(init, s, k - 1)
  }

  /** Transaction `j` takes `loop` from `loop[j - 1]` to `loop[j]` the way `Hold` moves on `s`. */
  ghost predicate HoldsStep<T>(s: seq<Option<T>>, loop: seq<T>, j: nat)
    requires 0 < j <= |s| && |loop| == |s| + 1
  {
    loop[j] == if s[j - 1].Some? then s[j - 1].value else loop[j - 1]
  }

  /** A sequence of values that starts at `init` and moves as `Hold` does shows what `Hold(init)` shows. */
  lemma {:induction false} StepsAreHold<T>(init: T, s: seq<Option<T>>, loop: seq<T>, k: nat)
    requires |loop| == |s| + 1 && loop[0] == init
    requires forall j :: 0 < j <= |s| ==> HoldsStep(s, loop, j)
    requires k <= |s|
    ensures loop[k] == HoldAt(init, s, k)
    decreases k
  {
    if k > 0 {
      StepsAreHold(init, s, loop, k - 1);
      assert HoldsStep(s, loop, k);
    }
  }

  /** A held cell shows the most recently fired value, or the initial one if nothing fired yet. */
  lemma {:induction false} HoldIsLastFired<T>(init: T, s: seq<Option<T>>, k: nat)
    requires k <= |s|
    ensures var fired := FiredUpTo(s, k);
      HoldAt(init, s, k) == if fired == [] then init else fired[|fired| - 1]
    decreases k
  {
    if k > 0 && s[k - 1].None? {
      HoldIsLastFired(init, s, k - 1);
    }
  }

  /** `Stream.Accum(init, f)`: the accumulated state after `k` transactions. */
  function AccumAt<T, S>(init: S, f: (T, S) -> S, s: seq<Option<T>>, k: nat): S
    requires k <= |s|
    decreases k
  {
    if k == 0 then init
    else if s[k - 1].Some? then f(s[k - 1].value, AccumAt(init, f, s, k - 1))
    else AccumAt(init, f, s, k - 1)
  }

  /** Left fold of `f` over a list of events, front to back. */
  function FoldLeft<T, S>(init: S, f: (T, S) -> S, xs: seq<T>): S
    decreases |xs|
  {
    if xs == [] then init else FoldLeft(f(xs[0], init), f, xs[1..])
  }

  lemma {:induction false} FoldLeftSnoc<T, S>(init: S, f: (T, S) -> S, xs: seq<T>, x: T)
    ensures FoldLeft(init, f, xs + [x]) == f(x, FoldLeft(init, f, xs))
    decreases |xs|
  {
    if xs != [] {
      assert (xs + [x])[1..] == xs[1..] + [x];
      FoldLeftSnoc(f(xs[0], init), f, xs[1..], x);
    }
  }

  /** `Accum` is the left fold of `f` over the values the stream fired. */
  lemma {:induction false} AccumIsFold<T, S>(init: S, f: (T, S) -> S, s: seq<Option<T>>, k: nat)
    requires k <= |s|
    ensures AccumAt(init, f, s, k) == FoldLeft(init, f, FiredUpTo(s, k))
    decreases k
  {
    if k > 0 {
      AccumIsFold(init, f, s, k - 1);
      if s[k - 1].Some? {
        assert FiredUpTo(s, k) == FiredUpTo(s, k - 1) + [s[k - 1].value];
        FoldLeftSnoc(init, f, FiredUpTo(s, k - 1), s[k - 1].value);
      } else {
        assert FiredUpTo(s, k) == FiredUpTo(s, k - 1);
      }
    }
  }

  /**
   * `Stream.Snapshot(cell, f)`: fires `f(v, c)` when the source fires `v`,
   * where `c` is the cell's value from before the transaction (`cell[i]` is
   * the value after `i` transactions).
   */
  function Snapshot<T, C, R>(s: seq<Option<T>>, cell: seq<C>, f: (T, C) -> R): (r: seq<Option<R>>)
    requires |cell| > |s|
    ensures |r| == |s|
    ensures forall i :: 0 <= i < |s| ==> (r[i].Some? <==> s[i].Some?)
    ensures forall i :: 0 <= i < |s| && s[i].Some? ==> r[i].value == f(s[i].value, cell[i])
  {
    seq(|s|, i requires 0 <= i < |s| => if s[i].Some? then Some(f(s[i].value, cell[i])) else None)
  }

  /** The values of the `Accum` cell after 0, 1, ..., |s| transactions. */
  function AccumCell<T, S>(init: S, f: (T, S) -> S, s: seq<Option<T>>): (c: seq<S>)
    ensures |c| == |s| + 1
  {
    seq(|s| + 1, k requires 0 <= k <= |s| => AccumAt(init, f, s, k))
  }

  /**
   * Sodium builds `Accum` from a `CellLoop`: the cell holds a stream that
   * snapshots the cell itself and applies `f`. The accumulated cell is the
   * fixpoint of that loop.
   */
  lemma {:induction false} AccumIsHoldOfLoop<T, S>(init: S, f: (T, S) -> S, s: seq<Option<T>>, k: nat)
    requires k <= |s|
    ensures HoldAt(init, Snapshot(s, AccumCell(init, f, s), f), k) == AccumAt(init, f, s, k)
    decreases k
  {
    if k > 0 {
      AccumIsHoldOfLoop(init, f, s, k - 1);
    }
  }

  /**
   * The loop has no other solution: a cell that, after every number of
   * transactions, holds what the snapshot of itself fired is the `Accum` cell.
   */
  lemma {:induction false} LoopFixpointIsAccum<T, S>(init: S, f: (T, S) -> S, s: seq<Option<T>>, c: seq<S>, k: nat)
    requires |c| == |s| + 1
    requires forall j {:trigger HoldAt(init, Snapshot(s, c, f), j)} :: 0 <= j <= |s| ==> c[j] == HoldAt(init, Snapshot(s, c, f), j)
    requires k <= |s|
    ensures c[k] == AccumAt(init, f, s, k)
    decreases k
  {
    var snap := Snapshot(s, c, f);
    assert c[k] == HoldAt(init, snap, k);
    if k > 0 {
      assert c[k - 1] == HoldAt(init, snap, k - 1);
      LoopFixpointIsAccum(init, f, s, c, k - 1);
      LoopStep(init, f, s, c, k);
    }
  }

  /** One transaction of the loop: the step that `LoopFixpointIsAccum` repeats. */
  lemma LoopStep<T, S>(init: S, f: (T, S) -> S, s: seq<Option<T>>, c: seq<S>, k: nat)
    requires |c| == |s| + 1
    requires 0 < k <= |s|
    requires c[k] == HoldAt(init, Snapshot(s, c, f), k)
    requires c[k - 1] == HoldAt(init, Snapshot(s, c, f), k - 1)
    requires c[k - 1] == AccumAt(init, f, s, k - 1)
    ensures c[k] == AccumAt(init, f, s, k)
  {
    var snap := Snapshot(s, c, f);
    if s[k - 1].Some? {
      assert snap[k - 1] == Some(f(s[k - 1].value, c[k - 1]));
    } else {
      assert snap[k - 1].None?;
    }
  }

  /** Hence the `Accum` cell is the one and only fixpoint of the loop. */
  lemma LoopFixpointUnique<T, S>(init: S, f: (T, S) -> S, s: seq<Option<T>>, c: seq<S>)
    requires |c| == |s| + 1
    requires forall j {:trigger HoldAt(init, Snapshot(s, c, f), j)} :: 0 <= j <= |s| ==> c[j] == HoldAt(init, Snapshot(s, c, f), j)
    ensures c == AccumCell(init, f, s)
  {
    forall k | 0 <= k <= |s|
      ensures c[k] == AccumCell(init, f, s)[k]
    {
      LoopFixpointIsAccum(init, f, s, c, k);
    }
  }

  /** The hidden state of `Stream.Collect(init, f)` after `k` transactions. */
  function CollectStateAt<T, S, B>(init: S, f: (T, S) -> (B, S), s: seq<Option<T>>, k: nat): S
    requires k <= |s|
    decreases k
  {
    if k == 0 then init
    else if s[k - 1].Some? then f(s[k - 1].value, CollectStateAt(init, f, s, k - 1)).1
    else CollectStateAt(init, f, s, k - 1)
  }

  /**
   * `Stream.Collect(init, f)`: a Mealy machine. On each firing `v` it emits the
   * first component of `f(v, state)` and keeps the second as the new state.
   */
  function Collect<T, S, B>(init: S, f: (T, S) -> (B, S), s: seq<Option<T>>): (r: seq<Option<B>>)
    ensures |r| == |s|
    ensures forall i :: 0 <= i < |s| ==> (r[i].Some? <==> s[i].Some?)
  {
    seq(|s|, i requires 0 <= i < |s| =>
      if s[i].Some? then Some(f(s[i].value, CollectStateAt(init, f, s, i)).0) else None)
  }

  /** The outputs of a Mealy machine run front to back over a list of inputs. */
  function MealyOutputs<T, S, B>(state: S, f: (T, S) -> (B, S), xs: seq<T>): (r: seq<B>)
    ensures |r| == |xs|
    decreases |xs|
  {
    if xs == [] then [] else [f(xs[0], state).0] + MealyOutputs(f(xs[0], state).1, f, xs[1..])
  }

  /** The state of that Mealy machine after all of `xs`. */
  function MealyState<T, S, B>(state: S, f: (T, S) -> (B, S), xs: seq<T>): S
    decreases |xs|
  {
    if xs == [] then state else MealyState(f(xs[0], state).1, f, xs[1..])
  }

  lemma {:induction false} MealySnoc<T, S, B>(state: S, f: (T, S) -> (B, S), xs: seq<T>, x: T)
    ensures MealyState(state, f, xs + [x]) == f(x, MealyState(state, f, xs)).1
    ensures MealyOutputs(state, f, xs + [x]) == MealyOutputs(state, f, xs) + [f(x, MealyState(state, f, xs)).0]
    decreases |xs|
  {
    if xs != [] {
      assert (xs + [x])[1..] == xs[1..] + [x];
      MealySnoc(f(xs[0], state).1, f, xs[1..], x);
    }
  }

  /** `Collect` runs the Mealy machine over exactly the values its source fired. */
  lemma {:induction false} CollectIsMealy<T, S, B>(init: S, f: (T, S) -> (B, S), s: seq<Option<T>>, k: nat)
    requires k <= |s|
    ensures CollectStateAt(init, f, s, k) == MealyState(init, f, FiredUpTo(s, k))
    ensures FiredUpTo(Collect(init, f, s), k) == MealyOutputs(init, f, FiredUpTo(s, k))
    decreases k
  {
    if k > 0 {
      CollectIsMealy(init, f, s, k - 1);
      var out := Collect(init, f, s);
      if s[k - 1].Some? {
        assert FiredUpTo(s, k) == FiredUpTo(s, k - 1) + [s[k - 1].value];
        assert FiredUpTo(out, k) == FiredUpTo(out, k - 1) + [out[k - 1].value];
        MealySnoc(init, f, FiredUpTo(s, k - 1), s[k - 1].value);
      } else {
        assert FiredUpTo(s, k) == FiredUpTo(s, k - 1);
        assert FiredUpTo(out, k) == FiredUpTo(out, k - 1);
      }
    }
  }

  /**
   * When `f` always keeps the input it was given as its new state, the state
   * of `Collect` is the last value fired, i.e. what `Hold` would show.
   */
  lemma {:induction false} CollectStateIsHold<T, B>(init: T, f: (T, T) -> (B, T), s: seq<Option<T>>, k: nat)
    requires forall a, b :: f(a, b).1 == a
    requires k <= |s|
    ensures CollectStateAt(init, f, s, k) == HoldAt(init, s, k)
    decreases k
  {
    if k > 0 {
      CollectStateIsHold(init, f, s, k - 1);
    }
  }

  /** Sum of a list of integers. */
  function Sum(xs: seq<int>): int
    decreases |xs|
  {
    if xs == [] then 0 else Sum(xs[..|xs| - 1]) + xs[|xs| - 1]
  }
}
