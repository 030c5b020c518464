/** Runs of a step function, for any kind of state and step. */
module Runs {
  import opened Wrappers

  /** `steps` leads from `a` to `b`, every step being possible where it is taken. */
  ghost predicate Path<S(!new), T(!new)>(next: (S, T) -> Option<S>, a: S, steps: seq<T>, b: S)
    decreases |steps|
  {
    if |steps| == 0 then a == b
    else next(a, steps[0]).Some? && Path(next, next(a, steps[0]).value, steps[1..], b)
  }

  lemma {:induction false} PathAppend<S(!new), T(!new)>(
      next: (S, T) -> Option<S>, a: S, xs: seq<T>, b: S, ys: seq<T>, c: S)
    requires Path(next, a, xs, b) && Path(next, b, ys, c)
    ensures Path(next, a, xs + ys, c)
    decreases |xs|
  {
    if |xs| == 0 {
      assert xs + ys == ys;
    } else {
      PathAppend(next, next(a, xs[0]).value, xs[1..], b, ys, c);
      assert (xs + ys)[1..] == xs[1..] + ys;
    }
  }

  /** A run is also a run of a step function that allows more. */
  lemma {:induction false} PathWiden<S(!new), T(!new)>(
      next: (S, T) -> Option<S>, wider: (S, T) -> Option<S>, a: S, steps: seq<T>, b: S)
    requires Path(next, a, steps, b)
    requires forall s, t :: next(s, t).Some? ==> wider(s, t) == next(s, t)
    ensures Path(wider, a, steps, b)
    decreases |steps|
  {
    if |steps| == 0 {
    } else {
      PathWiden(next, wider, next(a, steps[0]).value, steps[1..], b);
    }
  }

  /** Where the steps lead; a step that is not possible leads nowhere. */
  ghost function Target<S(!new), T(!new)>(next: (S, T) -> Option<S>, a: S, steps: seq<T>): S
    decreases |steps|
  {
    if |steps| == 0 then a
    else if next(a, steps[0]).None? then a
    else Target(next, next(a, steps[0]).value, steps[1..])
  }

  lemma {:induction false} PathTarget<S(!new), T(!new)>(next: (S, T) -> Option<S>, a: S, steps: seq<T>, b: S)
    requires Path(next, a, steps, b)
    ensures b == Target(next, a, steps)
    decreases |steps|
  {
    if |steps| == 0 {
    } else {
      PathTarget(next, next(a, steps[0]).value, steps[1..], b);
    }
  }

  /** How many steps of a run are good where they are taken. */
  ghost function Count<S(!new), T(!new)>(next: (S, T) -> Option<S>, good: (S, T) -> bool, a: S, steps: seq<T>): nat
    decreases |steps|
  {
    if |steps| == 0 || next(a, steps[0]).None? then 0
    else (if good(a, steps[0]) then 1 else 0) + Count(next, good, next(a, steps[0]).value, steps[1..])
  }

  /** A measure that no step raises and that good steps lower bounds the good steps of a run. */
  lemma {:induction false} PathMeasure<S(!new), T(!new)>(
      next: (S, T) -> Option<S>, good: (S, T) -> bool, inv: S -> bool, measure: S -> nat, a: S, steps: seq<T>, b: S)
    requires Path(next, a, steps, b) && inv(a)
    requires forall s, t :: inv(s) && next(s, t).Some? ==>
               inv(next(s, t).value) && measure(next(s, t).value) + (if good(s, t) then 1 else 0) <= measure(s)
    ensures inv(b) && Count(next, good, a, steps) + measure(b) <= measure(a)
    decreases |steps|
  {
    if |steps| == 0 {
    } else {
      PathMeasure(next, good, inv, measure, next(a, steps[0]).value, steps[1..], b);
    }
  }
}
