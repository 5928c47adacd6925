/** Runs of a step function over a list of events, and induction over them. */
module Runs {
  /** The state after all `events`, oldest first. */
  function Fold<S, E>(start: S, events: seq<E>, step: (S, E) -> S): S
    decreases |events|
  {
    if events == [] then start
    else step(Fold(start, events[..|events| - 1], step), events[|events| - 1])
  }

  /** Every event meets its side condition in the state it is taken in. */
  ghost predicate Admissible<S, E>(start: S, events: seq<E>, step: (S, E) -> S, ok: (S, E) -> bool)
    decreases |events|
  {
    events != [] ==>
      && Admissible(start, events[..|events| - 1], step, ok)
      && ok(Fold(start, events[..|events| - 1], step), events[|events| - 1])
  }

  /** What holds at the start and is kept by every step holds after every run. */
  lemma {:induction false} Invariant<S(!new), E(!new)>(start: S, events: seq<E>, step: (S, E) -> S, inv: S -> bool)
    requires inv(start)
    requires forall s, e :: inv(s) ==> inv(step(s, e))
    ensures inv(Fold(start, events, step))
    decreases |events|
  {
    if events != [] {
      Invariant(start, events[..|events| - 1], step, inv);
    }
  }

  /** The same for runs whose events meet a side condition. */
  lemma {:induction false} InvariantWhen<S(!new), E(!new)>(
      start: S, events: seq<E>, step: (S, E) -> S, ok: (S, E) -> bool, inv: S -> bool)
    requires inv(start) && Admissible(start, events, step, ok)
    requires forall s, e :: inv(s) && ok(s, e) ==> inv(step(s, e))
    ensures inv(Fold(start, events, step))
    decreases |events|
  {
    if events != [] {
      InvariantWhen(start, events[..|events| - 1], step, ok, inv);
    }
  }

  lemma {:induction false} FoldAppend<S, E>(start: S, first: seq<E>, second: seq<E>, step: (S, E) -> S)
    ensures Fold(start, first + second, step) == Fold(Fold(start, first, step), second, step)
    decreases |second|
  {
    if second == [] {
      assert first + second == first;
    } else {
      var all := first + second;
      assert all[..|all| - 1] == first + second[..|second| - 1];
      FoldAppend(start, first, second[..|second| - 1], step);
    }
  }

  lemma FoldTwo<S, E>(start: S, a: E, b: E, step: (S, E) -> S)
    ensures Fold(start, [a, b], step) == step(step(start, a), b)
  {
    assert [a, b][..1] == [a] && [a][..0] == [];
    assert Fold(start, [], step) == start;
    assert Fold(start, [a], step) == step(start, a);
  }

  /** A run whose states are listed one by one ends in the last of them. */
  lemma {:induction false} FoldTrace<S, E>(states: seq<S>, events: seq<E>, step: (S, E) -> S)
    requires |states| == |events| + 1
    requires forall i :: 0 <= i < |events| ==> states[i + 1] == step(states[i], events[i])
    ensures Fold(states[0], events, step) == states[|events|]
    decreases |events|
  {
    if events != [] {
      FoldTrace(states[..|events|], events[..|events| - 1], step);
    }
  }
}
