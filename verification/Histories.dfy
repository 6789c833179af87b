/** Runs of a system that moves from state to state: what holds at one point and is kept by every move
    holds from there on. */
module Histories {

  /** The states a run goes through and the steps between them. */
  ghost predicate Unfolds<S(!new), T(!new)>(states: seq<S>, steps: seq<T>, start: S, move: (S, T, S) -> bool) {
    && |states| == |steps| + 1 && states[0] == start
    && forall i {:trigger steps[i]} :: 0 <= i < |steps| ==> move(states[i], steps[i], states[i + 1])
  }

  ghost predicate Kept<S(!new), T(!new)>(holds: S -> bool, move: (S, T, S) -> bool) {
    forall a, t, b :: holds(a) && move(a, t, b) ==> holds(b)
  }

  lemma {:induction false} HoldsFrom<S(!new), T(!new)>(states: seq<S>, steps: seq<T>, start: S, move: (S, T, S) -> bool,
                                                       holds: S -> bool, i: nat, j: nat)
    requires Unfolds(states, steps, start, move) && Kept(holds, move)
    requires i <= j < |states| && holds(states[i])
    ensures holds(states[j])
  {
    if i < j {
      HoldsFrom(states, steps, start, move, holds, i, j - 1);
      assert move(states[j - 1], steps[j - 1], states[j - 1 + 1]);
    }
  }

  lemma TwoMoves<S(!new), T(!new)>(a: S, s: T, b: S, t: T, c: S, move: (S, T, S) -> bool)
    requires move(a, s, b) && move(b, t, c)
    ensures Unfolds([a, b, c], [s, t], a, move)
  {
  }
}
