/**
  Runs of a state machine: a sequence of states joined by actions.  Every protocol of the
  platform is a set of interleaved steps, so every whole-run claim is about such a sequence.
  */
module Runs {

  /** `states` starts in an initial state and takes one step per action. */
  ghost predicate IsRun<S(!new), A(!new)>(init: S -> bool, next: (S, A, S) -> bool, states: seq<S>, actions: seq<A>)
  {
    && |states| == |actions| + 1
    && init(states[0])
    && forall i :: 0 <= i < |actions| ==> next(states[i], actions[i], states[i + 1])
  }

  /** A predicate that holds initially and that every step keeps holds in every state of every run. */
  lemma {:induction false} Invariance<S(!new), A(!new)>(
    init: S -> bool, next: (S, A, S) -> bool, inv: S -> bool, states: seq<S>, actions: seq<A>)
    requires IsRun(init, next, states, actions)
    requires forall s :: init(s) ==> inv(s)
    requires forall s, a, s' :: inv(s) && next(s, a, s') ==> inv(s')
    ensures forall i :: 0 <= i < |states| ==> inv(states[i])
  {
    var n := 0;
    while n < |actions|
      invariant 0 <= n <= |actions|
      invariant forall i :: 0 <= i <= n ==> inv(states[i])
    {
      assert next(states[n], actions[n], states[n + 1]);
      n := n + 1;
    }
  }

  /** A transitive and reflexive relation that every step respects relates any two states of a run in order. */
  lemma {:induction false} Monotonicity<S(!new), A(!new)>(
    init: S -> bool, next: (S, A, S) -> bool, rel: (S, S) -> bool, states: seq<S>, actions: seq<A>, i: nat, j: nat)
    requires IsRun(init, next, states, actions)
    requires i <= j < |states|
    requires forall s :: rel(s, s)
    requires forall s, t, u :: rel(s, t) && rel(t, u) ==> rel(s, u)
    requires forall k :: 0 <= k < |actions| ==> rel(states[k], states[k + 1])
    ensures rel(states[i], states[j])
    decreases j - i
  {
    if i < j {
      Monotonicity(init, next, rel, states, actions, i, j - 1);
      assert rel(states[j - 1], states[j - 1 + 1]);
    }
  }

  /** Some run ends in `s`. */
  ghost predicate Reached<S(!new), A(!new)>(init: S -> bool, next: (S, A, S) -> bool, s: S) {
    exists states, actions :: IsRun(init, next, states, actions) && states[|actions|] == s
  }

  /** An initial state is reached, and so is whatever a reached state steps to. */
  lemma ReachedInitially<S(!new), A(!new)>(init: S -> bool, next: (S, A, S) -> bool, s: S)
    requires init(s)
    ensures Reached(init, next, s)
  {
    var states, actions: seq<A> := [s], [];
    assert IsRun(init, next, states, actions) && states[|actions|] == s;
  }

  lemma ReachedNext<S(!new), A(!new)>(init: S -> bool, next: (S, A, S) -> bool, s: S, a: A, s': S)
    requires Reached(init, next, s) && next(s, a, s')
    ensures Reached(init, next, s')
  {
    var states, actions :| IsRun(init, next, states, actions) && states[|actions|] == s;
    var states', actions' := states + [s'], actions + [a];
    assert IsRun(init, next, states', actions') && states'[|actions'|] == s';
  }
}
