/** Runs of a transition system, for the protocols whose steps interleave. */
module Behaviours {
  /** A finite run: from an initial state, one step at a time. */
  ghost predicate Behaviour<S(!new)>(init: S -> bool, next: (S, S) -> bool, states: seq<S>) {
    |states| > 0 && init(states[0]) && forall i, j | 0 <= i < j < |states| && j == i + 1 :: next(states[i], states[j])
  }

  /** s is the state some run ends in. */
  ghost predicate Reachable<S(!new)>(init: S -> bool, next: (S, S) -> bool, s: S) {
    exists states :: Behaviour(init, next, states) && states[|states| - 1] == s
  }

  lemma {:induction false} InvariantAlong<S(!new)>(init: S -> bool, next: (S, S) -> bool, inv: S -> bool, states: seq<S>, i: nat)
    requires Behaviour(init, next, states) && i < |states|
    requires forall s :: init(s) ==> inv(s)
    requires forall s, t :: inv(s) && next(s, t) ==> inv(t)
    ensures inv(states[i])
  {
    if i > 0 {
      InvariantAlong(init, next, inv, states, i - 1);
      assert next(states[i - 1], states[i]);
    }
  }

  /** An inductive invariant holds in every reachable state. */
  lemma Invariant<S(!new)>(init: S -> bool, next: (S, S) -> bool, inv: S -> bool, s: S)
    requires Reachable(init, next, s)
    requires forall s :: init(s) ==> inv(s)
    requires forall s, t :: inv(s) && next(s, t) ==> inv(t)
    ensures inv(s)
  {
    var states :| Behaviour(init, next, states) && states[|states| - 1] == s;
    InvariantAlong(init, next, inv, states, |states| - 1);
  }

  lemma ReachableAtOnce<S(!new)>(init: S -> bool, next: (S, S) -> bool, s: S)
    requires init(s)
    ensures Reachable(init, next, s)
  {
    assert Behaviour(init, next, [s]);
  }

  lemma ReachableNext<S(!new)>(init: S -> bool, next: (S, S) -> bool, s: S, t: S)
    requires Reachable(init, next, s) && next(s, t)
    ensures Reachable(init, next, t)
  {
    var states :| Behaviour(init, next, states) && states[|states| - 1] == s;
    var more := states + [t];
    forall i, j | 0 <= i < j < |more| && j == i + 1 ensures next(more[i], more[j]) {
      if j < |states| { assert next(states[i], states[j]); }
    }
    assert Behaviour(init, next, more);
  }
}
