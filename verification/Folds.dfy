/** Folding a log, the newest entry last. */
module Folds {
  function Fold<V, D>(reduce: (V, D) -> V, v: V, log: seq<D>): V {
    if |log| == 0 then v else reduce(Fold(reduce, v, log[..|log| - 1]), log[|log| - 1])
  }

  lemma {:induction false} FoldAppend<V, D>(reduce: (V, D) -> V, v: V, a: seq<D>, b: seq<D>)
    ensures Fold(reduce, v, a + b) == Fold(reduce, Fold(reduce, v, a), b)
  {
    if |b| == 0 {
      assert a + b == a;
    } else {
      FoldAppend(reduce, v, a, b[..|b| - 1]);
      assert (a + b)[..|a + b| - 1] == a + b[..|b| - 1];
    }
  }

  lemma FoldNext<V, D>(reduce: (V, D) -> V, v: V, log: seq<D>, d: D)
    ensures Fold(reduce, v, log + [d]) == reduce(Fold(reduce, v, log), d)
    ensures Fold(reduce, v, []) == v && Fold(reduce, v, [d]) == reduce(v, d)
  {
    assert (log + [d])[..|log|] == log && [d][..0] == [];
  }

  /** Entries that change nothing. */
  lemma {:induction false} FoldIdle<V, D>(reduce: (V, D) -> V, v: V, log: seq<D>)
    requires forall d | d in log :: reduce(v, d) == v
    ensures Fold(reduce, v, log) == v
  {
    if |log| > 0 {
      assert log[|log| - 1] in log;
      FoldIdle(reduce, v, log[..|log| - 1]);
    }
  }
}
