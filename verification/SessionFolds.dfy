/** Folding the events one call appends to a session's log. */
module SessionFolds {
  import opened SessionModel
  import Folds

  /** A fold over events of one step. */
  function Apply<V>(reduce: (V, Draft) -> V, v: V, tick: nat, kinds: seq<Kind>): V {
    if |kinds| == 0 then v else reduce(Apply(reduce, v, tick, kinds[..|kinds| - 1]), Draft(tick, kinds[|kinds| - 1]))
  }

  lemma {:induction false} ApplyIsFold<V>(reduce: (V, Draft) -> V, v: V, tick: nat, kinds: seq<Kind>)
    ensures Folds.Fold(reduce, v, Stamp(tick, kinds)) == Apply(reduce, v, tick, kinds)
  {
    if |kinds| > 0 {
      ApplyIsFold(reduce, v, tick, kinds[..|kinds| - 1]);
      assert Stamp(tick, kinds)[..|kinds| - 1] == Stamp(tick, kinds[..|kinds| - 1]);
    }
  }

  lemma ApplyNext<V>(reduce: (V, Draft) -> V, v: V, tick: nat, kinds: seq<Kind>, k: Kind)
    ensures Apply(reduce, v, tick, kinds + [k]) == reduce(Apply(reduce, v, tick, kinds), Draft(tick, k))
    ensures Apply(reduce, v, tick, []) == v
  {
    assert (kinds + [k])[..|kinds|] == kinds;
  }

  lemma ApplyOne<V>(reduce: (V, Draft) -> V, v: V, t: nat, a: Kind)
    ensures Apply(reduce, v, t, [a]) == reduce(v, Draft(t, a))
  {
    hide Apply;
    ApplyNext(reduce, v, t, [], a);
    assert [] + [a] == [a];
  }

  lemma ApplyTwo<V>(reduce: (V, Draft) -> V, v: V, t: nat, a: Kind, b: Kind)
    ensures Apply(reduce, v, t, [a, b]) == reduce(reduce(v, Draft(t, a)), Draft(t, b))
  {
    hide Apply;
    ApplyOne(reduce, v, t, a);
    ApplyNext(reduce, v, t, [a], b);
    assert [a] + [b] == [a, b];
  }

  lemma ApplyThree<V>(reduce: (V, Draft) -> V, v: V, t: nat, a: Kind, b: Kind, c: Kind)
    ensures Apply(reduce, v, t, [a, b, c]) == reduce(reduce(reduce(v, Draft(t, a)), Draft(t, b)), Draft(t, c))
  {
    hide Apply;
    ApplyTwo(reduce, v, t, a, b);
    ApplyNext(reduce, v, t, [a, b], c);
    assert [a, b] + [c] == [a, b, c];
  }

  lemma ApplyFive<V>(reduce: (V, Draft) -> V, v: V, t: nat, a: Kind, b: Kind, c: Kind, d: Kind, e: Kind)
    ensures Apply(reduce, v, t, [a, b, c, d, e]) ==
      reduce(reduce(reduce(reduce(reduce(v, Draft(t, a)), Draft(t, b)), Draft(t, c)), Draft(t, d)), Draft(t, e))
  {
    hide Apply;
    ApplyThree(reduce, v, t, a, b, c);
    ApplyNext(reduce, v, t, [a, b, c], d);
    ApplyNext(reduce, v, t, [a, b, c, d], e);
    assert [a, b, c] + [d] == [a, b, c, d] && [a, b, c, d] + [e] == [a, b, c, d, e];
  }
}
