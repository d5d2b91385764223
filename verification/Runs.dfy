/** Runs of an arbitrary step function, and induction over them. */
module Runs {
  import opened World

  function Concat(a: StepResult, b: StepResult): StepResult {
    StepResult(b.world, a.drafts + b.drafts)
  }

  /** The steps `ms`, one after the other, with the drafts of all of them. */
  function Trace<M>(step: (World, M) -> StepResult, w: World, ms: seq<M>): StepResult {
    if |ms| == 0 then StepResult(w, []) else
      var earlier := Trace(step, w, ms[..|ms| - 1]);
      Concat(earlier, step(earlier.world, ms[|ms| - 1]))
  }

  function Iterate(tick: World -> StepResult, w: World, n: nat): StepResult {
    if n == 0 then StepResult(w, []) else
      var earlier := Iterate(tick, w, n - 1);
      Concat(earlier, tick(earlier.world))
  }

  function Repeat<M>(ms: seq<M>, n: nat): seq<M> {
    if n == 0 then [] else Repeat(ms, n - 1) + ms
  }

  lemma {:induction false} TraceAppend<M>(step: (World, M) -> StepResult, w: World, a: seq<M>, b: seq<M>)
    ensures Trace(step, w, a + b) == Concat(Trace(step, w, a), Trace(step, Trace(step, w, a).world, b))
  {
    if |b| == 0 {
      assert a + b == a;
    } else {
      TraceAppend(step, w, a, b[..|b| - 1]);
      assert (a + b)[..|a + b| - 1] == a + b[..|b| - 1];
    }
  }

  lemma {:induction false} IterateIsTrace<M>(tick: World -> StepResult, step: (World, M) -> StepResult, ms: seq<M>, w: World, n: nat)
    requires forall v :: tick(v) == Trace(step, v, ms)
    ensures Iterate(tick, w, n) == Trace(step, w, Repeat(ms, n))
  {
    if n > 0 {
      IterateIsTrace(tick, step, ms, w, n - 1);
      TraceAppend(step, w, Repeat(ms, n - 1), ms);
    }
  }

  lemma {:induction false} IterateAdd(tick: World -> StepResult, w: World, m: nat, n: nat)
    ensures Iterate(tick, w, m + n) == Concat(Iterate(tick, w, m), Iterate(tick, Iterate(tick, w, m).world, n))
  {
    if n > 0 { IterateAdd(tick, w, m, n - 1); }
  }

  lemma IterateNext(tick: World -> StepResult, base: StepResult, n: nat)
    ensures Concat(base, Iterate(tick, base.world, n + 1)) ==
      var r := Concat(base, Iterate(tick, base.world, n)); Concat(r, tick(r.world))
    ensures Concat(base, Iterate(tick, base.world, 0)) == base
  {
  }

  lemma {:induction false} IterateClock(tick: World -> StepResult, w: World, n: nat, c: nat)
    requires forall v :: tick(v).world.tick == v.tick + c
    ensures Iterate(tick, w, n).world.tick == w.tick + n * c
  {
    if n > 0 {
      IterateClock(tick, w, n - 1, c);
      assert n * c == (n - 1) * c + c;
    }
  }

  /** What the start satisfies and every step keeps holds at the end of every run. */
  lemma {:induction false} TraceInduction<M>(step: (World, M) -> StepResult, allowed: M -> bool, inv: StepResult -> bool, w: World, ms: seq<M>)
    requires inv(StepResult(w, []))
    requires forall r: StepResult, m: M :: inv(r) && allowed(m) ==> inv(Concat(r, step(r.world, m)))
    requires forall i | 0 <= i < |ms| :: allowed(ms[i])
    ensures inv(Trace(step, w, ms))
  {
    if |ms| > 0 {
      TraceInduction(step, allowed, inv, w, ms[..|ms| - 1]);
    }
  }
}
