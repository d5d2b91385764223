/** What the database holds of a run once its writer is done, against the replay that is started from
    the stored final tick. persistence/writer.py:182-214 and engine/replay.py together. */
module Archive {
  import opened World
  import opened Experiment
  import opened Behaviours
  import opened RunnerProtocol
  import Events
  import LiveRuns
  import ModelRuns
  import Ownerless
  import Simulation
  import WriterProtocol

  /** The rows of a complete record. */
  function Rows(log: seq<Draft>): map<nat, WriterProtocol.Published> {
    map k | 0 <= k < |log| :: Events.Event(k, log[k])
  }

  /** The writer has finished and said whether the record is complete. */
  predicate Judged(s: WriterProtocol.System) {
    s.writer.phase.Done? && s.writer.phase.verdict.Some?
  }

  predicate Complete(s: WriterProtocol.System)
    requires Judged(s)
  {
    s.writer.phase.verdict.value
  }

  /** The runner beside a writer runs as it would alone. */
  lemma RunnerInRun(s: WriterProtocol.System)
    requires WriterProtocol.InRun(s)
    ensures RunnerProtocol.InRun(s.runner)
  {
    hide RunnerProtocol.Init, RunnerProtocol.Next, RunnerProtocol.InRun;
    forall x: WriterProtocol.System | WriterProtocol.Init(x) ensures RunnerProtocol.InRun(x.runner) { StartsInRun(x.runner); }
    forall x: WriterProtocol.System, y: WriterProtocol.System | RunnerProtocol.InRun(x.runner) && WriterProtocol.Next(x, y)
      ensures RunnerProtocol.InRun(y.runner)
    {
      if y.runner != x.runner { StaysInRun(x.runner, y.runner); }
    }
    Invariant((x: WriterProtocol.System) => WriterProtocol.Init(x),
      (x: WriterProtocol.System, y: WriterProtocol.System) => WriterProtocol.Next(x, y),
      (x: WriterProtocol.System) => RunnerProtocol.InRun(x.runner), s);
  }

  lemma StartsInRun(s: Runner)
    requires RunnerProtocol.Init(s)
    ensures RunnerProtocol.InRun(s)
  {
    hide RunnerProtocol.Init, RunnerProtocol.Next;
    ReachableAtOnce((x: Runner) => RunnerProtocol.Init(x), (x: Runner, y: Runner) => RunnerProtocol.Next(x, y), s);
  }

  lemma StaysInRun(s: Runner, t: Runner)
    requires RunnerProtocol.InRun(s) && RunnerProtocol.Next(s, t)
    ensures RunnerProtocol.InRun(t)
  {
    hide RunnerProtocol.Init, RunnerProtocol.Next;
    ReachableNext((x: Runner) => RunnerProtocol.Init(x), (x: Runner, y: Runner) => RunnerProtocol.Next(x, y), s, t);
  }

  /** `is_complete` says exactly that the table is the whole published record. */
  lemma CompleteIsTheRecord(s: WriterProtocol.System)
    requires WriterProtocol.InRun(s) && Judged(s)
    ensures Complete(s) <==> s.writer.table == Rows(s.runner.log)
  {
    hide WriterProtocol.InRun;
    WriterProtocol.VerdictExact(s);
    if Complete(s) {
      forall k | k in s.writer.table ensures k in Rows(s.runner.log) && s.writer.table[k] == Rows(s.runner.log)[k] {}
    }
  }

  /** A replayed log with the stop event a stopped run ends with. */
  function WithStop(s: Runner, body: seq<Draft>): seq<Draft> {
    body + (if Closed(s) then [StopDraft(s)] else [])
  }

  lemma LongerRows(x: seq<Draft>, y: seq<Draft>)
    requires |x| < |y|
    ensures Rows(x) != Rows(y)
  {
    assert |x| in Rows(y) && |x| !in Rows(x);
  }

  lemma SameRows(x: seq<Draft>, y: seq<Draft>)
    ensures Rows(x) == Rows(y) <==> x == y
  {
    if Rows(x) == Rows(y) {
      if |x| < |y| { LongerRows(x, y); }
      if |y| < |x| { LongerRows(y, x); }
      forall k | 0 <= k < |x| ensures x[k] == y[k] { assert Rows(x)[k] == Rows(y)[k]; }
    }
  }

  /** The stored rows against a replayed log. */
  lemma RowsAgainst(s: WriterProtocol.System, body: seq<Draft>)
    requires WriterProtocol.InRun(s) && Judged(s) && Complete(s)
    requires Closed(s.runner) ==> |s.runner.log| > 0 && s.runner.log[|s.runner.log| - 1] == StopDraft(s.runner)
    ensures s.writer.table == Rows(WithStop(s.runner, body)) <==> body == Body(s.runner)
  {
    hide WriterProtocol.InRun, Rows;
    CompleteIsTheRecord(s);
    SameRows(s.runner.log, WithStop(s.runner, body));
    var stop := if Closed(s.runner) then [StopDraft(s.runner)] else [];
    assert s.runner.log == Body(s.runner) + stop;
    if s.runner.log == WithStop(s.runner, body) {
      assert |body| == |Body(s.runner)|;
      assert body == s.runner.log[..|body|];
    }
  }

  /** A complete record of a run that asked no models: replay to the stored final tick gives the
      final world and, with the stop event of a stopped run, exactly the stored rows, if and only if
      some active scenario owns the clock, or no tick ran, or the first had nothing to report. */
  lemma RecordIsReplay(s: WriterProtocol.System, k: nat, n: nat)
    requires WriterProtocol.InRun(s) && Judged(s) && Complete(s) && LiveRuns.Standing(s.runner, k)
    requires Valid(s.runner.setup) && Simulation.ReplayEnds(Start(s.runner.setup), s.runner.setup.cfg, s.runner.world.tick, n)
    ensures var r := After(s.runner.setup, n);
      r.world == s.runner.world && s.writer.table == Rows(WithStop(s.runner, r.drafts)) <==>
      OwnsClock(s.runner.setup.cfg) || k == 0 || Ownerless.SilentTick(Start(s.runner.setup).world, s.runner.setup.cfg)
  {
    hide WriterProtocol.InRun, RunnerProtocol.InRun, Rows, WithStop, Body, Start, Valid, OwnsClock, Ownerless.SilentTick, Simulation.ReplayEnds, AfterMicros, After;
    hide Simulation.LiveAt, Simulation.Finished;
    RunnerInRun(s);
    LiveRuns.ReplayOfLive(s.runner, k, n);
    RowsAgainst(s, After(s.runner.setup, n).drafts);
  }

  /** In particular, with a clock owner a complete record can always be replayed. */
  lemma CompleteIsReplayable(s: WriterProtocol.System)
    requires WriterProtocol.InRun(s) && Judged(s) && Complete(s)
    requires !UsesModels(s.runner) && OwnsClock(s.runner.setup.cfg)
    ensures Valid(s.runner.setup)
    ensures exists n: nat ::
      && Simulation.ReplayEnds(Start(s.runner.setup), s.runner.setup.cfg, s.runner.world.tick, n)
      && After(s.runner.setup, n).world == s.runner.world
      && s.writer.table == Rows(WithStop(s.runner, After(s.runner.setup, n).drafts))
  {
    hide WriterProtocol.InRun, RunnerProtocol.InRun, Rows, WithStop, Start, Valid, OwnsClock, LiveRuns.Standing, Simulation.ReplayEnds, Simulation.LiveAt;
    RunnerInRun(s);
    LiveRuns.LiveStands(s.runner);
    var k: nat :| LiveRuns.Standing(s.runner, k);
    LiveRuns.StandingMeans(s.runner, k);
    Simulation.OwnedReplayEnds(Start(s.runner.setup), s.runner.setup.cfg, k);
    RecordIsReplay(s, k, k);
  }

  /** The same with a model whose replies are fixed, asked again by the replay: a complete record is
      reproduced exactly when `Reproduced` holds, so never when the run was stopped in the model
      calls of a tick that a scenario had moved the clock for. */
  lemma RecordIsReplayWithModel(s: WriterProtocol.System, m: ModelRuns.LiveRun, model: ModelRuns.Model, k: nat, n: nat)
    requires WriterProtocol.InRun(s) && Judged(s) && Complete(s)
    requires ModelRuns.InRun(model, m) && m.runner == s.runner && ModelRuns.Standing(m, model, k)
    requires ModelRuns.ReplayEnds(s.runner.setup, model, s.runner.world.tick, n)
    ensures var r := ModelRuns.Asked(s.runner.setup, model, n).result;
      r.world == s.runner.world && s.writer.table == Rows(WithStop(s.runner, r.drafts)) <==>
      ModelRuns.Reproduced(s.runner.setup, Holding(s.runner), k)
  {
    hide WriterProtocol.InRun, ModelRuns.InRun, Rows, WithStop, Body, Valid, Holding, ModelRuns.Asked, ModelRuns.ReplayEnds, ModelRuns.Reproduced, ModelRuns.Finished;
    ModelRuns.ReplayOfAsked(m, model, k, n);
    RowsAgainst(s, ModelRuns.Asked(s.runner.setup, model, n).result.drafts);
  }
}
