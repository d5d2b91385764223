/** A live run that asks no models, stopped anywhere, against the batch run and the replay.
    orchestrator/runner.py, engine/simulate.py and engine/replay.py together. */
module LiveRuns {
  import opened Wrappers
  import opened World
  import opened Engine
  import opened Experiment
  import opened Behaviours
  import opened RunnerProtocol
  import Ownerless
  import PropagationStep
  import Simulation

  /** The runner stands after exactly k ticks. */
  ghost predicate Standing(s: Runner, k: nat) {
    && !UsesModels(s) && Traced(s, RunSteps(s.setup.cfg, k)) && Unpublished(s) == []
    && Simulation.LiveAt(Start(s.setup), s.setup.cfg, k)
    && (s.task.WaitingPause? ==> !Simulation.Finished(Start(s.setup), s.setup.cfg, k))
    && (s.status == Status.Finished ==> Simulation.Finished(Start(s.setup), s.setup.cfg, k))
  }

  lemma WorldAt(s: Runner, k: nat)
    requires Valid(s.setup) && s.world == AfterMicros(s.setup, RunSteps(s.setup.cfg, k)).world
    ensures PropagationStep.Finished(s.world, s.setup.cfg) == Simulation.Finished(Start(s.setup), s.setup.cfg, k)
  {
    hide AfterMicros, Start, Valid, RunSteps, PropagationStep.Finished;
    AfterIsMicros(s.setup, k);
  }

  lemma LiveNext(setup: Setup, k: nat)
    requires Valid(setup) && Simulation.LiveAt(Start(setup), setup.cfg, k) && !Simulation.Finished(Start(setup), setup.cfg, k)
    ensures Simulation.LiveAt(Start(setup), setup.cfg, k + 1)
  {
  }

  lemma TickStands(s: Runner, k: nat)
    requires Control(s) && Standing(s, k) && s.running && (s.task == AtHead || s.task.WaitingPause?)
    requires !Simulation.Finished(Start(s.setup), s.setup.cfg, k)
    ensures Standing(TickOnce(s), k + 1)
  {
    hide Advance, AfterMicros, Start, Valid, TickSteps, Simulation.LiveAt, Simulation.Finished, Traced;
    assert Valid(s.setup) by { TracedValid(s, RunSteps(s.setup.cfg, k)); }
    LiveNext(s.setup, k);
    TickTraced(s, RunSteps(s.setup.cfg, k));
    assert RunSteps(s.setup.cfg, k + 1) == RunSteps(s.setup.cfg, k) + TickSteps(s.setup.cfg);
  }

  lemma TracedValid(s: Runner, ms: seq<MicroStep>)
    requires Traced(s, ms)
    ensures Valid(s.setup)
  {
  }

  lemma LoopStands(s: Runner, k: nat)
    requires Control(s) && Standing(s, k) && Step(s, RunLoop).Some?
    ensures Standing(LoopStretch(s), k) || Standing(LoopStretch(s), k + 1)
  {
    hide Advance, AfterMicros, Start, Valid, TickSteps, Simulation.LiveAt, Simulation.Finished, PropagationStep.Finished, RunSteps;
    WorldAt(s, k);
    if s.task.WaitingPause? {
      TickStands(s, k);
    } else if PropagationStep.Finished(s.world, s.setup.cfg) {
      assert Standing(LoopStretch(s), k);
    } else if s.pauseSet {
      TickStands(s, k);
    }
  }

  lemma StandingKept(s: Runner, a: Action, k: nat)
    requires Control(s) && Standing(s, k) && Step(s, a).Some?
    ensures Standing(Step(s, a).value, k) || Standing(Step(s, a).value, k + 1)
  {
    hide Advance, AfterMicros, Start, Valid, TickSteps, Simulation.LiveAt, Simulation.Finished, PropagationStep.Finished, RunSteps, LoopStretch;
    if a == RunLoop { LoopStands(s, k); }
  }

  ghost predicate Stands(s: Runner) { exists k: nat :: Standing(s, k) }

  ghost predicate Good(s: Runner) { Control(s) && (UsesModels(s) || Stands(s)) }

  lemma GoodKept(s: Runner, a: Action)
    requires Good(s) && Step(s, a).Some?
    ensures Good(Step(s, a).value)
  {
    hide Control, Standing;
    ControlKept(s, a);
    if Stands(s) {
      var k: nat :| Standing(s, k);
      StandingKept(s, a, k);
    } else {
      AsksKept(s, a);
    }
  }

  lemma AsksKept(s: Runner, a: Action)
    requires Step(s, a).Some?
    ensures UsesModels(Step(s, a).value) == UsesModels(s)
  {
    hide Advance, Micros, PropagationStep.Finished;
  }

  lemma CreatedGood(setup: Setup, gateway: bool)
    requires Valid(setup)
    ensures Good(Created(setup, gateway))
  {
    hide Start, Valid;
    var s := Created(setup, gateway);
    assert Body(s) + Unpublished(s) == s.log;
    assert AfterMicros(setup, []) == Start(setup);
    if !UsesModels(s) { assert Standing(s, 0); }
  }

  /** A live run that asks no models always stands after some number of ticks. */
  lemma LiveStands(s: Runner)
    requires InRun(s) && !UsesModels(s)
    ensures Control(s) && Stands(s)
  {
    hide Good, Created, Valid;
    forall x: Runner, y: Runner | Good(x) && Next(x, y) ensures Good(y) {
      var a :| Step(x, a) == Some(y);
      GoodKept(x, a);
    }
    forall x: Runner | Init(x) ensures Good(x) { CreatedGood(x.setup, x.gateway); }
    Invariant((x: Runner) => Init(x), (x: Runner, y: Runner) => Next(x, y), (x: Runner) => Good(x), s);
    GoodStands(s);
  }

  lemma GoodStands(s: Runner)
    requires Good(s) && !UsesModels(s)
    ensures Control(s) && Stands(s)
  {
  }

  /** What Standing says, in terms of the experiment. */
  lemma StandingMeans(s: Runner, k: nat)
    requires Standing(s, k)
    ensures Valid(s.setup) && After(s.setup, k) == StepResult(s.world, Body(s))
    ensures Simulation.LiveAt(Start(s.setup), s.setup.cfg, k)
  {
    hide AfterMicros, Valid, RunSteps, Start;
    AfterIsMicros(s.setup, k);
    assert Body(s) + [] == Body(s);
  }

  /** Whatever pauses, resumes and stops came in between: the world and the log (apart from a
      final EXPERIMENT_STOPPED) are those of the experiment after some number of ticks. */
  lemma LiveIsAnExperiment(s: Runner)
    requires InRun(s) && !UsesModels(s)
    ensures Valid(s.setup)
    ensures exists k: nat :: After(s.setup, k) == StepResult(s.world, Body(s)) && Simulation.LiveAt(Start(s.setup), s.setup.cfg, k)
  {
    hide InRun, Standing, Simulation.LiveAt, Valid, Start;
    LiveStands(s);
    var k: nat :| Standing(s, k);
    StandingMeans(s, k);
  }

  /** A run that finished by itself ends exactly where the batch simulation does. */
  lemma FinishedIsSimulated(s: Runner, n: nat)
    requires InRun(s) && !UsesModels(s) && s.status == Status.Finished && Valid(s.setup)
    requires Simulation.FinalTick(Start(s.setup), s.setup.cfg, n)
    ensures After(s.setup, n) == StepResult(s.world, s.log)
  {
    hide InRun, Valid, Start, Simulation.Finished, Traced, Control;
    LiveStands(s);
    var k: nat :| Standing(s, k);
    StandingMeans(s, k);
    assert k == n;
  }

  /** Replay equals live, at any moment and however the run was paused or stopped: rebuilding to
      the runner's tick gives its world and its log, if and only if some active scenario owns the
      clock, or no tick has run, or the initial world gives the first tick nothing to report. */
  lemma ReplayOfLive(s: Runner, k: nat, n: nat)
    requires InRun(s) && Standing(s, k)
    requires Valid(s.setup) && Simulation.ReplayEnds(Start(s.setup), s.setup.cfg, s.world.tick, n)
    ensures After(s.setup, n) == StepResult(s.world, Body(s)) <==>
      OwnsClock(s.setup.cfg) || k == 0 || Ownerless.SilentTick(Start(s.setup).world, s.setup.cfg)
  {
    hide InRun, Standing, Valid, Start, Simulation.LiveAt, Simulation.ReplayEnds, OwnsClock, Ownerless.SilentTick, From;
    StandingMeans(s, k);
    Simulation.ReplayEqualsLive(Start(s.setup), s.setup.cfg, k, n);
  }
}
