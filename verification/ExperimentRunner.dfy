/** The runner object of orchestrator/runner.py: its methods update status, world, flags, bus and
    emitter in place; each stretch is proved to be one step of `RunnerProtocol`. */
module RunnerObject {
  import opened Wrappers
  import opened World
  import opened Events
  import opened Experiment
  import opened RunnerProtocol
  import Engine
  import PropagationStep
  import RealAgentStep
  import Simulation

  /** scenarios/registry.py:66-77: the loop over the active names; each model-driven one takes
      the next set of answers. */
  method RunAsyncScenarios(w: World, cfg: Config, answers: seq<RealAgentStep.Answers>) returns (r: StepResult)
    requires |answers| == AsyncCount(cfg.activeScenarios)
    ensures r == Engine.Micros(w, cfg, AskSteps(answers))
  {
    hide RealAgentStep.Step;
    var names := cfg.activeScenarios;
    var state, drafts := w, [];
    ghost var steps := AskSteps(answers);
    var used := 0;
    for i := 0 to |names|
      invariant used == AsyncCount(names[..i]) <= |answers|
      invariant Engine.Micros(w, cfg, steps[..used]) == StepResult(state, drafts)
    {
      assert names[..i + 1][..i] == names[..i];
      CountGrows(names, i);
      if names[i] == PromptInjection {
        var s := RealAgentStep.Advance(state, cfg, answers[used]);
        assert steps[..used + 1][..used] == steps[..used];
        state, drafts := s.world, drafts + s.drafts;
        used := used + 1;
      }
    }
    assert names[..|names|] == names && steps[..|answers|] == steps;
    r := StepResult(state, drafts);
  }

  /** A name still to come is still to be counted. */
  lemma {:induction false} CountGrows(names: seq<ScenarioName>, i: nat)
    requires i < |names|
    ensures AsyncCount(names[..i]) + (if names[i] == PromptInjection then 1 else 0) <= AsyncCount(names)
    decreases |names|
  {
    var shorter := names[..|names| - 1];
    if i < |shorter| {
      CountGrows(shorter, i);
      assert shorter[..i] == names[..i] && shorter[i] == names[i];
    }
  }

  class ExperimentRunner {
    const setup: Setup
    const gateway: bool
    const emitter: EventEmitter<Draft>
    const bus: EventBus<Draft>
    var status: Status
    var running: bool
    var pauseSet: bool
    var terminal: bool
    var speed: real
    var state: World
    var task: Task
    var stopping: bool
    var joiners: nat

    /** The emitter has numbered exactly what the bus has published. */
    ghost predicate Sound()
      reads this, emitter, bus
    {
      Experiment.Valid(setup) && emitter.Valid() && bus.Valid() && emitter.log == bus.log
    }

    ghost function Model(): Runner
      reads this, bus
    {
      Runner(setup, gateway, status, running, pauseSet, terminal, speed, state, bus.log, task, stopping, joiners)
    }

    /** `__init__`, `publish_initial` and `start`, as the create route runs them in one go. */
    constructor (setup: Setup, gateway: bool)
      requires Experiment.Valid(setup)
      ensures Sound() && Model() == Created(setup, gateway)
    {
      hide Start, Experiment.Valid;
      this.setup, this.gateway := setup, gateway;
      status, running, pauseSet, terminal, speed := Running, true, true, false, 1.0;
      task, stopping, joiners := AtHead, false, 0;
      var start := Simulation.Begin(setup);
      state := start.world;
      var e := new EventEmitter<Draft>();
      var b := new EventBus<Draft>();
      emitter, bus := e, b;
      var events := e.Emit(start.drafts);
      assert [] + start.drafts == start.drafts && Record<Draft>([]) + events == events;
      assert events == Numbered(0, start.drafts);
      b.Publish(events, start.drafts);
    }

    /** `self._emitter.emit(drafts)` and `self.bus.publish(events)`: no suspension inside. */
    method PublishDrafts(drafts: seq<Draft>)
      requires Sound()
      modifies emitter, bus`buffer, bus`log, bus.subscribers
      ensures Sound() && bus.log == old(bus.log) + drafts
      ensures forall q | q in bus.subscribers :: q.items == old(q.items) + Numbered(|old(bus.log)|, drafts)
    {
      ghost var log := bus.log;
      var events := emitter.Emit(drafts);
      RecordGrows(log, drafts);
      assert events == Record(log + drafts)[|log|..];
      bus.Publish(events, drafts);
    }

    method PauseRun() returns (accepted: bool)
      modifies this
      ensures accepted == !Rejected(old(status), Pause) && Some(Model()) == Step(old(Model()), Pause)
    {
      if status == Paused { return true; }
      if status != Running { return false; }
      pauseSet, status := false, Paused;
      return true;
    }

    method ResumeRun() returns (accepted: bool)
      modifies this
      ensures accepted == !Rejected(old(status), Resume) && Some(Model()) == Step(old(Model()), Resume)
    {
      if status == Running { return true; }
      if status != Paused { return false; }
      status, pauseSet := Running, true;
      task := Woken(task);
      return true;
    }

    method ChangeSpeed(multiplier: real) returns (accepted: bool)
      modifies this
      ensures accepted == !Rejected(old(status), SetSpeed(multiplier)) && Some(Model()) == Step(old(Model()), SetSpeed(multiplier))
    {
      if status == Finished || status == Stopped { return false; }
      var capped := if multiplier < 8.0 then multiplier else 8.0;
      speed := if capped > 0.25 then capped else 0.25;
      return true;
    }

    /** From behind the pause event to the next suspension. */
    method TickStretch()
      requires Sound()
      modifies this, emitter, bus, bus.subscribers
      ensures Sound() && bus.subscribers == old(bus.subscribers) && Model() == TickOnce(old(Model()))
    {
      hide Engine.Advance, RealAgentStep.Asks, RealAgentStep.AllAttempts;
      if !running { task := Ended; return; }
      var r := Engine.Tick(state, setup.cfg);
      state := r.world;
      if gateway && AsyncCount(setup.cfg.activeScenarios) > 0 {
        var requests := RealAgentStep.Collect(state, setup.cfg, RealAgentStep.UNANSWERED);
        RealAgentStep.AsksExactly(state, setup.cfg, RealAgentStep.UNANSWERED);
        if |requests| > 0 {
          task := AskingModels(r.drafts);
          return;
        }
      }
      PublishDrafts(r.drafts);
      task := AtHead;
    }

    /** `_run_loop` from one suspension to the next. */
    method RunStretch()
      requires Sound() && running && (task == AtHead || task == WaitingPause(true))
      modifies this, emitter, bus, bus.subscribers
      ensures Sound() && bus.subscribers == old(bus.subscribers) && Some(Model()) == Step(old(Model()), RunLoop)
    {
      hide TickOnce, PropagationStep.Finished;
      if task == AtHead {
        var done := PropagationStep.IsFinished(state, setup.cfg);
        if !running || done {
          if running { status, terminal := Finished, true; }
          task := Ended;
          return;
        }
        if !pauseSet {
          task := WaitingPause(false);
          return;
        }
      }
      TickStretch();
    }

    /** The model calls of a tick are back. */
    method AnswersStretch(answers: seq<RealAgentStep.Answers>)
      requires Sound() && running && task.AskingModels? && |answers| == AsyncCount(setup.cfg.activeScenarios)
      modifies this, emitter, bus, bus.subscribers
      ensures Sound() && bus.subscribers == old(bus.subscribers) && Some(Model()) == Step(old(Model()), ModelsAnswered(answers))
    {
      hide Engine.Micros;
      var r := RunAsyncScenarios(state, setup.cfg, answers);
      state := r.world;
      PublishDrafts(task.held + r.drafts);
      task := AtHead;
    }

    /** A stop() call up to its first suspension; `first` tells the caller to go on to
        `StopRest` once the loop task has ended. */
    method StopRequest() returns (first: bool)
      modifies this
      ensures Some(Model()) == Step(old(Model()), Stop)
      ensures first == (old(status) == Running || old(status) == Paused)
    {
      if status == Finished { return false; }
      if status == Stopped {
        if !task.Ended? && !task.Cancelled? { joiners := joiners + 1; }
        return false;
      }
      running, status, stopping := false, Stopped, true;
      return true;
    }

    /** The rest of the first stop() call, after `await task`. */
    method StopRest()
      requires Sound() && stopping && TaskOver(task)
      modifies this, emitter, bus, bus.subscribers
      ensures Sound() && bus.subscribers == old(bus.subscribers) && Some(Model()) == Step(old(Model()), StopContinues)
    {
      PublishDrafts([Draft(state.tick, ExperimentStopped)]);
      terminal, stopping := true, false;
    }

    /** `summary().last_seq` is the number of the last published event. */
    function LastSeq(): (last: int)
      requires Sound()
      reads this, emitter, bus
      ensures last == |bus.log| - 1
    {
      emitter.LastSeq()
    }
  }
}
