/** Runs with a model whose replies are fixed: the live run, tick by tick, and its replay, which asks
    the model again. engine/replay.py:48-106, orchestrator/runner.py, agents/runtime.py,
    gateway/gateway.py and gateway/mock_provider.py together. */
module ModelRuns {
  import opened Wrappers
  import opened World
  import opened Runs
  import opened Engine
  import opened Experiment
  import opened Behaviours
  import opened RunnerProtocol
  import Attempts
  import Ownerless
  import PropagationStep
  import RealAgentStep
  import Simulation
  import Spreading
  import Topology

  /** The reply to a request depends on nothing but the request: the tick, the agent asked, and the
      one on whose behalf. The gateway lets so many requests of the whole run through. */
  datatype Model = Model(reply: (nat, AgentId, AgentId) -> RealAgentStep.Answer, budget: nat)

  /** World and log so far, and the requests let through so far. */
  datatype Progress = Progress(result: StepResult, used: nat)

  function Requests(w: World, cfg: Config): seq<Attempts.Attempt> {
    RealAgentStep.AllAttempts(w, cfg, RealAgentStep.UNANSWERED)
  }

  /** The requests of one round the budget lets through: the first ones, in the order they are
      sent, which is the order in which the semaphore admits them. */
  function Admitted(w: World, cfg: Config, model: Model, used: nat): seq<Attempts.Attempt> {
    var requests := Requests(w, cfg);
    if used + |requests| <= model.budget then requests
    else if used <= model.budget then requests[..model.budget - used]
    else []
  }

  function Replies(w: World, cfg: Config, model: Model, used: nat): RealAgentStep.Answers {
    (s, t) => if exists a :: a in Admitted(w, cfg, model, used) && a.source == s && a.target == t
              then model.reply(w.tick, s, t) else RealAgentStep.NoResponse
  }

  /** The model-driven scenarios of one tick, in list order. */
  function Rounds(w: World, cfg: Config, model: Model, used: nat, names: seq<ScenarioName>): Progress {
    if |names| == 0 then Progress(StepResult(w, []), used) else
      var p := Rounds(w, cfg, model, used, names[..|names| - 1]);
      if names[|names| - 1] != PromptInjection then p else
        var v := p.result.world;
        Progress(Concat(p.result, RealAgentStep.Step(v, cfg, Replies(v, cfg, model, p.used))),
                 p.used + |Admitted(v, cfg, model, p.used)|)
  }

  /** `advance`, then `run_async_scenarios`. */
  function Onward(p: Progress, cfg: Config, model: Model): Progress {
    var a := Concat(p.result, Advance(p.result.world, cfg));
    var m := Rounds(a.world, cfg, model, p.used, cfg.activeScenarios);
    Progress(Concat(a, m.result), m.used)
  }

  function Asked(s: Setup, model: Model, n: nat): Progress
    requires Valid(s)
  {
    if n == 0 then Progress(Start(s), 0) else Onward(Asked(s, model, n - 1), s.cfg, model)
  }

  ghost predicate Finished(s: Setup, model: Model, n: nat)
    requires Valid(s)
  {
    PropagationStep.Finished(Asked(s, model, n).result.world, s.cfg)
  }

  // --- the rounds of one tick -------------------------------------------------------------------------

  lemma {:induction false} QuietRounds(w: World, cfg: Config, model: Model, used: nat, names: seq<ScenarioName>)
    requires !RealAgentStep.Asks(w)
    ensures Rounds(w, cfg, model, used, names) == Progress(StepResult(w, []), used)
  {
    hide RealAgentStep.Asks, RealAgentStep.Step;
    if |names| > 0 {
      QuietRounds(w, cfg, model, used, names[..|names| - 1]);
      RealAgentStep.QuietStep(w, cfg, Replies(w, cfg, model, used));
      RealAgentStep.AsksExactly(w, cfg, RealAgentStep.UNANSWERED);
    }
  }

  lemma {:induction false} NoRounds(w: World, cfg: Config, model: Model, used: nat, names: seq<ScenarioName>)
    requires AsyncCount(names) == 0
    ensures Rounds(w, cfg, model, used, names) == Progress(StepResult(w, []), used)
  {
    if |names| > 0 { NoRounds(w, cfg, model, used, names[..|names| - 1]); }
  }

  /** Once a request goes out the tick has something to report. */
  lemma {:induction false} LoudRounds(w: World, cfg: Config, model: Model, used: nat, names: seq<ScenarioName>)
    requires RealAgentStep.Asks(w) && AsyncCount(names) > 0
    ensures |Rounds(w, cfg, model, used, names).result.drafts| > 0
  {
    hide RealAgentStep.Asks, RealAgentStep.Step;
    var earlier := names[..|names| - 1];
    if AsyncCount(earlier) > 0 {
      LoudRounds(w, cfg, model, used, earlier);
    } else {
      NoRounds(w, cfg, model, used, earlier);
      RealAgentStep.QuietStep(w, cfg, Replies(w, cfg, model, used));
    }
  }

  lemma {:induction false} RoundsClock(w: World, cfg: Config, model: Model, used: nat, names: seq<ScenarioName>)
    ensures Rounds(w, cfg, model, used, names).result.world.tick == w.tick
  {
    hide RealAgentStep.AllAttempts, Attempts.Claims;
    if |names| > 0 { RoundsClock(w, cfg, model, used, names[..|names| - 1]); }
  }

  /** What comes back in the rounds of one tick. */
  function Answered(w: World, cfg: Config, model: Model, used: nat, names: seq<ScenarioName>): (answers: seq<RealAgentStep.Answers>)
    ensures |answers| == AsyncCount(names)
  {
    if |names| == 0 then [] else
      var earlier := names[..|names| - 1];
      var p := Rounds(w, cfg, model, used, earlier);
      Answered(w, cfg, model, used, earlier) +
        (if names[|names| - 1] == PromptInjection then [Replies(p.result.world, cfg, model, p.used)] else [])
  }

  lemma AskNone(w: World, cfg: Config)
    ensures Micros(w, cfg, AskSteps([])) == StepResult(w, [])
  {
  }

  lemma AskOneMore(w: World, cfg: Config, all: seq<RealAgentStep.Answers>)
    requires |all| > 0
    ensures Micros(w, cfg, AskSteps(all)) ==
      var earlier := Micros(w, cfg, AskSteps(all[..|all| - 1]));
      Concat(earlier, RealAgentStep.Step(earlier.world, cfg, all[|all| - 1]))
  {
    hide RealAgentStep.Step;
    assert AskSteps(all)[..|all| - 1] == AskSteps(all[..|all| - 1]);
  }

  lemma {:induction false} RoundsAreMicros(w: World, cfg: Config, model: Model, used: nat, names: seq<ScenarioName>)
    ensures Rounds(w, cfg, model, used, names).result == Micros(w, cfg, AskSteps(Answered(w, cfg, model, used, names)))
  {
    hide RealAgentStep.Step, Replies, Micros, AskSteps;
    if |names| == 0 {
      AskNone(w, cfg);
    } else {
      var earlier := names[..|names| - 1];
      RoundsAreMicros(w, cfg, model, used, earlier);
      var before, all := Answered(w, cfg, model, used, earlier), Answered(w, cfg, model, used, names);
      if names[|names| - 1] == PromptInjection {
        assert all[..|all| - 1] == before;
        AskOneMore(w, cfg, all);
      } else {
        assert all == before;
      }
    }
  }

  // --- the replay ---------------------------------------------------------------------------------------

  ghost predicate Stops(s: Setup, model: Model, target: nat, n: nat)
    requires Valid(s)
  {
    Asked(s, model, n).result.world.tick >= target || Finished(s, model, n)
  }

  ghost predicate ReplayEnds(s: Setup, model: Model, target: nat, n: nat)
    requires Valid(s)
  {
    Stops(s, model, target, n) && forall k: nat | k < n :: !Stops(s, model, target, k)
  }

  /** The loop of `run_async_scenarios`, asking the model as it goes. */
  method RunRounds(w: World, cfg: Config, model: Model, used: nat) returns (p: Progress)
    ensures p == Rounds(w, cfg, model, used, cfg.activeScenarios)
  {
    hide RealAgentStep.Step, Admitted;
    var names := cfg.activeScenarios;
    p := Progress(StepResult(w, []), used);
    for i := 0 to |names|
      invariant p == Rounds(w, cfg, model, used, names[..i])
    {
      assert names[..i + 1][..i] == names[..i];
      if names[i] == PromptInjection {
        var v := p.result.world;
        var r := RealAgentStep.Advance(v, cfg, Replies(v, cfg, model, p.used));
        p := Progress(Concat(p.result, r), p.used + |Admitted(v, cfg, model, p.used)|);
      }
    }
    assert names[..|names|] == names;
  }

  /** `_reconstruct_async`, with a gateway of its own. */
  method ReconstructAsync(s: Setup, model: Model, target: nat) returns (r: StepResult)
    requires Valid(s) && exists k :: Stops(s, model, target, k)
    ensures exists n: nat :: ReplayEnds(s, model, target, n) && r == Asked(s, model, n).result
  {
    hide Start, Valid, Advance, Rounds;
    r := Simulation.Begin(s);
    var used := 0;
    ghost var n := 0;
    ghost var last: nat :| Stops(s, model, target, last);
    while true
      invariant Progress(r, used) == Asked(s, model, n) && forall k: nat | k < n :: !Stops(s, model, target, k)
      decreases last - n
    {
      if r.world.tick >= target { break; }
      var done := PropagationStep.IsFinished(r.world, s.cfg);
      if done { break; }
      var a := Tick(r.world, s.cfg);
      var p := RunRounds(a.world, s.cfg, model, used);
      r, used := Concat(Concat(r, a), p.result), p.used;
      n := n + 1;
    }
  }

  // --- the live run ---------------------------------------------------------------------------------------

  /** A runner whose gateway leads to the model, and the requests let through so far. */
  datatype LiveRun = LiveRun(runner: Runner, used: nat)

  function RepliesNow(m: LiveRun, model: Model): seq<RealAgentStep.Answers> {
    Answered(m.runner.world, m.runner.setup.cfg, model, m.used, m.runner.setup.cfg.activeScenarios)
  }

  function UsedAfter(m: LiveRun, model: Model): nat {
    Rounds(m.runner.world, m.runner.setup.cfg, model, m.used, m.runner.setup.cfg.activeScenarios).used
  }

  ghost predicate Moves(m: LiveRun, model: Model, a: Action, next: LiveRun) {
    && Step(m.runner, a) == Some(next.runner)
    && (a.ModelsAnswered? ==> a.answers == RepliesNow(m, model))
    && next.used == (if a.ModelsAnswered? then UsedAfter(m, model) else m.used)
  }

  ghost predicate Next(model: Model, m: LiveRun, next: LiveRun) { exists a :: Moves(m, model, a, next) }

  ghost predicate Init(m: LiveRun) { RunnerProtocol.Init(m.runner) && m.runner.gateway && m.used == 0 }

  ghost predicate InRun(model: Model, m: LiveRun) {
    Reachable((x: LiveRun) => Init(x), (x: LiveRun, y: LiveRun) => Next(model, x, y), m)
  }

  /** The runner stands after k whole ticks, or holds the drafts of the tick that follows them. */
  ghost predicate Standing(m: LiveRun, model: Model, k: nat) {
    && var s := m.runner;
    && Valid(s.setup) && s.gateway
    && var p := Asked(s.setup, model, k);
    && Body(s) == p.result.drafts && m.used == p.used
    && (forall j: nat | j < k :: !Finished(s.setup, model, j))
    && (if Holding(s) then StepResult(s.world, Unpublished(s)) == Advance(p.result.world, s.setup.cfg) && !Finished(s.setup, model, k)
        else s.world == p.result.world)
    && (s.task.WaitingPause? ==> !Finished(s.setup, model, k))
    && (s.status == Status.Finished ==> Finished(s.setup, model, k))
    && (Closed(s) ==> |s.log| > 0 && s.log[|s.log| - 1] == StopDraft(s))
  }

  lemma TickStands(m: LiveRun, model: Model, k: nat)
    requires Control(m.runner) && Standing(m, model, k) && m.runner.running
    requires (m.runner.task == AtHead || m.runner.task.WaitingPause?) && !Finished(m.runner.setup, model, k)
    ensures var next := m.(runner := TickOnce(m.runner)); Standing(next, model, k) || Standing(next, model, k + 1)
  {
    hide Advance, Start, Valid, Rounds, RealAgentStep.Asks, PropagationStep.Finished;
    var s, cfg := m.runner, m.runner.setup.cfg;
    var t := TickOnce(s);
    if !Holding(t) {
      var a := Advance(s.world, cfg);
      if AsyncCount(cfg.activeScenarios) == 0 {
        NoRounds(a.world, cfg, model, m.used, cfg.activeScenarios);
      } else {
        QuietRounds(a.world, cfg, model, m.used, cfg.activeScenarios);
      }
      assert Asked(s.setup, model, k + 1).result.drafts == t.log;
    }
  }

  lemma LoopStands(m: LiveRun, model: Model, k: nat)
    requires Control(m.runner) && Standing(m, model, k) && Step(m.runner, RunLoop).Some?
    ensures var next := m.(runner := LoopStretch(m.runner)); Standing(next, model, k) || Standing(next, model, k + 1)
  {
    hide Asked, Start, Valid, TickOnce, PropagationStep.Finished, RealAgentStep.Asks;
    var s := m.runner;
    if s.task.WaitingPause? || (!PropagationStep.Finished(s.world, s.setup.cfg) && s.pauseSet) { TickStands(m, model, k); }
  }

  lemma AnswersStand(m: LiveRun, model: Model, k: nat)
    requires Control(m.runner) && Standing(m, model, k) && m.runner.task.AskingModels?
    ensures Standing(LiveRun(AnswerStretch(m.runner, RepliesNow(m, model)), UsedAfter(m, model)), model, k + 1)
  {
    hide Advance, Start, Valid, Rounds, Micros, RealAgentStep.Asks, PropagationStep.Finished;
    var s, cfg := m.runner, m.runner.setup.cfg;
    RoundsAreMicros(s.world, cfg, model, m.used, cfg.activeScenarios);
    var t := AnswerStretch(s, RepliesNow(m, model));
    assert Asked(s.setup, model, k + 1).result.drafts == t.log;
  }

  /** Neither the loop nor the models: the agents and all that was reported stay. */
  lemma OtherSteps(s: Runner, a: Action)
    requires Control(s) && Step(s, a).Some? && !a.RunLoop? && !a.ModelsAnswered?
    requires Closed(s) ==> |s.log| > 0 && s.log[|s.log| - 1] == StopDraft(s)
    ensures var t := Step(s, a).value;
      && t.setup == s.setup && t.gateway == s.gateway && t.world == s.world
      && Body(t) == Body(s) && Unpublished(t) == Unpublished(s) && Holding(t) == Holding(s)
      && (t.task.WaitingPause? ==> s.task.WaitingPause?) && (t.status == Status.Finished ==> s.status == Status.Finished)
      && (Closed(t) ==> |t.log| > 0 && t.log[|t.log| - 1] == StopDraft(t))
  {
    hide RealAgentStep.Asks, LoopStretch, AnswerStretch;
  }

  lemma StandingKept(m: LiveRun, model: Model, a: Action, next: LiveRun, k: nat)
    requires Control(m.runner) && Standing(m, model, k) && Moves(m, model, a, next)
    ensures Standing(next, model, k) || Standing(next, model, k + 1)
  {
    hide Asked, Start, Valid, LoopStretch, AnswerStretch, Control, Finished, Body, Unpublished, Holding, StopDraft, Closed, Advance, RepliesNow, UsedAfter;
    match a
    case RunLoop => LoopStands(m, model, k);
    case ModelsAnswered(_) => AnswersStand(m, model, k);
    case _ => OtherSteps(m.runner, a);
  }

  ghost predicate Good(m: LiveRun, model: Model) { Control(m.runner) && exists k: nat :: Standing(m, model, k) }

  lemma GoodKept(m: LiveRun, model: Model, next: LiveRun)
    requires Good(m, model) && Next(model, m, next)
    ensures Good(next, model)
  {
    hide Control, Standing, Step;
    var a :| Moves(m, model, a, next);
    var k: nat :| Standing(m, model, k);
    ControlKept(m.runner, a);
    StandingKept(m, model, a, next, k);
  }

  lemma InitGood(m: LiveRun, model: Model)
    requires Init(m)
    ensures Good(m, model)
  {
    hide Start, Valid;
    assert Standing(m, model, 0);
  }

  /** However it is paused, resumed or stopped, a live run with the model stands after some number
      of whole ticks, or holds the drafts of the next. */
  lemma LiveStands(m: LiveRun, model: Model)
    requires InRun(model, m)
    ensures Control(m.runner) && exists k: nat :: Standing(m, model, k)
  {
    hide Good, Init, Next;
    forall x: LiveRun, y: LiveRun | Good(x, model) && Next(model, x, y) ensures Good(y, model) { GoodKept(x, model, y); }
    forall x: LiveRun | Init(x) ensures Good(x, model) { InitGood(x, model); }
    Invariant((x: LiveRun) => Init(x), (x: LiveRun, y: LiveRun) => Next(model, x, y), (x: LiveRun) => Good(x, model), m);
    GoodMeans(m, model);
  }

  lemma GoodMeans(m: LiveRun, model: Model)
    requires Good(m, model)
    ensures Control(m.runner) && exists k: nat :: Standing(m, model, k)
  {
  }

  /** Models are asked only where some agent is model-backed, which is when the program makes a
      gateway at all. */
  lemma OnlyWithRealAgents(s: Runner)
    requires RunnerProtocol.InRun(s) && AsksNow(s)
    ensures s.setup.cfg.realAgentCount > 0
  {
    hide RunnerProtocol.InRun, Micros;
    var ms := InTrace(s);
    var w := Start(s.setup).world;
    Simulation.FrameKept(w, s.setup.cfg, ms);
    Topology.InitialReal(s.setup.ids, s.setup.links, s.setup.cfg);
    var a :| a in RealAgentStep.RealSources(s.world);
    assert w.nodes[a].isReal;
    assert a in Topology.RealAgents(s.setup.ids, s.setup.links, s.setup.cfg.realAgentCount);
  }

  // --- replay against live -------------------------------------------------------------------------------

  lemma StartClock(s: Setup)
    requires Valid(s)
    ensures Start(s).world.tick == 0 && Start(s).world.compromisedGraph == {}
  {
    Topology.InitialWorldShape(s.ids, s.links, s.cfg);
  }

  lemma {:induction false} Clock(s: Setup, model: Model, n: nat)
    requires Valid(s)
    ensures Asked(s, model, n).result.world.tick == n * Owners(s.cfg.activeScenarios)
  {
    hide Advance, Rounds, Valid;
    if n == 0 {
      StartClock(s);
    } else {
      Clock(s, model, n - 1);
      var p := Asked(s, model, n - 1);
      var a := Advance(p.result.world, s.cfg);
      AdvanceClock(p.result.world, s.cfg);
      RoundsClock(a.world, s.cfg, model, p.used, s.cfg.activeScenarios);
      OneMore(n, Owners(s.cfg.activeScenarios));
    }
  }

  lemma OneMore(n: nat, c: nat)
    requires n > 0
    ensures n * c == (n - 1) * c + c
  {
  }

  /** What k + 1 ticks report is what k ticks report and more, as soon as a request goes out. */
  lemma LogGrows(s: Setup, model: Model, k: nat)
    requires Valid(s)
    ensures var p := Asked(s, model, k); var a := Advance(p.result.world, s.cfg);
      && p.result.drafts + a.drafts <= Asked(s, model, k + 1).result.drafts
      && (RealAgentStep.Asks(a.world) && AsyncCount(s.cfg.activeScenarios) > 0 ==>
            |Asked(s, model, k + 1).result.drafts| > |p.result.drafts + a.drafts|)
  {
    hide Advance, Valid, Rounds, RealAgentStep.Asks;
    var p := Asked(s, model, k);
    var a := Advance(p.result.world, s.cfg);
    var names := s.cfg.activeScenarios;
    if RealAgentStep.Asks(a.world) && AsyncCount(names) > 0 { LoudRounds(a.world, s.cfg, model, p.used, names); }
  }

  lemma OneTickMore(s: Setup, model: Model, k: nat)
    requires Valid(s)
    ensures Asked(s, model, k).result.drafts <= Asked(s, model, k + 1).result.drafts
  {
    hide Start, Valid, Onward, Asked, Advance;
    LogGrows(s, model, k);
  }

  lemma {:induction false} LogNeverShrinks(s: Setup, model: Model, k: nat)
    requires Valid(s)
    ensures Start(s).drafts <= Asked(s, model, k).result.drafts
    ensures k > 0 ==> Asked(s, model, 1).result.drafts <= Asked(s, model, k).result.drafts
  {
    hide Start, Valid, Onward;
    if k > 0 {
      LogNeverShrinks(s, model, k - 1);
      OneTickMore(s, model, k - 1);
    }
  }

  /** The first tick has nothing to report: no active scenario, no detection, no request. */
  ghost predicate NothingToReport(s: Setup)
    requires Valid(s)
  {
    && Ownerless.SilentTick(Start(s).world, s.cfg)
    && !(AsyncCount(s.cfg.activeScenarios) > 0 && RealAgentStep.Asks(Start(s).world))
  }

  lemma {:induction false} QuietRun(s: Setup, model: Model, k: nat)
    requires Valid(s) && !OwnsClock(s.cfg) && NothingToReport(s)
    ensures Asked(s, model, k) == Progress(Start(s), 0)
  {
    hide Start, Valid, Advance, Rounds, OwnsClock, Ownerless.SilentTick, RealAgentStep.Asks;
    if k > 0 {
      QuietRun(s, model, k - 1);
      var w, names := Start(s).world, s.cfg.activeScenarios;
      Ownerless.AdvanceSilent(w, s.cfg);
      if AsyncCount(names) == 0 { NoRounds(w, s.cfg, model, 0, names); } else { QuietRounds(w, s.cfg, model, 0, names); }
      assert Start(s).drafts + [] + [] == Start(s).drafts;
    }
  }

  /** Without a clock owner, the log of k ticks is that of none exactly when there were none or the
      first has nothing to report; then nothing has changed either. */
  lemma QuietExactly(s: Setup, model: Model, k: nat)
    requires Valid(s) && !OwnsClock(s.cfg)
    ensures Asked(s, model, k).result.drafts == Start(s).drafts <==> k == 0 || NothingToReport(s)
    ensures k == 0 || NothingToReport(s) ==> Asked(s, model, k).result == Start(s)
  {
    hide Start, Valid, Advance, Onward, OwnsClock, Ownerless.SilentTick, RealAgentStep.Asks;
    if k > 0 {
      if NothingToReport(s) {
        QuietRun(s, model, k);
      } else {
        Ownerless.AdvanceSilent(Start(s).world, s.cfg);
        LogGrows(s, model, 0);
        LogNeverShrinks(s, model, k);
      }
    }
  }

  /** Where replay to a run's tick ends: with a clock owner after the very ticks the run has seen,
      the held one included; without, at once. */
  lemma ReplayLength(m: LiveRun, model: Model, k: nat, n: nat)
    requires Control(m.runner) && Standing(m, model, k) && ReplayEnds(m.runner.setup, model, m.runner.world.tick, n)
    ensures n == if !OwnsClock(m.runner.setup.cfg) then 0 else if Holding(m.runner) then k + 1 else k
  {
    hide Asked, Start, Valid, Advance, PropagationStep.Finished, Owners, RealAgentStep.Asks;
    var s, cfg := m.runner, m.runner.setup.cfg;
    var end := if !OwnsClock(cfg) then 0 else if Holding(s) then k + 1 else k;
    AdvanceClock(Asked(s.setup, model, k).result.world, cfg);
    Clock(s.setup, model, k);
    Clock(s.setup, model, n);
    Clock(s.setup, model, end);
    OneMore(k + 1, Owners(cfg.activeScenarios));
    assert s.world.tick == end * Owners(cfg.activeScenarios);
    assert Stops(s.setup, model, s.world.tick, end);
    if OwnsClock(cfg) { Simulation.TicksOrdered(n, end, Owners(cfg.activeScenarios)); }
  }

  /** When replay, asking the model again, reproduces the run. Between ticks: exactly when some
      scenario owns the clock, or no tick has run, or the first has nothing to report. A run that
      holds a tick's drafts, or was cancelled while it did: exactly when no scenario owns the clock,
      this is the first tick, and it leaves the initial world as it is. */
  ghost predicate Reproduced(s: Setup, holding: bool, k: nat)
    requires Valid(s)
  {
    if holding then !OwnsClock(s.cfg) && k == 0 && Ownerless.StillTick(Start(s).world, s.cfg)
    else OwnsClock(s.cfg) || k == 0 || NothingToReport(s)
  }

  lemma HeldReplay(m: LiveRun, model: Model, k: nat, n: nat)
    requires Control(m.runner) && Standing(m, model, k) && ReplayEnds(m.runner.setup, model, m.runner.world.tick, n)
    requires Holding(m.runner)
    ensures Asked(m.runner.setup, model, n).result == StepResult(m.runner.world, Body(m.runner)) <==>
      Reproduced(m.runner.setup, true, k)
  {
    hide Onward, Start, Valid, Advance, OwnsClock, PropagationStep.Finished, RealAgentStep.Asks, Ownerless.StillTick, Ownerless.SilentTick;
    var s, setup := m.runner, m.runner.setup;
    ReplayLength(m, model, k, n);
    if OwnsClock(setup.cfg) {
      LogGrows(setup, model, k);
    } else {
      QuietExactly(setup, model, k);
      StartClock(setup);
      Ownerless.AdvanceSilent(Start(setup).world, setup.cfg);
      Ownerless.AdvanceStill(Start(setup).world, setup.cfg);
    }
  }

  /** Replay equals live, with a model whose replies are fixed and at any moment of any run. */
  lemma ReplayOfAsked(m: LiveRun, model: Model, k: nat, n: nat)
    requires InRun(model, m) && Standing(m, model, k) && ReplayEnds(m.runner.setup, model, m.runner.world.tick, n)
    ensures Asked(m.runner.setup, model, n).result == StepResult(m.runner.world, Body(m.runner)) <==>
      Reproduced(m.runner.setup, Holding(m.runner), k)
  {
    hide InRun, Onward, Start, Valid, Advance, OwnsClock, PropagationStep.Finished, NothingToReport, Control;
    LiveStands(m, model);
    if Holding(m.runner) {
      HeldReplay(m, model, k, n);
    } else {
      ReplayLength(m, model, k, n);
      if !OwnsClock(m.runner.setup.cfg) { QuietExactly(m.runner.setup, model, k); }
    }
  }

  // --- the budget ------------------------------------------------------------------------------------------

  /** A round's requests in order of source and target: as many as the budget still allows are answered
      by the model, the first ones, and the rest get no response. */
  lemma RepliesAre(w: World, cfg: Config, model: Model, used: nat) returns (pairs: seq<(AgentId, AgentId)>)
    ensures forall s: AgentId, t: AgentId :: (s, t) in pairs <==> Spreading.Prompts(w, s, t)
    ensures forall i, j | 0 <= i < j < |pairs| :: pairs[i].0 < pairs[j].0 || (pairs[i].0 == pairs[j].0 && pairs[i].1 < pairs[j].1)
    ensures forall i | 0 <= i < |pairs| ::
      Replies(w, cfg, model, used)(pairs[i].0, pairs[i].1) ==
        if used + i < model.budget then model.reply(w.tick, pairs[i].0, pairs[i].1) else RealAgentStep.NoResponse
    ensures |Admitted(w, cfg, model, used)| ==
      if used + |pairs| <= model.budget then |pairs| else if used <= model.budget then model.budget - used else 0
  {
    hide RealAgentStep.AllAttempts, Spreading.Prompts;
    var requests, let := Requests(w, cfg), Admitted(w, cfg, model, used);
    Spreading.ModelAllOrdered(w, cfg, RealAgentStep.UNANSWERED);
    pairs := seq(|requests|, i requires 0 <= i < |requests| => (requests[i].source, requests[i].target));
    forall s: AgentId, t: AgentId ensures (s, t) in pairs <==> Spreading.Prompts(w, s, t) {
      Spreading.ModelPairsAre(w, cfg, RealAgentStep.UNANSWERED, requests, pairs, s, t);
    }
    forall i | 0 <= i < |pairs|
      ensures Replies(w, cfg, model, used)(pairs[i].0, pairs[i].1) ==
        if used + i < model.budget then model.reply(w.tick, pairs[i].0, pairs[i].1) else RealAgentStep.NoResponse
    {
      if used + i < model.budget {
        assert let[i] == requests[i] && let[i] in let;
      } else {
        NotLet(requests, let, i);
      }
    }
  }

  /** What comes later in order is not among the first. */
  lemma NotLet(requests: seq<Attempts.Attempt>, let: seq<Attempts.Attempt>, i: nat)
    requires Spreading.InOrder(requests) && let <= requests && |let| <= i < |requests|
    ensures !exists a :: a in let && a.source == requests[i].source && a.target == requests[i].target
  {
    forall a | a in let ensures a.source != requests[i].source || a.target != requests[i].target {
      var j :| 0 <= j < |let| && let[j] == a;
      assert requests[j] == a;
    }
  }
}
