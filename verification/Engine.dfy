/** The scenario registry, one tick, and runs of ticks.
    backend/app/scenarios/registry.py, engine/tick.py, engine/simulate.py, engine/replay.py */
module Engine {
  import opened World
  import opened Runs
  import PropagationStep
  import AdaptiveAttackerStep
  import DetectionStep
  import SecurityPlaneSteps
  import RealAgentStep

  /** A name outside the synchronous registry is skipped. */
  function Scenario(w: World, cfg: Config, name: ScenarioName): StepResult {
    match name
    case Propagation => PropagationStep.Step(w, cfg)
    case AdaptiveAttacker => AdaptiveAttackerStep.Step(w, cfg)
    case SentinelCompromise => SecurityPlaneSteps.SentinelStep(w, cfg)
    case Attestation => SecurityPlaneSteps.AttestationStep(w, cfg)
    case ByzantineCollusion => SecurityPlaneSteps.CollusionStep(w, cfg)
    case PromptInjection => StepResult(w, [])
    case UnknownScenario(_) => StepResult(w, [])
  }

  function Scenarios(w: World, cfg: Config, names: seq<ScenarioName>): StepResult {
    if |names| == 0 then StepResult(w, []) else
      var earlier := Scenarios(w, cfg, names[..|names| - 1]);
      Concat(earlier, Scenario(earlier.world, cfg, names[|names| - 1]))
  }

  /** One tick: the active scenarios in list order, then detection. */
  function Advance(w: World, cfg: Config): StepResult {
    var s := Scenarios(w, cfg, cfg.activeScenarios);
    Concat(s, DetectionStep.Step(s.world, cfg))
  }

  /** n ticks from w. */
  function Run(w: World, cfg: Config, n: nat): StepResult {
    Iterate((v: World) => Advance(v, cfg), w, n)
  }

  /** The finest steps a run is made of. Everything proved about arbitrary sequences of these
      holds for every scenario list, every number of ticks and every mix with model answers. */
  datatype MicroStep =
    | RunScenario(name: ScenarioName)
    | Detect
    | AskModels(answers: RealAgentStep.Answers)

  function Micro(w: World, cfg: Config, m: MicroStep): StepResult {
    match m
    case RunScenario(name) => Scenario(w, cfg, name)
    case Detect => DetectionStep.Step(w, cfg)
    case AskModels(answers) => RealAgentStep.Step(w, cfg, answers)
  }

  function Micros(w: World, cfg: Config, ms: seq<MicroStep>): StepResult {
    Trace((v: World, m: MicroStep) => Micro(v, cfg, m), w, ms)
  }

  ghost predicate Synchronous(ms: seq<MicroStep>) {
    forall i | 0 <= i < |ms| :: !ms[i].AskModels?
  }

  function ScenarioSteps(names: seq<ScenarioName>): (ms: seq<MicroStep>)
    ensures Synchronous(ms)
  {
    seq(|names|, i requires 0 <= i < |names| => RunScenario(names[i]))
  }

  function TickSteps(cfg: Config): (ms: seq<MicroStep>)
    ensures Synchronous(ms)
  {
    ScenarioSteps(cfg.activeScenarios) + [Detect]
  }

  function RunSteps(cfg: Config, n: nat): (ms: seq<MicroStep>)
    ensures Synchronous(ms)
  {
    if n == 0 then [] else RunSteps(cfg, n - 1) + TickSteps(cfg)
  }

  lemma {:induction false} RunStepsRepeat(cfg: Config, n: nat)
    ensures RunSteps(cfg, n) == Repeat(TickSteps(cfg), n)
  {
    if n > 0 { RunStepsRepeat(cfg, n - 1); }
  }

  lemma RunScenarioIs(w: World, cfg: Config, name: ScenarioName)
    ensures Micro(w, cfg, RunScenario(name)) == Scenario(w, cfg, name)
  {
  }

  lemma {:induction false} ScenariosAreMicros(w: World, cfg: Config, names: seq<ScenarioName>)
    ensures Scenarios(w, cfg, names) == Micros(w, cfg, ScenarioSteps(names))
  {
    hide Scenario, Micro;
    if |names| > 0 {
      var n := |names| - 1;
      ScenariosAreMicros(w, cfg, names[..n]);
      RunScenarioIs(Scenarios(w, cfg, names[..n]).world, cfg, names[n]);
      assert ScenarioSteps(names)[..n] == ScenarioSteps(names[..n]);
    }
  }

  lemma AdvanceIsMicros(w: World, cfg: Config)
    ensures Advance(w, cfg) == Micros(w, cfg, TickSteps(cfg))
  {
    ScenariosAreMicros(w, cfg, cfg.activeScenarios);
    assert TickSteps(cfg)[..|cfg.activeScenarios|] == ScenarioSteps(cfg.activeScenarios);
  }

  /** Every run of ticks is a run of micro steps. */
  lemma RunIsMicros(w: World, cfg: Config, n: nat)
    ensures Run(w, cfg, n) == Micros(w, cfg, RunSteps(cfg, n))
  {
    RunStepsRepeat(cfg, n);
    var tick := (v: World) => Advance(v, cfg);
    var step := (v: World, m: MicroStep) => Micro(v, cfg, m);
    forall v ensures tick(v) == Trace(step, v, TickSteps(cfg)) { AdvanceIsMicros(v, cfg); }
    IterateIsTrace(tick, step, TickSteps(cfg), w, n);
  }

  // --- the loops themselves -----------------------------------------------------------------

  /** `scenario.step(state, config)` dispatched on the registered name. */
  method StepScenario(w: World, cfg: Config, name: ScenarioName) returns (r: StepResult)
    ensures r == Scenario(w, cfg, name)
  {
    match name
    case Propagation => r := PropagationStep.Advance(w, cfg);
    case AdaptiveAttacker => r := AdaptiveAttackerStep.Advance(w, cfg);
    case SentinelCompromise => r := SecurityPlaneSteps.SentinelAdvance(w, cfg);
    case Attestation => r := SecurityPlaneSteps.AttestationStep(w, cfg);
    case ByzantineCollusion => r := SecurityPlaneSteps.CollusionAdvance(w, cfg);
    case PromptInjection => r := StepResult(w, []);
    case UnknownScenario(_) => r := StepResult(w, []);
  }

  method RunSyncScenarios(w: World, cfg: Config) returns (r: StepResult)
    ensures r == Scenarios(w, cfg, cfg.activeScenarios)
  {
    var state, drafts := w, [];
    for i := 0 to |cfg.activeScenarios|
      invariant StepResult(state, drafts) == Scenarios(w, cfg, cfg.activeScenarios[..i])
    {
      var s := StepScenario(state, cfg, cfg.activeScenarios[i]);
      assert cfg.activeScenarios[..i + 1][..i] == cfg.activeScenarios[..i];
      state, drafts := s.world, drafts + s.drafts;
    }
    assert cfg.activeScenarios[..|cfg.activeScenarios|] == cfg.activeScenarios;
    r := StepResult(state, drafts);
  }

  method Tick(w: World, cfg: Config) returns (r: StepResult)
    ensures r == Advance(w, cfg)
  {
    var s := RunSyncScenarios(w, cfg);
    var d := DetectionStep.Advance(s.world, cfg);
    r := StepResult(d.world, s.drafts + d.drafts);
  }
}
