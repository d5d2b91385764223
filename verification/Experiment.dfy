/** A whole synchronous experiment: the tick-0 world, then n ticks, with the complete log.
    engine/simulate.py and engine/replay.py. */
module Experiment {
  import opened Wrappers
  import opened Ordering
  import opened World
  import opened Runs
  import opened Engine
  import opened Effects
  import opened EventSourcing
  import Topology

  /** What an experiment starts from. */
  datatype Setup = Setup(ids: set<AgentId>, links: set<(AgentId, AgentId)>, cfg: Config)

  predicate Valid(s: Setup) {
    s.ids != {} && s.cfg.softwareTypeCount > 0 && Topology.Closed(s.ids, s.links)
  }

  function Start(s: Setup): StepResult
    requires Valid(s)
  {
    StepResult(Topology.InitialWorld(s.ids, s.links, s.cfg),
               [Draft(0, ExperimentStarted)] + Topology.TopologyDrafts(s.ids, s.links, s.cfg))
  }

  /** World and log n ticks after an arbitrary world and log. */
  function From(base: StepResult, cfg: Config, n: nat): StepResult {
    Concat(base, Run(base.world, cfg, n))
  }

  /** World and log of an experiment after n ticks. */
  function After(s: Setup, n: nat): StepResult
    requires Valid(s)
  {
    From(Start(s), s.cfg, n)
  }

  /** World and log after arbitrary micro steps. */
  function AfterMicros(s: Setup, ms: seq<MicroStep>): StepResult
    requires Valid(s)
  {
    Concat(Start(s), Micros(Start(s).world, s.cfg, ms))
  }

  lemma AfterIsMicros(s: Setup, n: nat)
    requires Valid(s)
    ensures After(s, n) == AfterMicros(s, RunSteps(s.cfg, n))
  {
    RunIsMicros(Start(s).world, s.cfg, n);
  }

  lemma FromNext(base: StepResult, cfg: Config, n: nat)
    ensures From(base, cfg, n + 1) == Concat(From(base, cfg, n), Advance(From(base, cfg, n).world, cfg))
    ensures From(base, cfg, 0) == base
  {
    IterateNext((v: World) => Advance(v, cfg), base, n);
  }

  // --- the log rebuilds the world -----------------------------------------------------------

  const FRESH: AgentView := AgentView(Healthy, None, None)

  lemma {:induction false} CreationFold(w: World, sorted: seq<AgentId>)
    requires forall n | n in sorted :: n in w.nodes
    ensures Fold(map[], Topology.CreationDrafts(w, sorted)) == map n | n in sorted :: FRESH
    ensures FoldGraph({}, Topology.CreationDrafts(w, sorted)) == {}
  {
    if |sorted| > 0 {
      var earlier, n := sorted[..|sorted| - 1], sorted[|sorted| - 1];
      assert sorted == earlier + [n];
      assert n in sorted;
      CreationFold(w, earlier);
      var d := Draft(0, AgentCreated(n, w.nodes[n].softwareType));
      FoldAppend(map[], {}, Topology.CreationDrafts(w, earlier), [d]);
      FoldOne(Fold(map[], Topology.CreationDrafts(w, earlier)), {}, d);
    }
  }

  lemma SeededView(w: World, ids: set<AgentId>, links: set<(AgentId, AgentId)>, seed: AgentId, sorted: seq<AgentId>)
    requires Topology.FreshWorld(w, ids, links, seed) && seed in ids && forall n :: n in sorted <==> n in ids
    ensures (map n | n in sorted :: FRESH)[seed := AgentView(Compromised, None, Some(0))] == ViewOf(w.nodes)
  {
  }

  lemma SetupFold(w: World, sorted: seq<AgentId>, seed: AgentId)
    requires forall n | n in sorted :: n in w.nodes
    ensures var log := [Draft(0, ExperimentStarted)] +
        (Topology.CreationDrafts(w, sorted) + [Draft(0, CompromiseSucceeded(None, seed, false))]);
      && Fold(map[], log) == (map n | n in sorted :: FRESH)[seed := AgentView(Compromised, None, Some(0))]
      && FoldGraph({}, log) == {}
  {
    var creation := Topology.CreationDrafts(w, sorted);
    var first, last := Draft(0, ExperimentStarted), Draft(0, CompromiseSucceeded(None, seed, false));
    CreationFold(w, sorted);
    FoldOne(map[], {}, first);
    FoldOne(Fold(map[], creation), {}, last);
    FoldAppend(map[], {}, [first], creation + [last]);
    FoldAppend(map[], {}, creation, [last]);
  }

  lemma StartExplained(s: Setup)
    requires Valid(s)
    ensures Fold(map[], Start(s).drafts) == ViewOf(Start(s).world.nodes)
    ensures FoldGraph({}, Start(s).drafts) == Start(s).world.compromisedGraph
  {
    var seed := Topology.SeedNode(s.ids, s.links, s.cfg);
    Topology.InitialWorldShape(s.ids, s.links, s.cfg);
    SetupFold(Start(s).world, Sorted(s.ids), seed);
    SeededView(Start(s).world, s.ids, s.links, seed, Sorted(s.ids));
  }

  /** For every mix of scenarios, detection and model answers, folding the whole log from
      nothing gives every agent's state, attacker and compromise tick. */
  lemma LogRebuildsAgents(s: Setup, ms: seq<MicroStep>)
    requires Valid(s)
    ensures Fold(map[], AfterMicros(s, ms).drafts) == ViewOf(AfterMicros(s, ms).world.nodes)
  {
    StartExplained(s);
    RunExplainsNodes(Start(s).world, s.cfg, ms);
    FoldAppend(map[], {}, Start(s).drafts, Micros(Start(s).world, s.cfg, ms).drafts);
  }

  /** For synchronous runs the fold gives the compromised graph nodes too. */
  lemma LogRebuildsGraph(s: Setup, ms: seq<MicroStep>)
    requires Valid(s) && Synchronous(ms)
    ensures FoldGraph({}, AfterMicros(s, ms).drafts) == AfterMicros(s, ms).world.compromisedGraph
  {
    StartExplained(s);
    RunExplainsGraph(Start(s).world, s.cfg, ms);
    FoldAppend(map[], {}, Start(s).drafts, Micros(Start(s).world, s.cfg, ms).drafts);
  }

  /** Event sourcing of the simulator, at every tick of every experiment. */
  lemma LogRebuildsWorld(s: Setup, n: nat)
    requires Valid(s)
    ensures Fold(map[], After(s, n).drafts) == ViewOf(After(s, n).world.nodes)
    ensures FoldGraph({}, After(s, n).drafts) == After(s, n).world.compromisedGraph
  {
    AfterIsMicros(s, n);
    LogRebuildsAgents(s, RunSteps(s.cfg, n));
    LogRebuildsGraph(s, RunSteps(s.cfg, n));
  }

  // --- the clock ------------------------------------------------------------------------------

  function Owners(names: seq<ScenarioName>): nat {
    if |names| == 0 then 0 else Owners(names[..|names| - 1]) + (if OwnsTick(names[|names| - 1]) then 1 else 0)
  }

  /** Some active scenario moves the clock. */
  predicate OwnsClock(cfg: Config) { Owners(cfg.activeScenarios) > 0 }

  lemma {:induction false} ScenariosClock(w: World, cfg: Config, names: seq<ScenarioName>)
    ensures Scenarios(w, cfg, names).world.tick == w.tick + Owners(names)
  {
    if |names| > 0 {
      ScenariosClock(w, cfg, names[..|names| - 1]);
      var earlier := Scenarios(w, cfg, names[..|names| - 1]).world;
      MicroEffect(earlier, cfg, RunScenario(names[|names| - 1]));
    }
  }

  lemma AdvanceClock(w: World, cfg: Config)
    ensures Advance(w, cfg).world.tick == w.tick + Owners(cfg.activeScenarios)
  {
    ScenariosClock(w, cfg, cfg.activeScenarios);
    MicroEffect(Scenarios(w, cfg, cfg.activeScenarios).world, cfg, Detect);
  }

  lemma RunClock(w: World, cfg: Config, n: nat)
    ensures Run(w, cfg, n).world.tick == w.tick + n * Owners(cfg.activeScenarios)
  {
    var tick := (v: World) => Advance(v, cfg);
    forall v ensures tick(v).world.tick == v.tick + Owners(cfg.activeScenarios) { AdvanceClock(v, cfg); }
    IterateClock(tick, w, n, Owners(cfg.activeScenarios));
  }

  /** n ticks move the clock by n times the number of scenarios that own it. */
  lemma Clock(base: StepResult, cfg: Config, n: nat)
    ensures From(base, cfg, n).world.tick == base.world.tick + n * Owners(cfg.activeScenarios)
  {
    RunClock(base.world, cfg, n);
  }
}
