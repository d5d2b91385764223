/** A whole tick: which scenario a name runs, in what order, and what a tick of the default scenarios
    does to every agent. scenarios/registry.py:25-63, engine/tick.py. */
module Ticks {
  import opened World
  import opened Runs
  import opened Engine
  import AdaptiveAttackerStep
  import DetectionStep
  import Experiment
  import PropagationStep
  import SecurityPlaneSteps
  import Spreading
  import Watching

  /** The registry: the five synchronous names, and nothing for any other. */
  lemma RegistryIs(w: World, cfg: Config, name: ScenarioName)
    ensures Scenario(w, cfg, Propagation) == PropagationStep.Step(w, cfg)
    ensures Scenario(w, cfg, AdaptiveAttacker) == AdaptiveAttackerStep.Step(w, cfg)
    ensures Scenario(w, cfg, SentinelCompromise) == SecurityPlaneSteps.SentinelStep(w, cfg)
    ensures Scenario(w, cfg, Attestation) == SecurityPlaneSteps.AttestationStep(w, cfg)
    ensures Scenario(w, cfg, ByzantineCollusion) == SecurityPlaneSteps.CollusionStep(w, cfg)
    ensures name !in {Propagation, AdaptiveAttacker, SentinelCompromise, Attestation, ByzantineCollusion} ==>
      Scenario(w, cfg, name) == StepResult(w, [])
  {
    hide PropagationStep.Step, AdaptiveAttackerStep.Step, SecurityPlaneSteps.SentinelStep, SecurityPlaneSteps.AttestationStep, SecurityPlaneSteps.CollusionStep;
  }

  /** The active scenarios from the first on, each on the world the one before left. */
  function InListOrder(w: World, cfg: Config, names: seq<ScenarioName>): StepResult
    decreases |names|
  {
    if |names| == 0 then StepResult(w, []) else
      var first := Scenario(w, cfg, names[0]);
      Concat(first, InListOrder(first.world, cfg, names[1..]))
  }

  lemma {:induction false} OneByOne(w: World, cfg: Config, done: seq<ScenarioName>, rest: seq<ScenarioName>)
    ensures var d := Scenarios(w, cfg, done); Scenarios(w, cfg, done + rest) == Concat(d, InListOrder(d.world, cfg, rest))
    decreases |rest|
  {
    hide Scenario;
    var d := Scenarios(w, cfg, done);
    if |rest| == 0 {
      assert done + rest == done && d.drafts + [] == d.drafts;
    } else {
      var more := done + [rest[0]];
      assert more[..|done|] == done && more + rest[1..] == done + rest;
      OneByOne(w, cfg, more, rest[1..]);
      var s := Scenario(d.world, cfg, rest[0]);
      var tail := InListOrder(s.world, cfg, rest[1..]);
      assert (d.drafts + s.drafts) + tail.drafts == d.drafts + (s.drafts + tail.drafts);
    }
  }

  /** A tick runs the scenarios in list order and then detection on what they left, and reports in
      that order. */
  lemma TickIs(w: World, cfg: Config)
    ensures var s := InListOrder(w, cfg, cfg.activeScenarios); var d := DetectionStep.Step(s.world, cfg);
      Advance(w, cfg) == StepResult(d.world, s.drafts + d.drafts)
  {
    hide Scenario, DetectionStep.Step;
    OneByOne(w, cfg, [], cfg.activeScenarios);
    assert [] + cfg.activeScenarios == cfg.activeScenarios;
    var s := InListOrder(w, cfg, cfg.activeScenarios);
    assert [] + s.drafts == s.drafts;
  }

  /** The world after the spreading of a tick of the default scenarios. */
  function Spread(w: World, cfg: Config): World { PropagationStep.Step(w, cfg).world }

  /** One agent over a tick of the default scenarios: it may fall to a neighbour, and whoever is
      compromised or healthy after that may be confined. */
  lemma DefaultTick(w: World, cfg: Config, a: AgentId)
    requires cfg.activeScenarios == [Propagation, PromptInjection] && a in w.nodes
    ensures var u, v := Spread(w, cfg), Advance(w, cfg).world;
      && v.tick == w.tick + 1 && v.edges == w.edges && v.compromisedGraph == w.compromisedGraph && v.nodes.Keys == w.nodes.Keys
      && a in u.nodes && u.tick == w.tick + 1
      && u.nodes[a].state == (if exists s :: Spreading.Infects(w, cfg, s, a) then Compromised else w.nodes[a].state)
      && v.nodes[a] == if cfg.defenseEnabled && (Watching.IsDetected(u, cfg, a) || Watching.IsAccused(u, cfg, a)) then u.nodes[a].(state := Quarantined) else u.nodes[a]
  {
    hide PropagationStep.Step, DetectionStep.Step, Spreading.Infects, Watching.IsDetected, Watching.IsAccused;
    TickIs(w, cfg);
    var u := Spread(w, cfg);
    assert InListOrder(w, cfg, [Propagation, PromptInjection]).world == u by {
      assert [Propagation, PromptInjection][1..] == [PromptInjection] && [PromptInjection][1..] == [];
      RegistryIs(w, cfg, PromptInjection);
      RegistryIs(u, cfg, PromptInjection);
    }
    Spreading.PropagationTick(w, cfg, a);
    Watching.DetectionTick(u, cfg, a);
  }

  /** Propagation and the adaptive attacker own the clock: a list does if it names either, and a tick
      moves the clock by as many places as they are named in. */
  lemma {:induction false} OwnersAre(names: seq<ScenarioName>)
    ensures Experiment.Owners(names) > 0 <==> Propagation in names || AdaptiveAttacker in names
    ensures Experiment.Owners(names) == |Owning(names)|
  {
    hide Owning;
    if |names| == 0 {
      OwningNone(names);
    } else {
      OwnersAre(names[..|names| - 1]);
      assert names == names[..|names| - 1] + [names[|names| - 1]];
      OwningNext(names);
    }
  }

  function Owning(names: seq<ScenarioName>): set<int> {
    set i | 0 <= i < |names| && (names[i] == Propagation || names[i] == AdaptiveAttacker)
  }

  lemma OwningNone(names: seq<ScenarioName>)
    requires |names| == 0
    ensures Owning(names) == {}
  {
  }

  lemma OwningNext(names: seq<ScenarioName>)
    requires |names| > 0
    ensures var n := |names| - 1;
      |Owning(names)| == |Owning(names[..n])| + (if names[n] == Propagation || names[n] == AdaptiveAttacker then 1 else 0)
  {
    var n := |names| - 1;
    assert Owning(names) == Owning(names[..n]) + (if names[n] == Propagation || names[n] == AdaptiveAttacker then {n} else {});
    assert n !in Owning(names[..n]);
  }
}
