/** Which kinds of draft a run of steps can emit: the life-cycle events are not among them. */
module EngineDrafts {
  import opened Ordering
  import opened World
  import opened Attempts
  import opened Runs
  import opened Engine
  import DetectionStep
  import PropagationStep
  import AdaptiveAttackerStep
  import SecurityPlaneSteps
  import RealAgentStep
  import Topology
  import Experiment

  predicate LifeCycle(d: Draft) { d.kind.ExperimentStarted? || d.kind.ExperimentStopped? }

  ghost predicate NoLifeCycle(ds: seq<Draft>) { forall d | d in ds :: !LifeCycle(d) }

  lemma {:induction false} OutcomesPlain(tick: nat, attempts: seq<Attempt>)
    ensures NoLifeCycle(Drafts(tick, attempts))
  {
    if |attempts| > 0 { OutcomesPlain(tick, attempts[..|attempts| - 1]); }
  }

  lemma {:induction false} DetectionPlain(w: World, cfg: Config, ids: seq<AgentId>)
    ensures NoLifeCycle(DetectionStep.HitDrafts(w, cfg, ids)) && NoLifeCycle(DetectionStep.FalseDrafts(w, cfg, ids))
  {
    if |ids| > 0 { DetectionPlain(w, cfg, ids[..|ids| - 1]); }
  }

  lemma {:induction false} SubvertPlain(w: World, cfg: Config, n: nat)
    ensures NoLifeCycle(SecurityPlaneSteps.SubvertDrafts(w, cfg, n))
  {
    if n > 0 { SubvertPlain(w, cfg, n - 1); }
  }

  lemma {:induction false} PoisonPlain(w: World, bad: set<NodeId>, n: nat)
    ensures NoLifeCycle(SecurityPlaneSteps.PoisonDrafts(w, bad, n))
  {
    if n > 0 { PoisonPlain(w, bad, n - 1); }
  }

  lemma {:induction false} AttestationPlain(w: World, cfg: Config, ids: seq<AgentId>)
    ensures NoLifeCycle(SecurityPlaneSteps.AttestationDrafts(w, cfg, ids))
  {
    if |ids| > 0 { AttestationPlain(w, cfg, ids[..|ids| - 1]); }
  }

  lemma {:induction false} CollusionPlain(w: World, cfg: Config, ids: seq<AgentId>, pairs: nat)
    requires 2 * pairs <= |ids|
    ensures NoLifeCycle(SecurityPlaneSteps.CollusionDrafts(w, cfg, ids, pairs))
  {
    if pairs > 0 { CollusionPlain(w, cfg, ids, pairs - 1); }
  }

  lemma {:induction false} ModelsPlain(tick: nat, answers: RealAgentStep.Answers, attempts: seq<Attempt>)
    ensures NoLifeCycle(RealAgentStep.ModelDrafts(tick, answers, attempts))
  {
    if |attempts| > 0 { ModelsPlain(tick, answers, attempts[..|attempts| - 1]); }
  }

  lemma ScenarioPlain(w: World, cfg: Config, name: ScenarioName)
    ensures NoLifeCycle(Scenario(w, cfg, name).drafts)
  {
    hide Sorted;
    var ids := Sorted(CompromisedAgents(w));
    var k := SecurityPlaneSteps.Sentinels(w, cfg);
    match name
    case Propagation => OutcomesPlain(w.tick, PropagationStep.AllAttempts(w, cfg));
    case AdaptiveAttacker => OutcomesPlain(w.tick, AdaptiveAttackerStep.AllAttempts(w, cfg));
    case SentinelCompromise =>
      SubvertPlain(w, cfg, k);
      PoisonPlain(w, w.compromisedGraph + SecurityPlaneSteps.Subverted(w, cfg, k), k);
    case Attestation => AttestationPlain(w, cfg, ids);
    case ByzantineCollusion => CollusionPlain(w, cfg, ids, |ids| / 2);
    case _ =>
  }

  lemma MicroPlain(w: World, cfg: Config, m: MicroStep)
    ensures NoLifeCycle(Micro(w, cfg, m).drafts)
  {
    hide Sorted, Scenario;
    match m
    case RunScenario(name) => ScenarioPlain(w, cfg, name);
    case Detect =>
      DetectionPlain(w, cfg, Sorted(DetectionStep.Candidates(w, cfg)));
      DetectionPlain(w, cfg, Sorted(DetectionStep.Accusable(w, cfg)));
    case AskModels(answers) => ModelsPlain(w.tick, answers, RealAgentStep.AllAttempts(w, cfg, answers));
  }

  /** No run of steps, in any mix, emits a life-cycle event. */
  lemma RunPlain(w: World, cfg: Config, ms: seq<MicroStep>)
    ensures NoLifeCycle(Micros(w, cfg, ms).drafts)
  {
    hide Micro;
    var step := (v: World, m: MicroStep) => Micro(v, cfg, m);
    var inv := (r: StepResult) => NoLifeCycle(r.drafts);
    forall r: StepResult, m: MicroStep | inv(r) ensures inv(Concat(r, step(r.world, m))) {
      MicroPlain(r.world, cfg, m);
    }
    TraceInduction(step, m => true, inv, w, ms);
  }

  lemma {:induction false} CreationPlain(w: World, sorted: seq<AgentId>)
    requires forall n | n in sorted :: n in w.nodes
    ensures NoLifeCycle(Topology.CreationDrafts(w, sorted))
  {
    if |sorted| > 0 { CreationPlain(w, sorted[..|sorted| - 1]); }
  }

  lemma StartPlain(s: Experiment.Setup)
    requires Experiment.Valid(s)
    ensures var log := Experiment.Start(s).drafts; |log| > 0 && log[0].kind.ExperimentStarted? && NoLifeCycle(log[1..])
  {
    hide Sorted;
    CreationPlain(Experiment.Start(s).world, Sorted(s.ids));
    assert Experiment.Start(s).drafts[1..] == Topology.TopologyDrafts(s.ids, s.links, s.cfg);
  }

  lemma TailPlain(a: seq<Draft>, b: seq<Draft>)
    requires |a| > 0 && NoLifeCycle(a[1..]) && NoLifeCycle(b)
    ensures (a + b)[0] == a[0] && NoLifeCycle((a + b)[1..])
  {
    assert (a + b)[1..] == a[1..] + b;
  }

  /** EXPERIMENT_STARTED opens the log of an experiment, and no life-cycle event follows. */
  lemma ExperimentPlain(s: Experiment.Setup, ms: seq<MicroStep>)
    requires Experiment.Valid(s)
    ensures var log := Experiment.AfterMicros(s, ms).drafts;
      |log| > 0 && log[0].kind.ExperimentStarted? && NoLifeCycle(log[1..])
  {
    hide Micros, NoLifeCycle, Experiment.Start;
    StartPlain(s);
    RunPlain(Experiment.Start(s).world, s.cfg, ms);
    TailPlain(Experiment.Start(s).drafts, Micros(Experiment.Start(s).world, s.cfg, ms).drafts);
  }
}
