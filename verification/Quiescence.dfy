/** Once no healthy agent borders a compromised one, the outbreak is over for good. */
module Quiescence {
  import opened World
  import opened Attempts
  import opened Runs
  import opened Engine
  import opened Effects
  import DetectionStep
  import PropagationStep

  /** v is a later state of the quiet world w in which nobody new was ever compromised. */
  ghost predicate StillOver(w: World, v: World) {
    && PropagationStep.Quiet(v)
    && v.nodes.Keys == w.nodes.Keys
    && EverCompromised(v) == EverCompromised(w)
    && CompromisedAgents(v) <= CompromisedAgents(w)
    && HealthyAgents(v) <= HealthyAgents(w)
  }

  lemma NobodyInfected(v: World, cfg: Config, u: World)
    requires PropagationStep.Quiet(v) && Evolves(v, cfg, u)
    ensures forall a | a in v.nodes :: u.nodes[a] == v.nodes[a] || Isolated(v, cfg, v.nodes[a], u.nodes[a], a)
  {
    hide DetectionStep.Suppressed, Isolated;
    forall a | a in v.nodes ensures u.nodes[a] == v.nodes[a] || Isolated(v, cfg, v.nodes[a], u.nodes[a], a) {
      assert !Infected(v, v.nodes[a], u.nodes[a], a);
    }
  }

  lemma QuietStep(w: World, v: World, cfg: Config, u: World)
    requires StillOver(w, v) && Evolves(v, cfg, u)
    ensures StillOver(w, u)
  {
    hide DetectionStep.Suppressed;
    NobodyInfected(v, cfg, u);
    OnlyIsolation(v, cfg, u);
  }

  /** Isolation alone keeps the records, adds nobody to either side, and so stays quiet. */
  lemma OnlyIsolation(v: World, cfg: Config, u: World)
    requires PropagationStep.Quiet(v) && Evolves(v, cfg, u)
    requires forall a | a in v.nodes :: u.nodes[a] == v.nodes[a] || Isolated(v, cfg, v.nodes[a], u.nodes[a], a)
    ensures StillOver(v, u)
  {
    hide DetectionStep.Suppressed, Evolves;
    assert u.nodes.Keys == v.nodes.Keys by { SameKeys(v, cfg, u); }
  }

  lemma SameKeys(v: World, cfg: Config, u: World)
    requires Evolves(v, cfg, u)
    ensures u.nodes.Keys == v.nodes.Keys
  {
  }

  /** No sequence of later steps, detection, false quarantine and model answers included,
      compromises another agent. */
  lemma QuietForever(w: World, cfg: Config, ms: seq<MicroStep>)
    requires PropagationStep.Quiet(w)
    ensures StillOver(w, Micros(w, cfg, ms).world)
  {
    var step := (v: World, m: MicroStep) => Micro(v, cfg, m);
    var inv := (r: StepResult) => StillOver(w, r.world);
    forall r: StepResult, m: MicroStep | inv(r) ensures inv(Concat(r, step(r.world, m))) {
      MicroEvolves(r.world, cfg, m);
      QuietStep(w, r.world, cfg, Micro(r.world, cfg, m).world);
    }
    TraceInduction(step, m => true, inv, w, ms);
  }

  /** The condition is not idle: an edge from a compromised to a healthy agent that is not
      reserved for the model step infects its target whenever its draw is below p. */
  lemma FrontierSpreads(w: World, cfg: Config, a: AgentId, b: AgentId)
    requires a in CompromisedAgents(w) && b in HealthyNeighbors(w, a) && !PropagationStep.Skipped(w, a, b)
    requires cfg.draw(w.tick, InfectDraw(a, b)) < Probability(w, cfg, a, b)
    ensures b in CompromisedAgents(PropagationStep.Step(w, cfg).world)
  {
    var attempts := PropagationStep.AllAttempts(w, cfg);
    var x := PropagationStep.MakeAttempt(w, cfg, a, b);
    PropagationStep.AttemptsAreTheFrontier(w, cfg);
    assert x in attempts;
    var i :| 0 <= i < |attempts| && attempts[i] == x;
    ClaimsAreFirstHits(attempts);
    assert attempts[i].hit && attempts[i].target == b;
  }
}
