/** What any micro step can do to the agents: spread along healthy neighbours of compromised
    agents, confine unsuppressed compromised or healthy ones, or nothing. */
module Effects {
  import opened Wrappers
  import opened World
  import opened Attempts
  import opened Engine
  import DetectionStep
  import PropagationStep
  import AdaptiveAttackerStep
  import RealAgentStep
  import SecurityPlaneSteps

  datatype Effect = Spread(claims: map<AgentId, AgentId>) | Confined(who: set<AgentId>) | Untouched

  function EffectOf(w: World, cfg: Config, m: MicroStep): Effect {
    match m
    case RunScenario(Propagation) => Spread(Claims(PropagationStep.AllAttempts(w, cfg)))
    case RunScenario(AdaptiveAttacker) => Spread(Claims(AdaptiveAttackerStep.AllAttempts(w, cfg)))
    case RunScenario(_) => Untouched
    case Detect => if cfg.defenseEnabled then Confined(DetectionStep.Caught(w, cfg)) else Untouched
    case AskModels(answers) => Spread(Claims(RealAgentStep.AllAttempts(w, cfg, answers)))
  }

  function Apply(w: World, e: Effect): map<AgentId, Agent> {
    match e
    case Spread(claims) => Infect(w.nodes, claims, w.tick)
    case Confined(who) => DetectionStep.Confine(w.nodes, who)
    case Untouched => w.nodes
  }

  ghost predicate Legal(w: World, cfg: Config, e: Effect) {
    match e
    case Spread(claims) =>
      forall t | t in claims :: claims[t] in CompromisedAgents(w) && t in HealthyNeighbors(w, claims[t])
    case Confined(who) =>
      forall a | a in who :: a in HealthyAgents(w) || (a in CompromisedAgents(w) && a !in DetectionStep.Suppressed(w, cfg))
    case Untouched => true
  }

  predicate OwnsTick(name: ScenarioName) {
    name == Propagation || name == AdaptiveAttacker
  }

  predicate MovesClock(m: MicroStep) {
    m.RunScenario? && OwnsTick(m.name)
  }

  /** r is w after the legal effect e; links never change, the clock moves only under the two
      attackers, and only a model step can shrink the record of compromised graph nodes. */
  ghost predicate Conforms(w: World, cfg: Config, m: MicroStep, e: Effect, r: World) {
    && Legal(w, cfg, e)
    && r.nodes == Apply(w, e)
    && r.edges == w.edges
    && r.tick == w.tick + (if MovesClock(m) then 1 else 0)
    && (!m.AskModels? ==> w.compromisedGraph <= r.compromisedGraph)
  }

  lemma PropagationConforms(w: World, cfg: Config)
    ensures Conforms(w, cfg, RunScenario(Propagation), Spread(Claims(PropagationStep.AllAttempts(w, cfg))),
                     PropagationStep.Step(w, cfg).world)
  {
    var claims := Claims(PropagationStep.AllAttempts(w, cfg));
    PropagationStep.ClaimedTargets(w, cfg);
    forall t | t in claims ensures claims[t] in CompromisedAgents(w) && t in HealthyNeighbors(w, claims[t]) {
      assert PropagationStep.Eligible(w, Attempt(claims[t], t, 0.0, true));
    }
  }

  lemma AdaptiveConforms(w: World, cfg: Config)
    ensures Conforms(w, cfg, RunScenario(AdaptiveAttacker), Spread(Claims(AdaptiveAttackerStep.AllAttempts(w, cfg))),
                     AdaptiveAttackerStep.Step(w, cfg).world)
  {
    AdaptiveAttackerStep.ClaimedTargets(w, cfg);
  }

  lemma DetectConforms(w: World, cfg: Config)
    ensures Conforms(w, cfg, Detect, if cfg.defenseEnabled then Confined(DetectionStep.Caught(w, cfg)) else Untouched,
                     DetectionStep.Step(w, cfg).world)
  {
    forall a | a in DetectionStep.Caught(w, cfg)
      ensures a in HealthyAgents(w) || (a in CompromisedAgents(w) && a !in DetectionStep.Suppressed(w, cfg))
    {
      DetectionStep.CaughtMeaning(w, cfg, a);
    }
  }

  lemma ModelConforms(w: World, cfg: Config, answers: RealAgentStep.Answers)
    ensures Conforms(w, cfg, AskModels(answers), Spread(Claims(RealAgentStep.AllAttempts(w, cfg, answers))),
                     RealAgentStep.Step(w, cfg, answers).world)
  {
    hide RealAgentStep.AllAttempts, RealAgentStep.ModelDrafts;
    RealAgentStep.ClaimedTargets(w, cfg, answers);
    var claims := Claims(RealAgentStep.AllAttempts(w, cfg, answers));
    if claims.Keys == {} {
      assert Infect(w.nodes, claims, w.tick) == w.nodes;
    }
  }

  lemma SentinelConforms(w: World, cfg: Config)
    ensures Conforms(w, cfg, RunScenario(SentinelCompromise), Untouched, SecurityPlaneSteps.SentinelStep(w, cfg).world)
  {
  }

  lemma CollusionConforms(w: World, cfg: Config)
    ensures Conforms(w, cfg, RunScenario(ByzantineCollusion), Untouched, SecurityPlaneSteps.CollusionStep(w, cfg).world)
  {
  }

  lemma PlaneConforms(w: World, cfg: Config, name: ScenarioName)
    requires !OwnsTick(name)
    ensures Conforms(w, cfg, RunScenario(name), Untouched, Scenario(w, cfg, name).world)
  {
    if name == SentinelCompromise { SentinelConforms(w, cfg); }
    else if name == ByzantineCollusion { CollusionConforms(w, cfg); }
    else { assert Scenario(w, cfg, name).world == w; }
  }

  /** Every micro step is one legal effect on the agents. */
  lemma MicroEffect(w: World, cfg: Config, m: MicroStep)
    ensures Conforms(w, cfg, m, EffectOf(w, cfg, m), Micro(w, cfg, m).world)
  {
    match m
    case RunScenario(name) =>
      if name == Propagation { PropagationConforms(w, cfg); }
      else if name == AdaptiveAttacker { AdaptiveConforms(w, cfg); }
      else { PlaneConforms(w, cfg, name); }
    case Detect => DetectConforms(w, cfg);
    case AskModels(answers) => ModelConforms(w, cfg, answers);
  }

  // --- one agent's transitions --------------------------------------------------------------

  /** s compromised a in this very step. */
  ghost predicate Infected(w: World, before: Agent, after: Agent, a: AgentId) {
    && before.state == Healthy && after.compromisedBy.Some?
    && after.compromisedBy.value in CompromisedAgents(w)
    && a in HealthyNeighbors(w, after.compromisedBy.value)
    && after == before.(state := Compromised, compromisedBy := after.compromisedBy, tickCompromised := Some(w.tick))
  }

  ghost predicate Isolated(w: World, cfg: Config, before: Agent, after: Agent, a: AgentId) {
    && (before.state == Healthy || (before.state == Compromised && a !in DetectionStep.Suppressed(w, cfg)))
    && after == before.(state := Quarantined)
  }

  /** In one micro step an agent stays as it was, is infected by a compromised neighbour, or
      is isolated; nothing else ever happens to it. */
  lemma MicroTransition(w: World, cfg: Config, m: MicroStep, a: AgentId)
    requires a in w.nodes
    ensures var r := Micro(w, cfg, m).world;
      && r.nodes.Keys == w.nodes.Keys
      && (|| r.nodes[a] == w.nodes[a]
          || ((MovesClock(m) || m.AskModels?) && Infected(w, w.nodes[a], r.nodes[a], a))
          || (m == Detect && Isolated(w, cfg, w.nodes[a], r.nodes[a], a)))
  {
    MicroEffect(w, cfg, m);
    match EffectOf(w, cfg, m)
    case Spread(claims) => if a in claims { assert Infected(w, w.nodes[a], Micro(w, cfg, m).world.nodes[a], a); }
    case Confined(who) => if a in who { assert a in HealthyAgents(w) || a in CompromisedAgents(w); }
    case Untouched =>
  }

  /** v follows w by one micro step, as far as any one agent can tell. */
  ghost predicate Evolves(w: World, cfg: Config, v: World) {
    && v.nodes.Keys == w.nodes.Keys && v.edges == w.edges && w.tick <= v.tick
    && forall a | a in w.nodes ::
         || v.nodes[a] == w.nodes[a]
         || Infected(w, w.nodes[a], v.nodes[a], a)
         || Isolated(w, cfg, w.nodes[a], v.nodes[a], a)
  }

  lemma MicroEvolves(w: World, cfg: Config, m: MicroStep)
    ensures Evolves(w, cfg, Micro(w, cfg, m).world)
  {
    MicroEffect(w, cfg, m);
    forall a | a in w.nodes
      ensures || Micro(w, cfg, m).world.nodes[a] == w.nodes[a]
              || Infected(w, w.nodes[a], Micro(w, cfg, m).world.nodes[a], a)
              || Isolated(w, cfg, w.nodes[a], Micro(w, cfg, m).world.nodes[a], a)
    {
      MicroTransition(w, cfg, m, a);
    }
  }

  predicate SameIdentity(a: Agent, b: Agent) {
    a.softwareType == b.softwareType && a.neighbors == b.neighbors && a.isReal == b.isReal
  }
}
