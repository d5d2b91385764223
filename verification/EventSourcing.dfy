/** The draft log reconstructs the world: agents from COMPROMISE_SUCCEEDED (unflagged) and
    AGENT_QUARANTINED, compromised graph nodes from POLICY_VIOLATION. */
module EventSourcing {
  import opened Wrappers
  import opened Ordering
  import opened World
  import opened Attempts
  import opened Runs
  import opened Engine
  import Folds
  import PropagationStep
  import AdaptiveAttackerStep
  import DetectionStep
  import SecurityPlaneSteps
  import RealAgentStep
  import Effects

  datatype AgentView = AgentView(state: SecurityState, compromisedBy: Option<AgentId>, tickCompromised: Option<nat>)

  type View = map<AgentId, AgentView>

  function ViewOf(nodes: map<AgentId, Agent>): (v: View)
    ensures v.Keys == nodes.Keys
  {
    map a | a in nodes :: AgentView(nodes[a].state, nodes[a].compromisedBy, nodes[a].tickCompromised)
  }

  /** The reducer: one draft's effect on what is known of the agents. */
  function Reduce(v: View, d: Draft): View {
    match d.kind
    case AgentCreated(a, _) => v[a := AgentView(Healthy, None, None)]
    case CompromiseSucceeded(attacker, t, already) =>
      if already then v else v[t := AgentView(Compromised, attacker, Some(d.tick))]
    case AgentQuarantined(a, _) => if a in v then v[a := v[a].(state := Quarantined)] else v
    case _ => v
  }

  function Fold(v: View, ds: seq<Draft>): View { Folds.Fold(Reduce, v, ds) }

  function ReduceGraph(s: set<NodeId>, d: Draft): set<NodeId> {
    if d.kind.PolicyViolation? then s + {d.kind.subject} else s
  }

  function FoldGraph(s: set<NodeId>, ds: seq<Draft>): set<NodeId> { Folds.Fold(ReduceGraph, s, ds) }

  lemma FoldAppend(v: View, s: set<NodeId>, a: seq<Draft>, b: seq<Draft>)
    ensures Fold(v, a + b) == Fold(Fold(v, a), b)
    ensures FoldGraph(s, a + b) == FoldGraph(FoldGraph(s, a), b)
  {
    Folds.FoldAppend(Reduce, v, a, b);
    Folds.FoldAppend(ReduceGraph, s, a, b);
  }

  lemma FoldOne(v: View, s: set<NodeId>, d: Draft)
    ensures Fold(v, [d]) == Reduce(v, d) && FoldGraph(s, [d]) == ReduceGraph(s, d)
  {
    hide Reduce, ReduceGraph;
    Folds.FoldNext(Reduce, v, [], d);
    Folds.FoldNext(ReduceGraph, s, [], d);
  }

  lemma FoldTwo(v: View, s: set<NodeId>, d1: Draft, d2: Draft)
    ensures Fold(v, [d1, d2]) == Reduce(Reduce(v, d1), d2)
    ensures FoldGraph(s, [d1, d2]) == ReduceGraph(ReduceGraph(s, d1), d2)
  {
    hide Fold, FoldGraph, Reduce, ReduceGraph;
    assert [d1, d2] == [d1] + [d2];
    FoldAppend(v, s, [d1], [d2]);
    FoldOne(v, s, d1);
    FoldOne(Reduce(v, d1), ReduceGraph(s, d1), d2);
  }

  lemma FoldNone(v: View, s: set<NodeId>)
    ensures Fold(v, []) == v && FoldGraph(s, []) == s
  {
  }

  // --- one lemma per source of drafts -------------------------------------------------------

  /** One attempt and its outcome: only an unflagged success says anything about an agent. */
  lemma OutcomeReduce(v: View, tick: nat, a: Attempt, claimed: bool)
    ensures Fold(v, OutcomeDrafts(tick, a, claimed)) ==
      if a.hit && !claimed then v[a.target := AgentView(Compromised, Some(a.source), Some(tick))] else v
  {
    hide Fold;
    var out := OutcomeDrafts(tick, a, claimed);
    assert out == [out[0], out[1]];
    FoldTwo(v, {}, out[0], out[1]);
  }

  lemma {:induction false} AttemptsFold(nodes: map<AgentId, Agent>, tick: nat, attempts: seq<Attempt>)
    requires forall a | a in attempts :: a.target in nodes
    ensures Fold(ViewOf(nodes), Drafts(tick, attempts)) == ViewOf(Infect(nodes, Claims(attempts), tick))
  {
    hide Fold, ViewOf, OutcomeDrafts;
    if |attempts| == 0 {
      FoldNone(ViewOf(nodes), {});
      assert Infect(nodes, map[], tick) == nodes;
    } else {
      var earlier, a := attempts[..|attempts| - 1], attempts[|attempts| - 1];
      assert a in attempts && forall x | x in earlier :: x in attempts;
      AttemptsFold(nodes, tick, earlier);
      var claimed := a.target in Claims(earlier);
      FoldAppend(ViewOf(nodes), {}, Drafts(tick, earlier), OutcomeDrafts(tick, a, claimed));
      OutcomeReduce(ViewOf(Infect(nodes, Claims(earlier), tick)), tick, a, claimed);
      if !claimed { ClaimView(nodes, Claims(earlier), a, tick); }
    }
  }

  lemma {:induction false} AttemptKinds(tick: nat, attempts: seq<Attempt>)
    ensures forall d | d in Drafts(tick, attempts) :: !d.kind.PolicyViolation?
  {
    if |attempts| > 0 { AttemptKinds(tick, attempts[..|attempts| - 1]); }
  }

  lemma ClaimView(nodes: map<AgentId, Agent>, claims: map<AgentId, AgentId>, a: Attempt, tick: nat)
    requires a.target in nodes && a.target !in claims
    ensures ViewOf(Infect(nodes, claims[a.target := a.source], tick)) ==
      ViewOf(Infect(nodes, claims, tick))[a.target := AgentView(Compromised, Some(a.source), Some(tick))]
  {
  }

  /** One model answer's drafts: nothing until the final success. */
  lemma AnswerFold(v: View, tick: nat, a: Attempt, answer: RealAgentStep.Answer, claimed: bool)
    ensures Fold(v, RealAgentStep.AnswerDrafts(tick, a, answer, claimed)) ==
      if answer == RealAgentStep.Leaked && !claimed then v[a.target := AgentView(Compromised, Some(a.source), Some(tick))] else v
  {
    LastDecides(v, RealAgentStep.AnswerDrafts(tick, a, answer, claimed));
  }

  lemma {:induction false} ModelFold(nodes: map<AgentId, Agent>, tick: nat, answers: RealAgentStep.Answers, attempts: seq<Attempt>)
    requires forall a | a in attempts :: a.target in nodes
    requires forall a | a in attempts :: a.hit <==> answers(a.source, a.target) == RealAgentStep.Leaked
    ensures Fold(ViewOf(nodes), RealAgentStep.ModelDrafts(tick, answers, attempts)) == ViewOf(Infect(nodes, Claims(attempts), tick))
  {
    if |attempts| == 0 {
      assert Infect(nodes, map[], tick) == nodes;
    } else {
      var earlier := attempts[..|attempts| - 1];
      var a := attempts[|attempts| - 1];
      assert a in attempts;
      ModelFold(nodes, tick, answers, earlier);
      var ds := RealAgentStep.ModelDrafts(tick, answers, earlier);
      var claimed := a.target in Claims(earlier);
      FoldAppend(ViewOf(nodes), {}, ds, RealAgentStep.AnswerDrafts(tick, a, answers(a.source, a.target), claimed));
      AnswerFold(Fold(ViewOf(nodes), ds), tick, a, answers(a.source, a.target), claimed);
      if !claimed { ClaimView(nodes, Claims(earlier), a, tick); }
    }
  }

  /** Drafts that say nothing about an agent leave the view alone; only the last one counts. */
  lemma LastDecides(v: View, ds: seq<Draft>)
    requires |ds| > 0
    requires forall i | 0 <= i < |ds| - 1 :: Reduce(v, ds[i]) == v
    ensures Fold(v, ds) == Reduce(v, ds[|ds| - 1])
  {
    hide Reduce;
    var earlier := ds[..|ds| - 1];
    assert ds == earlier + [ds[|ds| - 1]];
    Folds.FoldIdle(Reduce, v, earlier);
    Folds.FoldNext(Reduce, v, earlier, ds[|ds| - 1]);
  }

  lemma ConfineOne(nodes: map<AgentId, Agent>, who: set<AgentId>, a: AgentId, d: Draft)
    requires a in nodes && d.kind.AgentQuarantined? && d.kind.agent == a
    ensures Reduce(ViewOf(DetectionStep.Confine(nodes, who)), d) == ViewOf(DetectionStep.Confine(nodes, who + {a}))
  {
  }

  lemma HitsExtend(w: World, cfg: Config, ids: seq<AgentId>, a: AgentId)
    ensures DetectionStep.Hits(w, cfg, ids + [a]) ==
      DetectionStep.Hits(w, cfg, ids) + (if DetectionStep.Detects(w, cfg, a) then {a} else {})
    ensures DetectionStep.FalseHits(w, cfg, ids + [a]) ==
      DetectionStep.FalseHits(w, cfg, ids) + (if DetectionStep.FalselyAccuses(w, cfg, a) then {a} else {})
  {
  }

  lemma {:induction false} HitFold(w: World, cfg: Config, ids: seq<AgentId>)
    requires forall a | a in ids :: a in w.nodes
    ensures Fold(ViewOf(w.nodes), DetectionStep.HitDrafts(w, cfg, ids)) ==
      ViewOf(DetectionStep.Confine(w.nodes, DetectionStep.Hits(w, cfg, ids)))
  {
    hide Fold, ViewOf, Reduce;
    if |ids| == 0 {
      FoldNone(ViewOf(w.nodes), {});
      assert DetectionStep.Hits(w, cfg, ids) == {};
      assert DetectionStep.Confine(w.nodes, {}) == w.nodes;
    } else {
      var earlier, a := ids[..|ids| - 1], ids[|ids| - 1];
      assert a in ids && ids == earlier + [a];
      HitFold(w, cfg, earlier);
      HitsExtend(w, cfg, earlier, a);
      var ds := DetectionStep.HitDrafts(w, cfg, earlier);
      if DetectionStep.Detects(w, cfg, a) {
        ConfineLater(w.nodes, w.tick, ds, DetectionStep.Hits(w, cfg, earlier), a);
      } else {
        assert DetectionStep.HitDrafts(w, cfg, ids) == ds;
        assert DetectionStep.Hits(w, cfg, ids) == DetectionStep.Hits(w, cfg, earlier);
      }
    }
  }

  /** A detection and the quarantine after it. */
  lemma ConfineLater(nodes: map<AgentId, Agent>, tick: nat, ds: seq<Draft>, who: set<AgentId>, a: AgentId)
    requires a in nodes && Fold(ViewOf(nodes), ds) == ViewOf(DetectionStep.Confine(nodes, who))
    ensures Fold(ViewOf(nodes), ds + [Draft(tick, AnomalyDetected(a)), Draft(tick, AgentQuarantined(a, true))]) ==
      ViewOf(DetectionStep.Confine(nodes, who + {a}))
  {
    hide Fold, ViewOf;
    var out := [Draft(tick, AnomalyDetected(a)), Draft(tick, AgentQuarantined(a, true))];
    FoldAppend(ViewOf(nodes), {}, ds, out);
    FoldTwo(Fold(ViewOf(nodes), ds), {}, out[0], out[1]);
    ConfineOne(nodes, who, a, out[1]);
  }

  lemma {:induction false} FalseFold(w: World, cfg: Config, nodes: map<AgentId, Agent>, ids: seq<AgentId>)
    requires forall a | a in ids :: a in nodes
    ensures Fold(ViewOf(nodes), DetectionStep.FalseDrafts(w, cfg, ids)) ==
      ViewOf(DetectionStep.Confine(nodes, DetectionStep.FalseHits(w, cfg, ids)))
  {
    hide Fold, ViewOf, Reduce;
    if |ids| == 0 {
      FoldNone(ViewOf(nodes), {});
      assert DetectionStep.FalseHits(w, cfg, ids) == {};
      assert DetectionStep.Confine(nodes, {}) == nodes;
    } else {
      var earlier, a := ids[..|ids| - 1], ids[|ids| - 1];
      assert a in ids && ids == earlier + [a];
      FalseFold(w, cfg, nodes, earlier);
      HitsExtend(w, cfg, earlier, a);
      var ds := DetectionStep.FalseDrafts(w, cfg, earlier);
      var out := Draft(w.tick, AgentQuarantined(a, false));
      if DetectionStep.FalselyAccuses(w, cfg, a) {
        FoldAppend(ViewOf(nodes), {}, ds, [out]);
        FoldOne(Fold(ViewOf(nodes), ds), {}, out);
        ConfineOne(nodes, DetectionStep.FalseHits(w, cfg, earlier), a, out);
      } else {
        assert DetectionStep.FalseDrafts(w, cfg, ids) == ds;
        assert DetectionStep.FalseHits(w, cfg, ids) == DetectionStep.FalseHits(w, cfg, earlier);
      }
    }
  }

  /** Drafts without a policy violation leave the graph record alone. */
  lemma NoViolationFold(s: set<NodeId>, ds: seq<Draft>)
    requires forall d | d in ds :: !d.kind.PolicyViolation?
    ensures FoldGraph(s, ds) == s
  {
    Folds.FoldIdle(ReduceGraph, s, ds);
  }

  lemma {:induction false} DetectionDraftKinds(w: World, cfg: Config, ids: seq<AgentId>)
    ensures forall d | d in DetectionStep.HitDrafts(w, cfg, ids) :: !d.kind.PolicyViolation?
    ensures forall d | d in DetectionStep.FalseDrafts(w, cfg, ids) :: !d.kind.PolicyViolation?
  {
    if |ids| > 0 { DetectionDraftKinds(w, cfg, ids[..|ids| - 1]); }
  }

  /** Drafts that only report violations leave the agents alone. */
  lemma ViolationsIdle(v: View, ds: seq<Draft>)
    requires forall d | d in ds :: d.kind.PolicyViolation?
    ensures Fold(v, ds) == v
  {
    Folds.FoldIdle(Reduce, v, ds);
  }

  /** At most one violation after `ds`. */
  lemma ViolationFold(s: set<NodeId>, ds: seq<Draft>, out: seq<Draft>)
    requires |out| <= 1 && (|out| == 1 ==> out[0].kind.PolicyViolation?)
    ensures FoldGraph(s, ds + out) == FoldGraph(s, ds) + (if |out| == 1 then {out[0].kind.subject} else {})
  {
    if |out| == 0 {
      assert ds + out == ds;
    } else {
      assert out == [out[0]];
      Folds.FoldNext(ReduceGraph, s, ds, out[0]);
    }
  }

  lemma {:induction false} SubvertFold(w: World, cfg: Config, s: set<NodeId>, n: nat)
    ensures forall d | d in SecurityPlaneSteps.SubvertDrafts(w, cfg, n) :: d.kind.PolicyViolation?
    ensures FoldGraph(s, SecurityPlaneSteps.SubvertDrafts(w, cfg, n)) == s + SecurityPlaneSteps.Subverted(w, cfg, n)
  {
    hide FoldGraph, SecurityPlaneSteps.Subverts;
    if n == 0 {
      FoldNone(map[], s);
    } else {
      SubvertFold(w, cfg, s, n - 1);
      var ds := SecurityPlaneSteps.SubvertDrafts(w, cfg, n - 1);
      var hit := SecurityPlaneSteps.Subverts(w, cfg, n - 1);
      var out := if hit then [Draft(w.tick, PolicyViolation(SentinelNode(n - 1), None))] else [];
      ViolationFold(s, ds, out);
    }
  }

  lemma {:induction false} CollusionFold(w: World, cfg: Config, s: set<NodeId>, ids: seq<AgentId>, pairs: nat)
    requires 2 * pairs <= |ids|
    ensures forall d | d in SecurityPlaneSteps.CollusionDrafts(w, cfg, ids, pairs) :: d.kind.PolicyViolation?
    ensures FoldGraph(s, SecurityPlaneSteps.CollusionDrafts(w, cfg, ids, pairs)) == s + SecurityPlaneSteps.Overstepped(w, cfg, ids, pairs)
  {
    hide FoldGraph, SecurityPlaneSteps.PairCredential;
    if pairs == 0 {
      FoldNone(map[], s);
    } else {
      CollusionFold(w, cfg, s, ids, pairs - 1);
      var c := SecurityPlaneSteps.PairCredential(w, cfg, ids, pairs - 1);
      var ds := SecurityPlaneSteps.CollusionDrafts(w, cfg, ids, pairs - 1);
      var out := if c.Some?
        then [Draft(w.tick, PolicyViolation(CredentialNode(c.value), Some((ids[2 * pairs - 2], ids[2 * pairs - 1]))))] else [];
      ViolationFold(s, ds, out);
    }
  }

  /** A draft no reducer reads. */
  predicate Ignored(d: Draft) {
    d.kind.ThreatSignaturePublished? || d.kind.AttestationIssued? || d.kind.AttestationVerified?
  }

  lemma IgnoredFold(v: View, s: set<NodeId>, ds: seq<Draft>)
    requires forall d | d in ds :: Ignored(d)
    ensures Fold(v, ds) == v && FoldGraph(s, ds) == s
  {
    Folds.FoldIdle(Reduce, v, ds);
    Folds.FoldIdle(ReduceGraph, s, ds);
  }

  lemma {:induction false} PoisonIgnored(w: World, bad: set<NodeId>, n: nat)
    ensures forall d | d in SecurityPlaneSteps.PoisonDrafts(w, bad, n) :: Ignored(d)
  {
    if n > 0 { PoisonIgnored(w, bad, n - 1); }
  }

  lemma {:induction false} AttestationIgnored(w: World, cfg: Config, ids: seq<AgentId>)
    ensures forall d | d in SecurityPlaneSteps.AttestationDrafts(w, cfg, ids) :: Ignored(d)
  {
    if |ids| > 0 { AttestationIgnored(w, cfg, ids[..|ids| - 1]); }
  }

  // --- one lemma per step -------------------------------------------------------------------

  /** The drafts of a step carry exactly what it changed. */
  ghost predicate NodesExplained(w: World, r: StepResult) {
    Fold(ViewOf(w.nodes), r.drafts) == ViewOf(r.world.nodes)
  }

  ghost predicate GraphExplained(w: World, r: StepResult) {
    FoldGraph(w.compromisedGraph, r.drafts) == r.world.compromisedGraph
  }

  lemma AttackerExplained(w: World, cfg: Config)
    ensures NodesExplained(w, PropagationStep.Step(w, cfg)) && GraphExplained(w, PropagationStep.Step(w, cfg))
    ensures NodesExplained(w, AdaptiveAttackerStep.Step(w, cfg)) && GraphExplained(w, AdaptiveAttackerStep.Step(w, cfg))
  {
    hide Fold, FoldGraph, Ordering.Sorted;
    PropagationStep.AttemptsAreTheFrontier(w, cfg);
    AttemptsExplained(w, PropagationStep.AllAttempts(w, cfg));
    AdaptiveAttackerStep.AttemptsFollowStrategy(w, cfg);
    AttemptsExplained(w, AdaptiveAttackerStep.AllAttempts(w, cfg));
  }

  lemma AttemptsExplained(w: World, attempts: seq<Attempt>)
    requires forall a | a in attempts :: a.target in w.nodes
    ensures Fold(ViewOf(w.nodes), Drafts(w.tick, attempts)) == ViewOf(Infect(w.nodes, Claims(attempts), w.tick))
    ensures FoldGraph(w.compromisedGraph, Drafts(w.tick, attempts)) == w.compromisedGraph
  {
    hide Fold, FoldGraph, Infect, ViewOf;
    AttemptsFold(w.nodes, w.tick, attempts);
    AttemptKinds(w.tick, attempts);
    NoViolationFold(w.compromisedGraph, Drafts(w.tick, attempts));
  }

  lemma ConfineTwice(nodes: map<AgentId, Agent>, a: set<AgentId>, b: set<AgentId>)
    ensures DetectionStep.Confine(DetectionStep.Confine(nodes, a), b) == DetectionStep.Confine(nodes, a + b)
  {
  }

  lemma DetectionExplained(w: World, cfg: Config)
    ensures NodesExplained(w, DetectionStep.Step(w, cfg)) && GraphExplained(w, DetectionStep.Step(w, cfg))
  {
    if cfg.defenseEnabled {
      var ids := Sorted(DetectionStep.Candidates(w, cfg));
      var accused := Sorted(DetectionStep.Accusable(w, cfg));
      var hits, falseHits := DetectionStep.Hits(w, cfg, ids), DetectionStep.FalseHits(w, cfg, accused);
      var middle := DetectionStep.Confine(w.nodes, hits);
      var ds, fs := DetectionStep.HitDrafts(w, cfg, ids), DetectionStep.FalseDrafts(w, cfg, accused);
      HitFold(w, cfg, ids);
      FalseFold(w, cfg, middle, accused);
      FoldAppend(ViewOf(w.nodes), w.compromisedGraph, ds, fs);
      ConfineTwice(w.nodes, hits, falseHits);
      DetectionDraftKinds(w, cfg, ids);
      DetectionDraftKinds(w, cfg, accused);
      NoViolationFold(w.compromisedGraph, ds);
      NoViolationFold(w.compromisedGraph, fs);
    }
  }

  lemma SentinelExplained(w: World, cfg: Config)
    ensures NodesExplained(w, SecurityPlaneSteps.SentinelStep(w, cfg)) && GraphExplained(w, SecurityPlaneSteps.SentinelStep(w, cfg))
  {
    var k := SecurityPlaneSteps.Sentinels(w, cfg);
    var bad := w.compromisedGraph + SecurityPlaneSteps.Subverted(w, cfg, k);
    var ds, poison := SecurityPlaneSteps.SubvertDrafts(w, cfg, k), SecurityPlaneSteps.PoisonDrafts(w, bad, k);
    hide Fold, FoldGraph;
    FoldNone(ViewOf(w.nodes), w.compromisedGraph);
    SubvertFold(w, cfg, w.compromisedGraph, k);
    ViolationsIdle(ViewOf(w.nodes), ds);
    PoisonIgnored(w, bad, k);
    IgnoredFold(ViewOf(w.nodes), bad, poison);
    FoldAppend(ViewOf(w.nodes), w.compromisedGraph, ds, poison);
  }

  lemma CollusionExplained(w: World, cfg: Config)
    ensures NodesExplained(w, SecurityPlaneSteps.CollusionStep(w, cfg)) && GraphExplained(w, SecurityPlaneSteps.CollusionStep(w, cfg))
  {
    var ids := Sorted(CompromisedAgents(w));
    hide Fold, FoldGraph, Ordering.Sorted;
    CollusionFold(w, cfg, w.compromisedGraph, ids, |ids| / 2);
    ViolationsIdle(ViewOf(w.nodes), SecurityPlaneSteps.CollusionDrafts(w, cfg, ids, |ids| / 2));
    FoldNone(ViewOf(w.nodes), w.compromisedGraph);
  }

  lemma AttestationExplained(w: World, cfg: Config)
    ensures NodesExplained(w, SecurityPlaneSteps.AttestationStep(w, cfg)) && GraphExplained(w, SecurityPlaneSteps.AttestationStep(w, cfg))
  {
    var ids := Sorted(CompromisedAgents(w));
    AttestationIgnored(w, cfg, ids);
    IgnoredFold(ViewOf(w.nodes), w.compromisedGraph, SecurityPlaneSteps.AttestationDrafts(w, cfg, ids));
  }

  lemma PlaneExplained(w: World, cfg: Config, name: ScenarioName)
    requires !Effects.OwnsTick(name)
    ensures NodesExplained(w, Scenario(w, cfg, name)) && GraphExplained(w, Scenario(w, cfg, name))
  {
    match name
    case SentinelCompromise => SentinelExplained(w, cfg);
    case ByzantineCollusion => CollusionExplained(w, cfg);
    case Attestation => AttestationExplained(w, cfg);
    case _ =>
  }

  lemma ModelExplained(w: World, cfg: Config, answers: RealAgentStep.Answers)
    ensures NodesExplained(w, RealAgentStep.Step(w, cfg, answers))
  {
    RealAgentStep.HitsAreLeaks(w, cfg, answers);
    ModelFold(w.nodes, w.tick, answers, RealAgentStep.AllAttempts(w, cfg, answers));
    Effects.ModelConforms(w, cfg, answers);
  }

  lemma MicroExplained(w: World, cfg: Config, m: MicroStep)
    ensures NodesExplained(w, Micro(w, cfg, m))
    ensures !m.AskModels? ==> GraphExplained(w, Micro(w, cfg, m))
  {
    match m
    case RunScenario(name) =>
      if Effects.OwnsTick(name) { AttackerExplained(w, cfg); } else { PlaneExplained(w, cfg, name); }
    case Detect => DetectionExplained(w, cfg);
    case AskModels(answers) => ModelExplained(w, cfg, answers);
  }

  // --- whole runs -----------------------------------------------------------------------------

  /** The agent half of event sourcing, for every mix of scenarios, detection and model steps. */
  lemma RunExplainsNodes(w: World, cfg: Config, ms: seq<MicroStep>)
    ensures NodesExplained(w, Micros(w, cfg, ms))
  {
    var step := (v: World, m: MicroStep) => Micro(v, cfg, m);
    var inv := (r: StepResult) => NodesExplained(w, r);
    forall r: StepResult, m: MicroStep | inv(r) ensures inv(Concat(r, step(r.world, m))) {
      MicroExplained(r.world, cfg, m);
      FoldAppend(ViewOf(w.nodes), {}, r.drafts, Micro(r.world, cfg, m).drafts);
    }
    TraceInduction(step, m => true, inv, w, ms);
  }

  /** The graph half, for synchronous runs. */
  lemma RunExplainsGraph(w: World, cfg: Config, ms: seq<MicroStep>)
    requires Synchronous(ms)
    ensures GraphExplained(w, Micros(w, cfg, ms))
  {
    var step := (v: World, m: MicroStep) => Micro(v, cfg, m);
    var inv := (r: StepResult) => GraphExplained(w, r);
    var sync := (m: MicroStep) => !m.AskModels?;
    forall r: StepResult, m: MicroStep | inv(r) && sync(m) ensures inv(Concat(r, step(r.world, m))) {
      MicroExplained(r.world, cfg, m);
      FoldAppend(map[], w.compromisedGraph, r.drafts, Micro(r.world, cfg, m).drafts);
    }
    TraceInduction(step, sync, inv, w, ms);
  }
}
