/** Ticks no active scenario owns: what the first one does, told from the world it starts in. */
module Ownerless {
  import opened Ordering
  import opened World
  import opened Runs
  import opened Engine
  import opened Effects
  import opened Experiment
  import opened SecurityPlaneSteps
  import opened DetectionStep
  import GraphFacts

  lemma {:induction false} ScenariosIdle(w: World, cfg: Config, names: seq<ScenarioName>)
    requires Owners(names) == 0
    ensures var v := Scenarios(w, cfg, names).world;
      v.nodes == w.nodes && v.tick == w.tick && v.edges == w.edges && w.compromisedGraph <= v.compromisedGraph
  {
    if |names| > 0 {
      var earlier := Scenarios(w, cfg, names[..|names| - 1]).world;
      ScenariosIdle(w, cfg, names[..|names| - 1]);
      MicroEffect(earlier, cfg, RunScenario(names[|names| - 1]));
    }
  }

  // --- when a tick emits nothing ------------------------------------------------------------------

  /** sentinel_compromise reports nothing: no sentinel of the graph has fallen or falls now. */
  ghost predicate SentinelsSound(w: World, cfg: Config) {
    cfg.sentinelCompromiseRate > 0.0 ==>
      forall i: nat | i < Sentinels(w, cfg) :: SentinelNode(i) !in w.compromisedGraph && !Subverts(w, cfg, i)
  }

  /** attestation reports nothing: it is off, or there is nobody to attest. */
  predicate NobodyAttests(w: World, cfg: Config) {
    cfg.attestationReplayRate > 0.0 && cfg.sentinelCount > 0 ==> CompromisedAgents(w) == {}
  }

  /** byzantine_collusion reports nothing: no pair oversteps a credential. */
  ghost predicate NobodyColludes(w: World, cfg: Config) {
    cfg.byzantineCollusionRate > 0.0 ==>
      var ids := Sorted(CompromisedAgents(w));
      forall p: nat | 2 * p + 1 < |ids| :: PairCredential(w, cfg, ids, p).None?
  }

  ghost predicate Silent(w: World, cfg: Config, name: ScenarioName) {
    match name
    case SentinelCompromise => SentinelsSound(w, cfg)
    case Attestation => NobodyAttests(w, cfg)
    case ByzantineCollusion => NobodyColludes(w, cfg)
    case _ => true
  }

  /** Seen from the world before the tick: every active scenario is silent in it and detection
      catches nobody in it. */
  ghost predicate SilentTick(w: World, cfg: Config) {
    && (forall name | name in cfg.activeScenarios :: Silent(w, cfg, name))
    && (cfg.defenseEnabled ==> forall a :: a !in Caught(w, cfg))
  }

  lemma {:induction false} SubvertSilent(w: World, cfg: Config, n: nat)
    ensures SubvertDrafts(w, cfg, n) == [] <==> forall i: nat | i < n :: !Subverts(w, cfg, i)
    ensures SubvertDrafts(w, cfg, n) == [] <==> Subverted(w, cfg, n) == {}
  {
    hide Subverts;
    if n > 0 { SubvertSilent(w, cfg, n - 1); }
  }

  lemma {:induction false} PoisonSilent(w: World, bad: set<NodeId>, n: nat)
    ensures PoisonDrafts(w, bad, n) == [] <==> forall i: nat | i < n :: SentinelNode(i) !in bad
  {
    if n > 0 { PoisonSilent(w, bad, n - 1); }
  }

  lemma {:induction false} CollusionSilent(w: World, cfg: Config, ids: seq<AgentId>, pairs: nat)
    requires 2 * pairs <= |ids|
    ensures CollusionDrafts(w, cfg, ids, pairs) == [] <==> forall p: nat | p < pairs :: PairCredential(w, cfg, ids, p).None?
    ensures CollusionDrafts(w, cfg, ids, pairs) == [] <==> Overstepped(w, cfg, ids, pairs) == {}
  {
    hide PairCredential;
    if pairs > 0 { CollusionSilent(w, cfg, ids, pairs - 1); }
  }

  lemma SentinelStepSilent(w: World, cfg: Config)
    ensures SentinelStep(w, cfg).drafts == [] <==> SentinelsSound(w, cfg)
    ensures SentinelStep(w, cfg).drafts == [] ==> SentinelStep(w, cfg).world == w
  {
    hide Subverts;
    if cfg.sentinelCompromiseRate > 0.0 {
      var k := Sentinels(w, cfg);
      var bad := w.compromisedGraph + Subverted(w, cfg, k);
      SubvertSilent(w, cfg, k);
      PoisonSilent(w, bad, k);
      assert SentinelStep(w, cfg).drafts == [] <==> SubvertDrafts(w, cfg, k) == [] && PoisonDrafts(w, bad, k) == [];
    }
  }

  lemma AttestationStepSilent(w: World, cfg: Config)
    ensures AttestationStep(w, cfg).drafts == [] <==> NobodyAttests(w, cfg)
    ensures AttestationStep(w, cfg).world == w
  {
    var ids := Sorted(CompromisedAgents(w));
    assert |ids| == 0 <==> CompromisedAgents(w) == {};
  }

  lemma CollusionStepSilent(w: World, cfg: Config)
    ensures CollusionStep(w, cfg).drafts == [] <==> NobodyColludes(w, cfg)
    ensures CollusionStep(w, cfg).drafts == [] ==> CollusionStep(w, cfg).world == w
  {
    hide PairCredential, Sorted;
    var ids := Sorted(CompromisedAgents(w));
    if cfg.byzantineCollusionRate > 0.0 && |ids| >= 2 { CollusionSilent(w, cfg, ids, |ids| / 2); }
  }

  lemma ScenarioSilent(w: World, cfg: Config, name: ScenarioName)
    requires !OwnsTick(name)
    ensures Scenario(w, cfg, name).drafts == [] <==> Silent(w, cfg, name)
    ensures Scenario(w, cfg, name).drafts == [] ==> Scenario(w, cfg, name).world == w
  {
    hide SentinelStep, AttestationStep, CollusionStep, SentinelsSound, NobodyAttests, NobodyColludes;
    SentinelStepSilent(w, cfg);
    AttestationStepSilent(w, cfg);
    CollusionStepSilent(w, cfg);
  }

  lemma {:induction false} ScenariosSilent(w: World, cfg: Config, names: seq<ScenarioName>)
    requires Owners(names) == 0
    ensures var r := Scenarios(w, cfg, names);
      && (r.drafts == [] <==> forall name | name in names :: Silent(w, cfg, name))
      && (r.drafts == [] ==> r.world == w)
  {
    hide Scenario, Silent;
    if |names| > 0 {
      var earlier, name := names[..|names| - 1], names[|names| - 1];
      assert names == earlier + [name];
      ScenariosSilent(w, cfg, earlier);
      ScenarioSilent(w, cfg, name);
    }
  }

  lemma {:induction false} HitsSilent(w: World, cfg: Config, ids: seq<AgentId>)
    ensures HitDrafts(w, cfg, ids) == [] <==> Hits(w, cfg, ids) == {}
    ensures FalseDrafts(w, cfg, ids) == [] <==> FalseHits(w, cfg, ids) == {}
  {
    if |ids| > 0 {
      var earlier, a := ids[..|ids| - 1], ids[|ids| - 1];
      assert ids == earlier + [a];
      HitsSilent(w, cfg, earlier);
      if Detects(w, cfg, a) { assert a in Hits(w, cfg, ids); } else { assert Hits(w, cfg, ids) == Hits(w, cfg, earlier); }
      if FalselyAccuses(w, cfg, a) { assert a in FalseHits(w, cfg, ids); } else { assert FalseHits(w, cfg, ids) == FalseHits(w, cfg, earlier); }
    }
  }

  lemma DetectionSilent(w: World, cfg: Config)
    ensures DetectionStep.Step(w, cfg).drafts == [] <==> (cfg.defenseEnabled ==> forall a :: a !in Caught(w, cfg))
    ensures DetectionStep.Step(w, cfg).drafts == [] ==> DetectionStep.Step(w, cfg).world == w
  {
    hide Sorted, Hits, FalseHits, HitDrafts, FalseDrafts;
    if cfg.defenseEnabled {
      var ids, accused := Sorted(Candidates(w, cfg)), Sorted(Accusable(w, cfg));
      HitsSilent(w, cfg, ids);
      HitsSilent(w, cfg, accused);
      assert DetectionStep.Step(w, cfg).drafts == [] <==> HitDrafts(w, cfg, ids) == [] && FalseDrafts(w, cfg, accused) == [];
      if DetectionStep.Step(w, cfg).drafts == [] {
        assert Caught(w, cfg) == {};
        assert Confine(w.nodes, {}) == w.nodes;
      } else {
        assert Hits(w, cfg, ids) != {} || FalseHits(w, cfg, accused) != {};
      }
    }
  }

  /** An ownerless tick emits nothing exactly when the world before it gives it no reason to, and
      then it changes nothing. */
  lemma AdvanceSilent(w: World, cfg: Config)
    requires !OwnsClock(cfg)
    ensures Engine.Advance(w, cfg).drafts == [] <==> SilentTick(w, cfg)
    ensures Engine.Advance(w, cfg).drafts == [] ==> Engine.Advance(w, cfg).world == w
  {
    hide Scenarios, DetectionStep.Step, Silent, Caught;
    ScenariosSilent(w, cfg, cfg.activeScenarios);
    var s := Scenarios(w, cfg, cfg.activeScenarios);
    DetectionSilent(s.world, cfg);
    assert Engine.Advance(w, cfg).drafts == s.drafts + DetectionStep.Step(s.world, cfg).drafts;
    assert Engine.Advance(w, cfg).drafts == [] <==> s.drafts == [] && DetectionStep.Step(s.world, cfg).drafts == [];
  }

  lemma {:induction false} StillSilent(w: World, cfg: Config, k: nat)
    requires Engine.Advance(w, cfg) == StepResult(w, [])
    ensures Run(w, cfg, k) == StepResult(w, [])
  {
    hide Engine.Advance;
    if k > 0 { StillSilent(w, cfg, k - 1); }
  }

  /** k ownerless ticks emit nothing exactly when there are none or the first is silent. */
  lemma RunSilent(w: World, cfg: Config, k: nat)
    requires !OwnsClock(cfg)
    ensures Run(w, cfg, k).drafts == [] <==> k == 0 || SilentTick(w, cfg)
  {
    hide Engine.Advance, SilentTick;
    if k > 0 {
      AdvanceSilent(w, cfg);
      if SilentTick(w, cfg) {
        StillSilent(w, cfg, k);
      } else {
        FirstTick(w, cfg, k);
        assert |Run(w, cfg, k).drafts| >= |Engine.Advance(w, cfg).drafts|;
      }
    }
  }

  lemma FirstTick(w: World, cfg: Config, k: nat)
    requires k > 0
    ensures Run(w, cfg, k).drafts == Engine.Advance(w, cfg).drafts + Run(Engine.Advance(w, cfg).world, cfg, k - 1).drafts
  {
    hide Engine.Advance;
    var tick := (v: World) => Engine.Advance(v, cfg);
    IterateAdd(tick, w, 1, k - 1);
    assert Iterate(tick, w, 0) == StepResult(w, []);
    assert Iterate(tick, w, 1) == Concat(Iterate(tick, w, 0), tick(w));
    assert [] + Engine.Advance(w, cfg).drafts == Engine.Advance(w, cfg).drafts;
  }

  // --- when a tick changes nothing ----------------------------------------------------------------

  /** Seen from a world without fallen graph nodes: detection catches nobody, and no active
      scenario but attestation, which only reports, has anything to do. */
  ghost predicate StillTick(w: World, cfg: Config) {
    && (forall name | name in cfg.activeScenarios && name != Attestation :: Silent(w, cfg, name))
    && (cfg.defenseEnabled ==> forall a :: a !in Caught(w, cfg))
  }

  lemma SentinelStepStill(w: World, cfg: Config)
    requires w.compromisedGraph == {}
    ensures SentinelStep(w, cfg).world == w <==> SentinelsSound(w, cfg)
  {
    hide Subverts;
    if cfg.sentinelCompromiseRate > 0.0 { SubvertSilent(w, cfg, Sentinels(w, cfg)); }
  }

  lemma CollusionStepStill(w: World, cfg: Config)
    requires w.compromisedGraph == {}
    ensures CollusionStep(w, cfg).world == w <==> NobodyColludes(w, cfg)
  {
    hide PairCredential, Sorted;
    var ids := Sorted(CompromisedAgents(w));
    if cfg.byzantineCollusionRate > 0.0 && |ids| >= 2 { CollusionSilent(w, cfg, ids, |ids| / 2); }
  }

  lemma ScenarioStill(w: World, cfg: Config, name: ScenarioName)
    requires !OwnsTick(name) && w.compromisedGraph == {}
    ensures Scenario(w, cfg, name).world == w <==> name == Attestation || Silent(w, cfg, name)
  {
    hide SentinelStep, AttestationStep, CollusionStep, SentinelsSound, NobodyAttests, NobodyColludes;
    SentinelStepStill(w, cfg);
    AttestationStepSilent(w, cfg);
    CollusionStepStill(w, cfg);
  }

  /** What an ownerless scenario adds to the fallen graph nodes stays. */
  lemma {:induction false} ScenariosStill(w: World, cfg: Config, names: seq<ScenarioName>)
    requires Owners(names) == 0 && w.compromisedGraph == {}
    ensures Scenarios(w, cfg, names).world == w <==> forall name | name in names && name != Attestation :: Silent(w, cfg, name)
  {
    hide Scenario, Silent;
    if |names| > 0 {
      var earlier, name := names[..|names| - 1], names[|names| - 1];
      assert names == earlier + [name];
      ScenariosStill(w, cfg, earlier);
      ScenariosIdle(w, cfg, earlier);
      var v := Scenarios(w, cfg, earlier).world;
      MicroEffect(v, cfg, RunScenario(name));
      if v == w { ScenarioStill(w, cfg, name); } else { assert v.compromisedGraph != {}; }
    }
  }

  lemma DetectionStill(w: World, cfg: Config)
    ensures DetectionStep.Step(w, cfg).world == w <==> (cfg.defenseEnabled ==> forall a :: a !in Caught(w, cfg))
    ensures DetectionStep.Step(w, cfg).world.compromisedGraph == w.compromisedGraph
  {
    hide Caught, Sorted, HitDrafts, FalseDrafts, Suppressed;
    if cfg.defenseEnabled {
      forall a | a in Caught(w, cfg) ensures a in w.nodes && w.nodes[a].state != Quarantined { CaughtMeaning(w, cfg, a); }
      if forall a :: a !in Caught(w, cfg) { assert Confine(w.nodes, Caught(w, cfg)) == w.nodes; }
    }
  }

  /** An ownerless tick of a world without fallen graph nodes changes it exactly when some scenario
      beside attestation, or detection, has something to do in it. */
  lemma AdvanceStill(w: World, cfg: Config)
    requires !OwnsClock(cfg) && w.compromisedGraph == {}
    ensures Engine.Advance(w, cfg).world == w <==> StillTick(w, cfg)
  {
    hide Scenarios, DetectionStep.Step, Silent, Caught;
    ScenariosStill(w, cfg, cfg.activeScenarios);
    ScenariosIdle(w, cfg, cfg.activeScenarios);
    DetectionStill(Scenarios(w, cfg, cfg.activeScenarios).world, cfg);
  }

  // --- whom the first tick catches ------------------------------------------------------------------

  /** Sentinel i has fallen by the time the first tick's detection runs. */
  ghost predicate Falls(w: World, cfg: Config, names: seq<ScenarioName>, i: nat) {
    || SentinelNode(i) in w.compromisedGraph
    || (SentinelCompromise in names && cfg.sentinelCompromiseRate > 0.0 && i < Sentinels(w, cfg) && Subverts(w, cfg, i))
  }

  lemma SentinelStepFalls(v: World, cfg: Config, i: nat)
    ensures SentinelNode(i) in SentinelStep(v, cfg).world.compromisedGraph <==>
      SentinelNode(i) in v.compromisedGraph || (cfg.sentinelCompromiseRate > 0.0 && i < Sentinels(v, cfg) && Subverts(v, cfg, i))
  {
    hide Subverts;
    SubvertedMembers(v, cfg, Sentinels(v, cfg), SentinelNode(i));
  }

  lemma OtherStepFalls(v: World, cfg: Config, name: ScenarioName, i: nat)
    requires !OwnsTick(name) && name != SentinelCompromise
    ensures SentinelNode(i) in Scenario(v, cfg, name).world.compromisedGraph <==> SentinelNode(i) in v.compromisedGraph
  {
    hide Sorted, PairCredential, Overstepped;
    var ids := Sorted(CompromisedAgents(v));
    OversteppedMembers(v, cfg, ids, |ids| / 2, SentinelNode(i));
  }

  /** Subversion looks at the agents, the clock and the sentinel's own state only. */
  lemma SubvertsAlike(w: World, v: World, cfg: Config, i: nat)
    requires v.nodes == w.nodes && v.tick == w.tick
    ensures Sentinels(v, cfg) == Sentinels(w, cfg)
    ensures SentinelNode(i) !in v.compromisedGraph && SentinelNode(i) !in w.compromisedGraph ==> Subverts(v, cfg, i) == Subverts(w, cfg, i)
  {
    assert CompromisedAgents(v) == CompromisedAgents(w);
    assert forall a | a in CompromisedAgents(w) && cfg.sentinelCount > 0 :: GraphFacts.Monitor(v, cfg, a) == GraphFacts.Monitor(w, cfg, a);
  }

  lemma {:induction false} FallenAfter(w: World, cfg: Config, names: seq<ScenarioName>, i: nat)
    requires Owners(names) == 0
    ensures SentinelNode(i) in Scenarios(w, cfg, names).world.compromisedGraph <==> Falls(w, cfg, names, i)
  {
    hide Subverts, Scenario, Sentinels;
    if |names| > 0 {
      var earlier, name := names[..|names| - 1], names[|names| - 1];
      assert names == earlier + [name];
      FallenAfter(w, cfg, earlier, i);
      ScenariosIdle(w, cfg, earlier);
      var v := Scenarios(w, cfg, earlier).world;
      SubvertsAlike(w, v, cfg, i);
      if name == SentinelCompromise {
        SentinelStepFalls(v, cfg, i);
        assert Scenario(v, cfg, name) == SentinelStep(v, cfg) by { SentinelName(v, cfg); }
        NotTwice(v, cfg, i);
        NotTwice(w, cfg, i);
      } else {
        OtherStepFalls(v, cfg, name, i);
      }
    }
  }

  lemma SentinelName(v: World, cfg: Config)
    ensures Scenario(v, cfg, SentinelCompromise) == SentinelStep(v, cfg)
  {
  }

  lemma NotTwice(v: World, cfg: Config, i: nat)
    ensures Subverts(v, cfg, i) ==> SentinelNode(i) !in v.compromisedGraph
  {
  }

  /** The first tick quarantines a: told from the world before it. */
  ghost predicate CaughtFirst(w: World, cfg: Config, a: AgentId) {
    && cfg.defenseEnabled && a in w.nodes
    && (|| (w.nodes[a].state == Compromised && Detects(w, cfg, a)
            && !(cfg.sentinelCount > 0 && Falls(w, cfg, cfg.activeScenarios, GraphFacts.Monitor(w, cfg, a))))
        || (w.nodes[a].state == Healthy && cfg.falseQuarantineRate > 0.0 && FalselyAccuses(w, cfg, a)))
  }

  lemma CaughtAfterScenarios(w: World, cfg: Config, a: AgentId)
    requires !OwnsClock(cfg)
    ensures cfg.defenseEnabled && a in Caught(Scenarios(w, cfg, cfg.activeScenarios).world, cfg) <==> CaughtFirst(w, cfg, a)
  {
    hide Scenarios, Falls, Caught, Sorted;
    var v := Scenarios(w, cfg, cfg.activeScenarios).world;
    ScenariosIdle(w, cfg, cfg.activeScenarios);
    CaughtMeaning(v, cfg, a);
    if a in w.nodes && cfg.sentinelCount > 0 {
      assert GraphFacts.Monitor(v, cfg, a) == GraphFacts.Monitor(w, cfg, a);
      FallenAfter(w, cfg, cfg.activeScenarios, GraphFacts.Monitor(w, cfg, a));
    }
  }

  /** Every edge along which the infection could still spread loses an end in the first tick. */
  ghost predicate FrontierCut(w: World, cfg: Config) {
    forall a, b :: a in CompromisedAgents(w) && b in HealthyNeighbors(w, a) ==> CaughtFirst(w, cfg, a) || CaughtFirst(w, cfg, b)
  }
}
