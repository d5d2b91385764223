/** What the metrics of metrics/compute.py are worth: over every synchronous run the counts and
    latencies read from the log agree with the world the run ends in. */
module RunAccounts {
  import opened Wrappers
  import opened Ordering
  import opened World
  import opened Attempts
  import opened Runs
  import opened Engine
  import opened Effects
  import opened Metrics
  import opened LogAccounting
  import opened Experiment
  import InfectionForest
  import DetectionStep
  import Topology

  ghost predicate AllRecorded(w: World) {
    forall a | a in w.nodes :: InfectionForest.Recorded(w, w.nodes[a])
  }

  /** The totals of the log: one more outcome than attempts (the seed's), one unflagged success
      per ever-compromised agent, one quarantine event per quarantined agent, one false one per
      quarantined agent that was never compromised. */
  ghost predicate TotalsAgree(w: World, t: Tally) {
    && t.attempted + 1 == t.succeeded + t.failed
    && t.landed == |EverCompromised(w)|
    && t.quarantined == |QuarantinedAgents(w)|
    && t.falsely == |QuarantinedAgents(w) - EverCompromised(w)|
  }

  /** What the log says of one agent: quarantined at most once, and detected exactly when it was
      quarantined after a compromise, in the same tick. */
  ghost predicate AgentAgrees(w: World, b: Book, a: AgentId) {
    && b.quarantines == (if a in QuarantinedAgents(w) then 1 else 0)
    && b.contained == b.detected
    && (b.detected.Some? <==> a in QuarantinedAgents(w) && a in EverCompromised(w))
  }

  ghost predicate Audited(w: World, b: Book, a: AgentId) {
    AllRecorded(w) && TotalsAgree(w, b.tally) && AgentAgrees(w, b, a)
  }

  lemma DisjointSize<T>(x: set<T>, y: set<T>)
    requires x !! y
    ensures |x + y| == |x| + |y|
  {
  }

  lemma SpreadSets(w: World, v: World, claims: map<AgentId, AgentId>)
    requires AllRecorded(w) && v.nodes == Infect(w.nodes, claims, w.tick)
    requires forall t | t in claims :: t in HealthyAgents(w)
    ensures EverCompromised(v) == EverCompromised(w) + claims.Keys && EverCompromised(w) !! claims.Keys
    ensures QuarantinedAgents(v) == QuarantinedAgents(w)
    ensures QuarantinedAgents(w) !! claims.Keys
  {
  }

  lemma SpreadTotals(w: World, v: World, claims: map<AgentId, AgentId>)
    requires AllRecorded(w) && v.nodes == Infect(w.nodes, claims, w.tick)
    requires forall t | t in claims :: t in HealthyAgents(w)
    ensures |EverCompromised(v)| == |EverCompromised(w)| + |claims| && QuarantinedAgents(v) == QuarantinedAgents(w)
    ensures QuarantinedAgents(v) - EverCompromised(v) == QuarantinedAgents(w) - EverCompromised(w)
    ensures forall a | a in QuarantinedAgents(w) :: a in EverCompromised(v) <==> a in EverCompromised(w)
  {
    hide Infect, EverCompromised, QuarantinedAgents, AllRecorded, HealthyAgents;
    SpreadSets(w, v, claims);
    DisjointSize(EverCompromised(w), claims.Keys);
    assert |claims.Keys| == |claims|;
  }

  lemma AuditSpread(w: World, v: World, claims: map<AgentId, AgentId>, b: Book, d: Book, a: AgentId)
    requires Audited(w, b, a) && AllRecorded(v) && v.nodes == Infect(w.nodes, claims, w.tick)
    requires forall t | t in claims :: t in HealthyAgents(w)
    requires AttackBook(d, |claims|)
    ensures Audited(v, b.Plus(d), a)
  {
    hide Infect, EverCompromised, QuarantinedAgents, AllRecorded, HealthyAgents, Book.Plus;
    SpreadTotals(w, v, claims);
    PlusFields(b, d);
    assert d.quarantines == 0 && d.detected == None && d.contained == None;
  }

  lemma ConfineSets(w: World, v: World, hits: set<AgentId>, accused: set<AgentId>)
    requires AllRecorded(w) && v.nodes == DetectionStep.Confine(w.nodes, hits + accused)
    requires hits <= CompromisedAgents(w) && accused <= HealthyAgents(w)
    ensures EverCompromised(v) == EverCompromised(w) && hits <= EverCompromised(w) && accused !! EverCompromised(w)
    ensures QuarantinedAgents(v) == QuarantinedAgents(w) + hits + accused
    ensures QuarantinedAgents(w) !! hits && QuarantinedAgents(w) !! accused && hits !! accused
  {
  }

  lemma ConfineTotals(w: World, v: World, hits: set<AgentId>, accused: set<AgentId>)
    requires AllRecorded(w) && v.nodes == DetectionStep.Confine(w.nodes, hits + accused)
    requires hits <= CompromisedAgents(w) && accused <= HealthyAgents(w)
    ensures |EverCompromised(v)| == |EverCompromised(w)|
    ensures |QuarantinedAgents(v)| == |QuarantinedAgents(w)| + |hits| + |accused|
    ensures |QuarantinedAgents(v) - EverCompromised(v)| == |QuarantinedAgents(w) - EverCompromised(w)| + |accused|
  {
    hide DetectionStep.Confine, EverCompromised, QuarantinedAgents, AllRecorded, CompromisedAgents, HealthyAgents;
    ConfineSets(w, v, hits, accused);
    ConfineSizes(QuarantinedAgents(w), EverCompromised(w), hits, accused);
  }

  lemma ConfineSizes(shut: set<AgentId>, ever: set<AgentId>, hits: set<AgentId>, accused: set<AgentId>)
    requires hits <= ever && accused !! ever && shut !! hits && shut !! accused && hits !! accused
    ensures |shut + hits + accused| == |shut| + |hits| + |accused|
    ensures |(shut + hits + accused) - ever| == |shut - ever| + |accused|
  {
    DisjointSize(shut, hits);
    DisjointSize(shut + hits, accused);
    assert (shut + hits + accused) - ever == (shut - ever) + accused;
    DisjointSize(shut - ever, accused);
  }

  /** The detection pass's entries for one agent, as plain numbers. */
  ghost predicate ConfineBook(d: Book, tick: nat, hits: set<AgentId>, accused: set<AgentId>, a: AgentId) {
    && Unattempted(d) && d.tally.quarantined == |hits| + |accused| && d.tally.falsely == |accused|
    && d.quarantines == (if a in hits then 1 else 0) + (if a in accused then 1 else 0)
    && d.detected == d.contained == (if a in hits then Some(tick) else None)
  }

  lemma ConfineBooked(w: World, hits: set<AgentId>, accused: set<AgentId>, a: AgentId)
    ensures ConfineBook(HitsBook(w, hits, a).Plus(FalseBook(accused, a)), w.tick, hits, accused, a)
  {
  }

  lemma AuditConfine(w: World, v: World, hits: set<AgentId>, accused: set<AgentId>, b: Book, d: Book, a: AgentId)
    requires Audited(w, b, a) && AllRecorded(v) && v.nodes == DetectionStep.Confine(w.nodes, hits + accused)
    requires hits <= CompromisedAgents(w) && accused <= HealthyAgents(w)
    requires ConfineBook(d, w.tick, hits, accused, a)
    ensures Audited(v, b.Plus(d), a)
  {
    hide AllRecorded, AgentAgrees, TotalsAgree, Book.Plus, DetectionStep.Confine, CompromisedAgents, HealthyAgents, ConfineBook;
    ConfineTotalsAgree(w, v, hits, accused, b, d, a);
    ConfineAgentAgrees(w, v, hits, accused, b, d, a);
  }

  lemma ConfineTotalsAgree(w: World, v: World, hits: set<AgentId>, accused: set<AgentId>, b: Book, d: Book, a: AgentId)
    requires AllRecorded(w) && TotalsAgree(w, b.tally) && v.nodes == DetectionStep.Confine(w.nodes, hits + accused)
    requires hits <= CompromisedAgents(w) && accused <= HealthyAgents(w)
    requires ConfineBook(d, w.tick, hits, accused, a)
    ensures TotalsAgree(v, b.Plus(d).tally)
  {
    hide DetectionStep.Confine, EverCompromised, QuarantinedAgents, AllRecorded, CompromisedAgents, HealthyAgents, Book.Plus;
    PlusFields(b, d);
    ConfineTotals(w, v, hits, accused);
  }

  lemma ConfineAgentAgrees(w: World, v: World, hits: set<AgentId>, accused: set<AgentId>, b: Book, d: Book, a: AgentId)
    requires AllRecorded(w) && AgentAgrees(w, b, a) && v.nodes == DetectionStep.Confine(w.nodes, hits + accused)
    requires hits <= CompromisedAgents(w) && accused <= HealthyAgents(w)
    requires ConfineBook(d, w.tick, hits, accused, a)
    ensures AgentAgrees(v, b.Plus(d), a)
  {
    hide DetectionStep.Confine, EverCompromised, QuarantinedAgents, AllRecorded, CompromisedAgents, HealthyAgents, Book.Plus;
    PlusFields(b, d);
    ConfineSets(w, v, hits, accused);
  }

  lemma AllRecordedKept(w: World, cfg: Config, m: MicroStep)
    requires AllRecorded(w)
    ensures AllRecorded(Micro(w, cfg, m).world)
  {
    var v := Micro(w, cfg, m).world;
    MicroEvolves(w, cfg, m);
    forall a | a in v.nodes ensures InfectionForest.Recorded(v, v.nodes[a]) {
      InfectionForest.RecordedKept(w, cfg, v, a);
    }
  }

  lemma AuditSame(w: World, v: World, b: Book, a: AgentId)
    requires Audited(w, b, a) && AllRecorded(v) && v.nodes == w.nodes
    ensures Audited(v, b.Plus(BLANK), a)
  {
    assert EverCompromised(v) == EverCompromised(w) && QuarantinedAgents(v) == QuarantinedAgents(w);
  }

  lemma AuditScenario(w: World, cfg: Config, name: ScenarioName, b: Book, a: AgentId)
    requires Audited(w, b, a)
    ensures var r := Scenario(w, cfg, name); Audited(r.world, b.Plus(BookOf(r.drafts, a)), a)
  {
    AllRecordedKept(w, cfg, RunScenario(name));
    hide Scenario, BookOf, Audited, Book.Plus;
    assert Micro(w, cfg, RunScenario(name)) == Scenario(w, cfg, name);
    MicroEffect(w, cfg, RunScenario(name));
    var r := Scenario(w, cfg, name);
    if OwnsTick(name) {
      AttackerBook(w, cfg, name, a);
      var claims := EffectOf(w, cfg, RunScenario(name)).claims;
      forall t | t in claims ensures t in HealthyAgents(w) { assert t in HealthyNeighbors(w, claims[t]); }
      AuditSpread(w, r.world, claims, b, BookOf(r.drafts, a), a);
    } else {
      PlaneBook(w, cfg, name, a);
      AuditSame(w, r.world, b, a);
    }
  }

  lemma AuditDetect(w: World, cfg: Config, b: Book, a: AgentId)
    requires Audited(w, b, a)
    ensures var r := DetectionStep.Step(w, cfg); Audited(r.world, b.Plus(BookOf(r.drafts, a)), a)
  {
    AllRecordedKept(w, cfg, Detect);
    hide Audited, Book.Plus, BookOf, HitsBook, FalseBook;
    var r := DetectionStep.Step(w, cfg);
    if cfg.defenseEnabled {
      var hits := DetectionStep.Hits(w, cfg, Sorted(DetectionStep.Candidates(w, cfg)));
      var accused := DetectionStep.FalseHits(w, cfg, Sorted(DetectionStep.Accusable(w, cfg)));
      DetectBook(w, cfg, a);
      ConfineBooked(w, hits, accused, a);
      AuditConfine(w, r.world, hits, accused, b, BookOf(r.drafts, a), a);
    } else {
      BookEmpty(a);
      AuditSame(w, r.world, b, a);
    }
  }

  lemma AuditMicro(w: World, cfg: Config, m: MicroStep, b: Book, a: AgentId)
    requires Audited(w, b, a) && !m.AskModels?
    ensures var r := Micro(w, cfg, m); Audited(r.world, b.Plus(BookOf(r.drafts, a)), a)
  {
    hide Audited, Book.Plus, BookOf, Scenario;
    match m
    case RunScenario(name) => AuditScenario(w, cfg, name, b, a);
    case Detect => AuditDetect(w, cfg, b, a);
  }

  // --- the start ------------------------------------------------------------------------------

  lemma {:induction false} CreationUncounted(w: World, sorted: seq<AgentId>)
    requires forall n | n in sorted :: n in w.nodes
    ensures forall d | d in Topology.CreationDrafts(w, sorted) :: Uncounted(d)
  {
    if |sorted| > 0 { CreationUncounted(w, sorted[..|sorted| - 1]); }
  }

  const SEED_BOOK: Book := Book(Tally(0, 1, 0, 1, 0, 0), 0, None, None)

  lemma StartBook(s: Setup, a: AgentId)
    requires Valid(s)
    ensures BookOf(Start(s).drafts, a) == SEED_BOOK
  {
    hide Sorted, BookOf, Entry, Book.Plus;
    var w, seed := Start(s).world, Topology.SeedNode(s.ids, s.links, s.cfg);
    var first, last := [Draft(0, ExperimentStarted)], Draft(0, CompromiseSucceeded(None, seed, false));
    var created := Topology.CreationDrafts(w, Sorted(s.ids));
    CreationUncounted(w, Sorted(s.ids));
    UncountedDrafts(first + created, a);
    BookTwo(last, last, a);
    BookAppend(first + created, [last], a);
    PlusAssociates(Entry(last, a), BLANK, BLANK);
    SeedEntry(seed, a);
    assert Start(s).drafts == (first + created) + [last];
  }

  lemma SeedEntry(seed: AgentId, a: AgentId)
    ensures Entry(Draft(0, CompromiseSucceeded(None, seed, false)), a) == SEED_BOOK
  {
  }

  lemma StartAudited(s: Setup, a: AgentId)
    requires Valid(s)
    ensures Audited(Start(s).world, BookOf(Start(s).drafts, a), a)
  {
    hide BookOf;
    StartBook(s, a);
    Topology.InitialWorldShape(s.ids, s.links, s.cfg);
    FreshAudited(Start(s).world, s.ids, s.links, Topology.SeedNode(s.ids, s.links, s.cfg), a);
  }

  lemma FreshAudited(w: World, ids: set<AgentId>, links: set<(AgentId, AgentId)>, seed: AgentId, a: AgentId)
    requires Topology.FreshWorld(w, ids, links, seed) && seed in ids && EverCompromised(w) == {seed}
    ensures Audited(w, SEED_BOOK, a)
  {
    assert QuarantinedAgents(w) == {};
  }

  // --- whole runs -----------------------------------------------------------------------------

  lemma AuditRun(s: Setup, ms: seq<MicroStep>, a: AgentId)
    requires Valid(s) && Synchronous(ms)
    ensures Audited(AfterMicros(s, ms).world, BookOf(AfterMicros(s, ms).drafts, a), a)
  {
    hide Audited, BookOf, Start, Valid, Micro;
    var base, cfg := Start(s), s.cfg;
    StartAudited(s, a);
    var step := (v: World, m: MicroStep) => Micro(v, cfg, m);
    var sync := (m: MicroStep) => !m.AskModels?;
    var inv := (r: StepResult) => Audited(r.world, BookOf(base.drafts + r.drafts, a), a);
    assert base.drafts + [] == base.drafts;
    forall r: StepResult, m: MicroStep | inv(r) && sync(m) ensures inv(Concat(r, step(r.world, m))) {
      AuditMicro(r.world, cfg, m, BookOf(base.drafts + r.drafts, a), a);
      var more := Micro(r.world, cfg, m).drafts;
      BookAppend(base.drafts + r.drafts, more, a);
      assert base.drafts + (r.drafts + more) == (base.drafts + r.drafts) + more;
    }
    TraceInduction(step, sync, inv, base.world, ms);
  }

  /** Log accounting: over every synchronous run the totals of the whole log are the sizes of
      the sets of agents in its final world. */
  lemma LogTotals(s: Setup, ms: seq<MicroStep>)
    requires Valid(s) && Synchronous(ms)
    ensures var r := AfterMicros(s, ms); TotalsAgree(r.world, Count(r.drafts))
  {
    AuditRun(s, ms, 0);
    BookMeans(AfterMicros(s, ms).drafts, 0);
  }

  /** The rate the program reports is the share of quarantined agents that were never compromised. */
  lemma FalseQuarantineShare(s: Setup, ms: seq<MicroStep>)
    requires Valid(s) && Synchronous(ms)
    ensures var r := AfterMicros(s, ms);
      FalseQuarantineRate(r.drafts) == Share(|QuarantinedAgents(r.world) - EverCompromised(r.world)|, |QuarantinedAgents(r.world)|)
  {
    LogTotals(s, ms);
  }

  /** No agent is quarantined twice; a legitimate quarantine comes in the tick of the detection,
      and both exist exactly for the quarantined agents that were compromised. */
  lemma LogPerAgent(s: Setup, ms: seq<MicroStep>, a: AgentId)
    requires Valid(s) && Synchronous(ms)
    ensures var r := AfterMicros(s, ms);
      && QuarantinesOf(r.drafts, a) == (if a in QuarantinedAgents(r.world) then 1 else 0)
      && FirstQuarantined(r.drafts, a) == FirstDetected(r.drafts, a)
      && (FirstDetected(r.drafts, a).Some? <==> a in QuarantinedAgents(r.world) && a in EverCompromised(r.world))
  {
    AuditRun(s, ms, a);
    BookMeans(AfterMicros(s, ms).drafts, a);
  }

  /** The reported attack success rate divides by one more than the attempts: the seed counts as
      a success nobody attempted. */
  lemma SuccessRateMeans(s: Setup, ms: seq<MicroStep>)
    requires Valid(s) && Synchronous(ms)
    ensures var t := Count(AfterMicros(s, ms).drafts);
      AttackSuccessRate(AfterMicros(s, ms).drafts) == t.succeeded as real / (t.attempted + 1) as real
  {
    hide AfterMicros, Count;
    LogTotals(s, ms);
  }

  function Unaffected(w: World): set<AgentId> { w.nodes.Keys - CompromisedAgents(w) - QuarantinedAgents(w) }

  lemma UnaffectedShrinks(w: World, cfg: Config, v: World)
    requires Evolves(w, cfg, v)
    ensures Unaffected(v) <= Unaffected(w) && v.nodes.Keys == w.nodes.Keys
  {
  }

  lemma UnaffectedForever(w: World, cfg: Config, ms: seq<MicroStep>)
    ensures var v := Micros(w, cfg, ms).world; Unaffected(v) <= Unaffected(w) && v.nodes.Keys == w.nodes.Keys
  {
    hide Unaffected;
    var step := (v: World, m: MicroStep) => Micro(v, cfg, m);
    var inv := (r: StepResult) => Unaffected(r.world) <= Unaffected(w) && r.world.nodes.Keys == w.nodes.Keys;
    forall r: StepResult, m: MicroStep | inv(r) ensures inv(Concat(r, step(r.world, m))) {
      MicroEvolves(r.world, cfg, m);
      UnaffectedShrinks(r.world, cfg, Micro(r.world, cfg, m).world);
    }
    TraceInduction(step, m => true, inv, w, ms);
  }

  lemma ShareMonotone(a: nat, b: nat, n: nat)
    requires a <= b
    ensures Share(a, n) <= Share(b, n)
  {
  }

  /** Retained utility never rises along a run, whatever scenarios, detection and models do. */
  lemma UtilityNeverRises(w: World, cfg: Config, ms: seq<MicroStep>)
    ensures RetainedUtility(Micros(w, cfg, ms).world) <= RetainedUtility(w)
  {
    hide Micros, Share;
    UnaffectedForever(w, cfg, ms);
    var v := Micros(w, cfg, ms).world;
    SubsetSize(Unaffected(v), Unaffected(w));
    ShareMonotone(|Unaffected(v)|, |Unaffected(w)|, |w.nodes.Keys|);
  }
}
