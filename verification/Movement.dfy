/** Which events move an agent, and that what moved in a run never moves back. */
module Movement {
  import opened Ordering
  import opened World
  import opened Attempts
  import opened Runs
  import opened Engine
  import opened Effects
  import opened EventSourcing
  import opened LogAccounting
  import opened Metrics
  import DetectionStep
  import Simulation

  /** An unflagged success or a quarantine. */
  predicate Moves(d: Draft) {
    (d.kind.CompromiseSucceeded? && !d.kind.alreadyCompromised) || d.kind.AgentQuarantined?
  }

  ghost predicate AnyMove(ds: seq<Draft>) { exists d :: d in ds && Moves(d) }

  lemma {:induction false} CountedMoves(ds: seq<Draft>)
    ensures AnyMove(ds) <==> Count(ds).landed > 0 || Count(ds).quarantined > 0
  {
    if |ds| > 0 {
      var earlier, d := ds[..|ds| - 1], ds[|ds| - 1];
      assert ds == earlier + [d];
      CountedMoves(earlier);
      MovesAppend(earlier, [d]);
      assert AnyMove([d]) <==> Moves(d) by { OneMove(d); }
    }
  }

  lemma OneMove(d: Draft)
    ensures AnyMove([d]) <==> Moves(d)
  {
    if Moves(d) { assert d in [d]; }
  }

  lemma MovesAppend(x: seq<Draft>, y: seq<Draft>)
    ensures AnyMove(x + y) <==> AnyMove(x) || AnyMove(y)
  {
  }

  /** Healthy, then compromised, then quarantined. */
  function Stage(s: SecurityState): nat {
    match s
    case Compromised => 1
    case Quarantined => 2
    case _ => 0
  }

  /** Every agent of v is as in w or at a later stage. */
  ghost predicate Ahead(w: World, v: World) {
    && v.nodes.Keys == w.nodes.Keys
    && forall a | a in w.nodes :: v.nodes[a] == w.nodes[a] || Stage(w.nodes[a].state) < Stage(v.nodes[a].state)
  }

  lemma EvolvesAhead(w: World, cfg: Config, v: World)
    requires Evolves(w, cfg, v)
    ensures Ahead(w, v)
  {
    hide DetectionStep.Suppressed;
  }

  lemma AheadChain(w: World, v: World, u: World)
    requires Ahead(w, v) && Ahead(v, u)
    ensures Ahead(w, u)
    ensures u.nodes == w.nodes ==> v.nodes == w.nodes
  {
    if u.nodes == w.nodes {
      forall a | a in w.nodes ensures v.nodes[a] == w.nodes[a] {
      }
    }
  }

  lemma SpreadMoves(w: World, cfg: Config, claims: map<AgentId, AgentId>)
    requires Legal(w, cfg, Spread(claims))
    ensures Infect(w.nodes, claims, w.tick) == w.nodes <==> |claims| == 0
  {
    var v := Infect(w.nodes, claims, w.tick);
    if |claims| == 0 {
      assert claims == map[];
    } else {
      var t :| t in claims;
      assert t in HealthyNeighbors(w, claims[t]);
      assert v[t].state == Compromised && w.nodes[t].state == Healthy;
    }
  }

  lemma ConfineMoves(w: World, hits: set<AgentId>, accused: set<AgentId>)
    requires hits <= CompromisedAgents(w) && accused <= HealthyAgents(w)
    ensures DetectionStep.Confine(w.nodes, hits + accused) == w.nodes <==> |hits| + |accused| == 0
  {
    var v := DetectionStep.Confine(w.nodes, hits + accused);
    if |hits| + |accused| == 0 {
      assert hits + accused == {};
    } else {
      var a :| a in (if |hits| > 0 then hits else accused);
      assert v[a].state == Quarantined && w.nodes[a].state != Quarantined;
    }
  }

  lemma ScenarioMoves(w: World, cfg: Config, name: ScenarioName)
    ensures AnyMove(Scenario(w, cfg, name).drafts) <==> Scenario(w, cfg, name).world.nodes != w.nodes
  {
    hide AnyMove, Scenario, BookOf, Infect, Count;
    var r := Scenario(w, cfg, name);
    CountedMoves(r.drafts);
    BookMeans(r.drafts, 0);
    MicroEffect(w, cfg, RunScenario(name));
    assert Micro(w, cfg, RunScenario(name)) == r;
    if OwnsTick(name) {
      AttackerBook(w, cfg, name, 0);
      SpreadMoves(w, cfg, EffectOf(w, cfg, RunScenario(name)).claims);
    } else {
      PlaneBook(w, cfg, name, 0);
    }
  }

  lemma DetectMoves(w: World, cfg: Config)
    ensures AnyMove(DetectionStep.Step(w, cfg).drafts) <==> DetectionStep.Step(w, cfg).world.nodes != w.nodes
  {
    hide AnyMove, BookOf, DetectionStep.Confine, Sorted, Book.Plus, HitsBook, FalseBook;
    var r := DetectionStep.Step(w, cfg);
    if cfg.defenseEnabled {
      var hits := DetectionStep.Hits(w, cfg, Sorted(DetectionStep.Candidates(w, cfg)));
      var accused := DetectionStep.FalseHits(w, cfg, Sorted(DetectionStep.Accusable(w, cfg)));
      CountedMoves(r.drafts);
      BookMeans(r.drafts, 0);
      DetectBook(w, cfg, 0);
      DetectCounts(w, hits, accused);
      ConfineMoves(w, hits, accused);
    } else {
      assert !AnyMove([]) by { NoMove(); }
    }
  }

  lemma NoMove()
    ensures !AnyMove([])
  {
  }

  lemma DetectCounts(w: World, hits: set<AgentId>, accused: set<AgentId>)
    ensures var t := HitsBook(w, hits, 0).Plus(FalseBook(accused, 0)).tally;
      t.landed == 0 && t.quarantined == |hits| + |accused|
  {
    hide Book.Plus;
    PlusFields(HitsBook(w, hits, 0), FalseBook(accused, 0));
  }

  lemma MicroMoves(w: World, cfg: Config, m: MicroStep)
    requires !m.AskModels?
    ensures AnyMove(Micro(w, cfg, m).drafts) <==> Micro(w, cfg, m).world.nodes != w.nodes
  {
    hide AnyMove, Scenario, DetectionStep.Step;
    match m
    case RunScenario(name) => ScenarioMoves(w, cfg, name);
    case Detect => DetectMoves(w, cfg);
  }

  ghost predicate Told(w: World, r: StepResult) {
    Ahead(w, r.world) && (AnyMove(r.drafts) <==> r.world.nodes != w.nodes)
  }

  lemma ToldNext(w: World, cfg: Config, r: StepResult, m: MicroStep)
    requires Told(w, r) && !m.AskModels?
    ensures Told(w, Concat(r, Micro(r.world, cfg, m)))
  {
    hide AnyMove, Micro, Ahead;
    var s := Micro(r.world, cfg, m);
    MicroMoves(r.world, cfg, m);
    MicroEvolves(r.world, cfg, m);
    EvolvesAhead(r.world, cfg, s.world);
    AheadChain(w, r.world, s.world);
    MovesAppend(r.drafts, s.drafts);
  }

  /** Over every synchronous run: somebody's record or state differs at the end exactly when the
      run's events contain an unflagged success or a quarantine. */
  lemma RunMoves(w: World, cfg: Config, ms: seq<MicroStep>)
    requires Synchronous(ms)
    ensures AnyMove(Micros(w, cfg, ms).drafts) <==> Micros(w, cfg, ms).world.nodes != w.nodes
  {
    hide Told, Micro;
    var step := (v: World, m: MicroStep) => Micro(v, cfg, m);
    var sync := (m: MicroStep) => !m.AskModels?;
    var inv := (r: StepResult) => Told(w, r);
    ToldStart(w);
    forall r: StepResult, m: MicroStep | inv(r) && sync(m) ensures inv(Concat(r, step(r.world, m))) {
      ToldNext(w, cfg, r, m);
    }
    TraceInduction(step, sync, inv, w, ms);
    ToldMeans(w, Micros(w, cfg, ms));
  }

  lemma ToldStart(w: World)
    ensures Told(w, StepResult(w, []))
  {
    NoMove();
  }

  lemma ToldMeans(w: World, r: StepResult)
    requires Told(w, r)
    ensures AnyMove(r.drafts) <==> r.world.nodes != w.nodes
  {
  }

  /** The same for what the reducer knows of the agents. */
  lemma RunMovesView(w: World, cfg: Config, ms: seq<MicroStep>)
    requires Synchronous(ms)
    ensures AnyMove(Micros(w, cfg, ms).drafts) <==> ViewOf(Micros(w, cfg, ms).world.nodes) != ViewOf(w.nodes)
  {
    hide Micros, AnyMove;
    RunMoves(w, cfg, ms);
    Simulation.FrameKept(w, cfg, ms);
    SameNodes(w, Micros(w, cfg, ms).world);
  }

  lemma SameNodes(w: World, v: World)
    requires Simulation.SameFrame(w, v)
    ensures ViewOf(v.nodes) == ViewOf(w.nodes) <==> v.nodes == w.nodes
  {
    if ViewOf(v.nodes) == ViewOf(w.nodes) {
      forall a | a in w.nodes ensures v.nodes[a] == w.nodes[a] {
        assert ViewOf(w.nodes)[a] == ViewOf(v.nodes)[a];
      }
    }
  }
}
