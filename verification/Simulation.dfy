/** The batch loop, the replay loop, and when each terminates and agrees with a live run.
    engine/simulate.py, engine/replay.py */
module Simulation {
  import opened World
  import opened Runs
  import opened Engine
  import opened Effects
  import opened EventSourcing
  import opened Experiment
  import opened Ownerless
  import PropagationStep
  import DetectionStep
  import GraphFacts
  import Topology

  ghost predicate Finished(base: StepResult, cfg: Config, n: nat) {
    PropagationStep.Finished(From(base, cfg, n).world, cfg)
  }

  // --- simulate -------------------------------------------------------------------------------

  ghost predicate Halts(base: StepResult, cfg: Config)
  {
    exists n :: Finished(base, cfg, n)
  }

  /** n is where the batch loop leaves off. */
  ghost predicate FinalTick(base: StepResult, cfg: Config, n: nat)
  {
    Finished(base, cfg, n) && forall k: nat | k < n :: !Finished(base, cfg, k)
  }

  /** EXPERIMENT_STARTED, then the topology. */
  method Begin(s: Setup) returns (r: StepResult)
    requires Valid(s)
    ensures r == Start(s)
  {
    var world, drafts := Topology.BuildWorldFromAgents(s.ids, s.links, s.cfg);
    r := StepResult(world, [Draft(0, ExperimentStarted)] + drafts);
  }

  /** `world, tick_drafts = advance(world, config); drafts.extend(tick_drafts)`. */
  method Extend(ghost base: StepResult, cfg: Config, r: StepResult, ghost n: nat) returns (next: StepResult)
    requires r == From(base, cfg, n)
    ensures next == From(base, cfg, n + 1)
  {
    var t := Tick(r.world, cfg);
    FromNext(base, cfg, n);
    next := Concat(r, t);
  }

  /** `while not is_finished(world, config)`, from any world. */
  method Loop(base: StepResult, cfg: Config) returns (r: StepResult, ghost n: nat)
    requires Halts(base, cfg)
    ensures FinalTick(base, cfg, n) && r == From(base, cfg, n)
  {
    hide Advance;
    r, n := base, 0;
    FromNext(base, cfg, 0);
    ghost var last: nat :| Finished(base, cfg, last);
    while true
      invariant r == From(base, cfg, n) && forall k: nat | k < n :: !Finished(base, cfg, k)
      decreases last - n
    {
      var done := PropagationStep.IsFinished(r.world, cfg);
      if done { break; }
      r := Extend(base, cfg, r, n);
      n := n + 1;
    }
  }

  method Simulate(s: Setup) returns (r: StepResult)
    requires Valid(s) && Halts(Start(s), s.cfg)
    ensures exists n: nat :: FinalTick(Start(s), s.cfg, n) && r == After(s, n)
  {
    hide Start, Valid;
    var base := Begin(s);
    ghost var n;
    r, n := Loop(base, s.cfg);
  }

  lemma Multiple(n: nat, c: nat)
    requires c > 0
    ensures n * c >= n
  {
  }

  /** With a clock owner some tick at or before `max_ticks` is final. */
  lemma FinishesByMaxTicks(base: StepResult, cfg: Config)
    requires OwnsClock(cfg)
    ensures Finished(base, cfg, cfg.maxTicks)
  {
    Clock(base, cfg, cfg.maxTicks);
    Multiple(cfg.maxTicks, Owners(cfg.activeScenarios));
  }

  /** With a clock owner the batch run takes at most `max_ticks` ticks. */
  lemma BatchBound(base: StepResult, cfg: Config, n: nat)
    requires OwnsClock(cfg)
    ensures Halts(base, cfg)
    ensures FinalTick(base, cfg, n) ==> n <= cfg.maxTicks
  {
    FinishesByMaxTicks(base, cfg);
  }

  // --- without a clock owner nothing moves after the first tick ---------------------------------

  /** Detection has nothing left to draw: the same draws would be made again. */
  ghost predicate Exhausted(w: World, cfg: Config) {
    cfg.defenseEnabled ==> forall a :: a !in DetectionStep.Caught(w, cfg)
  }

  /** After one detection pass the same pass catches nobody, even if more sentinels fall. */
  lemma DetectionExhausts(w: World, cfg: Config, v: World)
    requires v.nodes == DetectionStep.Step(w, cfg).world.nodes && v.tick == w.tick
    requires w.compromisedGraph <= v.compromisedGraph
    ensures Exhausted(v, cfg)
  {
    if cfg.defenseEnabled {
      forall a ensures a !in DetectionStep.Caught(v, cfg) {
        DetectionStep.CaughtMeaning(v, cfg, a);
        DetectionStep.CaughtMeaning(w, cfg, a);
        SuppressionGrows(w, cfg, v);
      }
    }
  }

  lemma SuppressionGrows(w: World, cfg: Config, v: World)
    requires w.nodes.Keys == v.nodes.Keys && w.compromisedGraph <= v.compromisedGraph
    ensures DetectionStep.Suppressed(w, cfg) <= DetectionStep.Suppressed(v, cfg)
  {
    forall a | a in DetectionStep.Suppressed(w, cfg) ensures a in DetectionStep.Suppressed(v, cfg) {
      assert GraphFacts.Monitor(w, cfg, a) == GraphFacts.Monitor(v, cfg, a);
    }
  }

  lemma ExhaustedIdle(w: World, cfg: Config)
    requires Exhausted(w, cfg)
    ensures DetectionStep.Step(w, cfg).world.nodes == w.nodes
  {
  }

  /** v's agents and clock are those of w after its first ownerless tick. */
  ghost predicate Settled(w: World, cfg: Config, v: World) {
    var s := Scenarios(w, cfg, cfg.activeScenarios).world;
    && v.nodes == Advance(w, cfg).world.nodes && v.tick == w.tick
    && s.compromisedGraph <= v.compromisedGraph
  }

  lemma SettledFirst(w: World, cfg: Config)
    requires !OwnsClock(cfg)
    ensures Settled(w, cfg, Advance(w, cfg).world)
  {
    var s := Scenarios(w, cfg, cfg.activeScenarios).world;
    ScenariosIdle(w, cfg, cfg.activeScenarios);
    MicroEffect(s, cfg, Detect);
  }

  lemma SettledNext(w: World, cfg: Config, v: World)
    requires !OwnsClock(cfg) && Settled(w, cfg, v)
    ensures Settled(w, cfg, Advance(v, cfg).world)
  {
    var s := Scenarios(w, cfg, cfg.activeScenarios).world;
    var t := Scenarios(v, cfg, cfg.activeScenarios).world;
    ScenariosIdle(w, cfg, cfg.activeScenarios);
    ScenariosIdle(v, cfg, cfg.activeScenarios);
    DetectionExhausts(s, cfg, t);
    ExhaustedIdle(t, cfg);
    MicroEffect(t, cfg, Detect);
  }

  lemma {:induction false} SettledForever(base: StepResult, cfg: Config, n: nat)
    requires !OwnsClock(cfg) && n > 0
    ensures Settled(base.world, cfg, From(base, cfg, n).world)
  {
    FromNext(base, cfg, n - 1);
    if n == 1 {
      FromNext(base, cfg, 0);
      SettledFirst(base.world, cfg);
    } else {
      SettledForever(base, cfg, n - 1);
      SettledNext(base.world, cfg, From(base, cfg, n - 1).world);
    }
  }

  lemma FinishedAlike(cfg: Config, v: World, u: World)
    requires v.nodes == u.nodes && v.tick == u.tick
    ensures PropagationStep.Finished(v, cfg) <==> PropagationStep.Finished(u, cfg)
  {
  }

  /** Without a clock owner the batch loop ends only at the start or after the first tick. */
  lemma HaltsEarly(base: StepResult, cfg: Config)
    requires !OwnsClock(cfg)
    ensures Halts(base, cfg) <==> Finished(base, cfg, 0) || Finished(base, cfg, 1)
  {
    if n :| Finished(base, cfg, n) {
      if n > 1 {
        SettledForever(base, cfg, n);
        SettledForever(base, cfg, 1);
        FinishedAlike(cfg, From(base, cfg, n).world, From(base, cfg, 1).world);
      }
    }
  }

  /** The agents after the first ownerless tick. */
  lemma FirstTickAgents(w: World, cfg: Config, a: AgentId)
    requires !OwnsClock(cfg) && a in w.nodes
    ensures var v := Advance(w, cfg).world;
      && v.nodes.Keys == w.nodes.Keys && v.tick == w.tick
      && v.nodes[a] == if CaughtFirst(w, cfg, a) then w.nodes[a].(state := Quarantined) else w.nodes[a]
  {
    hide Scenarios, CaughtFirst, DetectionStep.Caught;
    ScenariosIdle(w, cfg, cfg.activeScenarios);
    CaughtAfterScenarios(w, cfg, a);
  }

  /** The outbreak is over after the first tick exactly when that tick cuts its frontier. */
  lemma QuietAfterFirst(w: World, cfg: Config)
    requires !OwnsClock(cfg) && w.nodes.Keys == Advance(w, cfg).world.nodes.Keys
    ensures PropagationStep.Quiet(Advance(w, cfg).world) <==> FrontierCut(w, cfg)
  {
    hide CaughtFirst, Advance;
    var v := Advance(w, cfg).world;
    forall a | a in w.nodes
      ensures v.nodes[a] == if CaughtFirst(w, cfg, a) then w.nodes[a].(state := Quarantined) else w.nodes[a]
    {
      FirstTickAgents(w, cfg, a);
    }
    if PropagationStep.Quiet(v) {
      forall a, b | a in CompromisedAgents(w) && b in HealthyNeighbors(w, a)
        ensures CaughtFirst(w, cfg, a) || CaughtFirst(w, cfg, b)
      {
        assert b in w.nodes[a].neighbors;
      }
    }
    if FrontierCut(w, cfg) {
      forall a, b | a in v.nodes && v.nodes[a].state == Compromised && b in v.nodes[a].neighbors && b in v.nodes
        ensures v.nodes[b].state != Healthy
      {
        if w.nodes[b].state == Healthy { assert a in CompromisedAgents(w) && b in HealthyNeighbors(w, a); }
      }
    }
  }

  /** Exactly when the batch loop ends, told from the world it starts in: some active scenario
      owns the clock, or the ticks are used up, or every edge from a compromised to a healthy agent
      loses an end to the first tick's detection. */
  lemma HaltsExactly(base: StepResult, cfg: Config)
    ensures Halts(base, cfg) <==> OwnsClock(cfg) || base.world.tick >= cfg.maxTicks || FrontierCut(base.world, cfg)
  {
    hide CaughtFirst, Advance;
    if OwnsClock(cfg) {
      FinishesByMaxTicks(base, cfg);
    } else {
      HaltsEarly(base, cfg);
      FromNext(base, cfg, 0);
      AdvanceClock(base.world, cfg);
      AdvanceKeys(base.world, cfg);
      QuietAfterFirst(base.world, cfg);
    }
  }

  lemma AdvanceKeys(w: World, cfg: Config)
    ensures Advance(w, cfg).world.nodes.Keys == w.nodes.Keys
  {
    AdvanceIsMicros(w, cfg);
    FrameKept(w, cfg, TickSteps(cfg));
  }

  // --- replay ---------------------------------------------------------------------------------

  /** `not _should_continue(world_n, config, target)`. */
  ghost predicate Stops(base: StepResult, cfg: Config, target: nat, n: nat)
  {
    From(base, cfg, n).world.tick >= target || Finished(base, cfg, n)
  }

  ghost predicate ReplayEnds(base: StepResult, cfg: Config, target: nat, n: nat)
  {
    Stops(base, cfg, target, n) && forall k: nat | k < n :: !Stops(base, cfg, target, k)
  }

  /** `while _should_continue(world, config, target_tick)`, from any world. */
  method ReplayLoop(base: StepResult, cfg: Config, target: nat) returns (r: StepResult, ghost n: nat)
    requires exists k :: Stops(base, cfg, target, k)
    ensures ReplayEnds(base, cfg, target, n) && r == From(base, cfg, n)
  {
    hide Advance;
    r, n := base, 0;
    FromNext(base, cfg, 0);
    ghost var last: nat :| Stops(base, cfg, target, last);
    while true
      invariant r == From(base, cfg, n) && forall k: nat | k < n :: !Stops(base, cfg, target, k)
      decreases last - n
    {
      if r.world.tick >= target { break; }
      var done := PropagationStep.IsFinished(r.world, cfg);
      if done { break; }
      r := Extend(base, cfg, r, n);
      n := n + 1;
    }
  }

  method ReconstructSync(s: Setup, target: nat) returns (r: StepResult)
    requires Valid(s) && exists k :: Stops(Start(s), s.cfg, target, k)
    ensures exists n: nat :: ReplayEnds(Start(s), s.cfg, target, n) && r == After(s, n)
  {
    hide Start, Valid;
    var base := Begin(s);
    ghost var n;
    r, n := ReplayLoop(base, s.cfg, target);
  }

  /** A gateway-free live loop can stand after k iterations: it was never finished before. */
  ghost predicate LiveAt(base: StepResult, cfg: Config, k: nat)
  {
    forall j: nat | j < k :: !Finished(base, cfg, j)
  }

  lemma TicksOrdered(j: nat, k: nat, c: nat)
    requires c > 0
    ensures j < k <==> j * c < k * c
  {
    if j < k { assert k * c == j * c + (k - j) * c; }
    if j >= k { assert j * c == k * c + (j - k) * c; }
  }

  /** With a clock owner, replay to the tick of a live run ends after the run's own ticks. */
  lemma OwnedReplayEnds(base: StepResult, cfg: Config, k: nat)
    requires OwnsClock(cfg) && LiveAt(base, cfg, k)
    ensures ReplayEnds(base, cfg, From(base, cfg, k).world.tick, k)
  {
    Clock(base, cfg, k);
    forall j: nat | j < k ensures !Stops(base, cfg, From(base, cfg, k).world.tick, j) {
      Clock(base, cfg, j);
      TicksOrdered(j, k, Owners(cfg.activeScenarios));
    }
  }

  lemma OwnedReplayExact(base: StepResult, cfg: Config, k: nat, n: nat)
    requires OwnsClock(cfg) && LiveAt(base, cfg, k)
    requires ReplayEnds(base, cfg, From(base, cfg, k).world.tick, n)
    ensures n == k
  {
    Clock(base, cfg, k);
    Clock(base, cfg, n);
    TicksOrdered(n, k, Owners(cfg.activeScenarios));
    assert Stops(base, cfg, From(base, cfg, k).world.tick, k);
  }

  /** Links and per-agent identity never change. */
  ghost predicate SameFrame(w: World, v: World) {
    v.nodes.Keys == w.nodes.Keys && v.edges == w.edges && forall a | a in w.nodes :: SameIdentity(w.nodes[a], v.nodes[a])
  }

  lemma FrameKept(w: World, cfg: Config, ms: seq<MicroStep>)
    ensures SameFrame(w, Micros(w, cfg, ms).world)
  {
    var step := (v: World, m: MicroStep) => Micro(v, cfg, m);
    var inv := (r: StepResult) => SameFrame(w, r.world);
    forall r: StepResult, m: MicroStep | inv(r) ensures inv(Concat(r, step(r.world, m))) {
      MicroEvolves(r.world, cfg, m);
      FrameStep(w, r.world, cfg, Micro(r.world, cfg, m).world);
    }
    TraceInduction(step, m => true, inv, w, ms);
  }

  lemma FrameStep(w: World, v: World, cfg: Config, u: World)
    requires SameFrame(w, v) && Evolves(v, cfg, u)
    ensures SameFrame(w, u)
  {
  }

  lemma SameWorld(w: World, v: World)
    requires SameFrame(w, v) && ViewOf(w.nodes) == ViewOf(v.nodes)
    requires w.tick == v.tick && w.compromisedGraph == v.compromisedGraph
    ensures w == v
  {
    forall a | a in w.nodes ensures w.nodes[a] == v.nodes[a] {
      assert ViewOf(w.nodes)[a] == ViewOf(v.nodes)[a];
    }
  }

  /** A stretch of ownerless ticks that emitted nothing changed nothing. */
  lemma SilentTicks(w: World, cfg: Config, n: nat)
    requires !OwnsClock(cfg) && Run(w, cfg, n).drafts == []
    ensures Run(w, cfg, n).world == w
  {
    var ms := RunSteps(cfg, n);
    RunIsMicros(w, cfg, n);
    RunExplainsNodes(w, cfg, ms);
    RunExplainsGraph(w, cfg, ms);
    FrameKept(w, cfg, ms);
    RunClock(w, cfg, n);
    SameWorld(w, Run(w, cfg, n).world);
  }

  lemma SameLogIffSilent(base: StepResult, run: StepResult)
    ensures Concat(base, run).drafts == base.drafts <==> run.drafts == []
    ensures run.drafts == [] && run.world == base.world ==> Concat(base, run) == base
  {
    if Concat(base, run).drafts == base.drafts { assert |run.drafts| == 0; }
  }

  /** Without a clock owner the replay target is tick 0, so replay runs no tick at all. */
  lemma OwnerlessReplay(base: StepResult, cfg: Config, k: nat, n: nat)
    requires !OwnsClock(cfg)
    requires ReplayEnds(base, cfg, From(base, cfg, k).world.tick, n)
    ensures n == 0
  {
    Clock(base, cfg, k);
    Clock(base, cfg, 0);
    assert Stops(base, cfg, From(base, cfg, k).world.tick, 0);
  }

  /** And so it does, whenever the run is replayed. */
  lemma ReplayEndsAtOnce(base: StepResult, cfg: Config, k: nat)
    requires !OwnsClock(cfg)
    ensures ReplayEnds(base, cfg, From(base, cfg, k).world.tick, 0)
  {
    Clock(base, cfg, k);
    Clock(base, cfg, 0);
  }

  lemma OwnerlessAgrees(base: StepResult, cfg: Config, k: nat)
    requires !OwnsClock(cfg)
    ensures From(base, cfg, 0) == From(base, cfg, k) <==> k == 0 || SilentTick(base.world, cfg)
  {
    hide SilentTick, Run;
    FromNext(base, cfg, 0);
    RunSilent(base.world, cfg, k);
    SameLogIffSilent(base, Run(base.world, cfg, k));
    if Run(base.world, cfg, k).drafts == [] { SilentTicks(base.world, cfg, k); }
  }

  /** Replay equals live, exactly: for a live run standing after k ticks, re-running to its tick
      gives the same world and the same log if and only if some active scenario owns the clock, or
      no tick has run, or the first tick had nothing to report in the world the run started in. */
  lemma ReplayEqualsLive(base: StepResult, cfg: Config, k: nat, n: nat)
    requires LiveAt(base, cfg, k)
    requires ReplayEnds(base, cfg, From(base, cfg, k).world.tick, n)
    ensures From(base, cfg, n) == From(base, cfg, k) <==> OwnsClock(cfg) || k == 0 || SilentTick(base.world, cfg)
  {
    hide SilentTick;
    if OwnsClock(cfg) {
      OwnedReplayExact(base, cfg, k, n);
    } else {
      OwnerlessReplay(base, cfg, k, n);
      OwnerlessAgrees(base, cfg, k);
    }
  }
}
