/** Inputs on which the code does not keep a promise it makes in general: whole families of set-ups,
    and members of them at every size. */
module Counterexamples {
  import opened Wrappers
  import opened Ordering
  import opened World
  import opened Engine
  import opened Experiment
  import opened Ownerless
  import Attempts
  import Behaviours
  import DetectionStep
  import Events
  import EventSourcing
  import Latency
  import Metrics
  import ModelRuns
  import PropagationStep
  import RealAgentStep
  import RunAccounts
  import RunnerProtocol
  import Simulation
  import Stream
  import Topology

  function Seed(s: Setup): AgentId
    requires Valid(s)
  {
    Topology.SeedNode(s.ids, s.links, s.cfg)
  }

  /** What the tick-0 world is like. */
  lemma StartShape(s: Setup)
    requires Valid(s)
    ensures var w := Start(s).world;
      && Seed(s) in CompromisedAgents(w) && Seed(s) in EverCompromised(w) && w.tick == 0 && w.compromisedGraph == {}
  {
    Topology.InitialWorldShape(s.ids, s.links, s.cfg);
  }

  // --- no scenario is active ------------------------------------------------------------------------------

  /** No scenario, defense on, and the seed has a neighbour to spread to. */
  predicate Unowned(s: Setup) {
    && Valid(s) && s.cfg.activeScenarios == [] && s.cfg.defenseEnabled && s.cfg.maxTicks > 0
    && HealthyNeighbors(Start(s).world, SeedIn(s)) != {}
  }

  /** The seed, as an agent of the tick-0 world. */
  function SeedIn(s: Setup): (a: AgentId)
    requires Valid(s)
    ensures a in Start(s).world.nodes
  {
    StartShape(s);
    Seed(s)
  }

  /** The first detection pass draws below the sensitivity for the seed. */
  predicate SeedDetected(s: Setup)
    requires Valid(s)
  {
    s.cfg.draw(0, DetectDraw(Seed(s))) < s.cfg.detectorSensitivity
  }

  lemma UnownedFacts(s: Setup)
    requires Unowned(s)
    ensures Valid(s) && !OwnsClock(s.cfg) && s.cfg.defenseEnabled && !Simulation.Finished(Start(s), s.cfg, 0)
  {
    hide Start, Valid;
    NotFinished(s);
  }

  lemma NotFinished(s: Setup)
    requires Valid(s) && s.cfg.maxTicks > 0 && HealthyNeighbors(Start(s).world, SeedIn(s)) != {}
    ensures !Simulation.Finished(Start(s), s.cfg, 0)
  {
    hide Start, Valid;
    StartShape(s);
    FromNext(Start(s), s.cfg, 0);
    var b :| b in HealthyNeighbors(Start(s).world, SeedIn(s));
    assert b in Start(s).world.nodes[Seed(s)].neighbors;
  }

  lemma SeedCaught(s: Setup)
    requires Unowned(s)
    ensures Seed(s) in DetectionStep.Caught(Start(s).world, s.cfg) <==> SeedDetected(s)
    ensures CaughtFirst(Start(s).world, s.cfg, Seed(s)) <==> SeedDetected(s)
  {
    hide DetectionStep.Caught, Start, Valid;
    StartShape(s);
    DetectionStep.CaughtMeaning(Start(s).world, s.cfg, Seed(s));
  }

  /** Replay, for every topology and generator: the live run stands after one tick with the seed's
      quarantine in its log, at tick 0; replay to tick 0 runs no tick at all. */
  lemma ReplayDiffers(s: Setup)
    requires Unowned(s) && SeedDetected(s)
    ensures Simulation.LiveAt(Start(s), s.cfg, 1)
    ensures Simulation.ReplayEnds(Start(s), s.cfg, After(s, 1).world.tick, 0) && After(s, 0) != After(s, 1)
  {
    hide Start, Valid, SilentTick, DetectionStep.Caught, Unowned, SeedDetected, Seed, From, OwnsClock, Simulation.ReplayEnds, Simulation.Finished;
    UnownedFacts(s);
    var base := Start(s);
    Simulation.ReplayEndsAtOnce(base, s.cfg, 1);
    SeedCaught(s);
    NotSilent(base.world, s.cfg, Seed(s));
    Simulation.ReplayEqualsLive(base, s.cfg, 1, 0);
  }

  lemma NotSilent(w: World, cfg: Config, a: AgentId)
    requires cfg.defenseEnabled && a in DetectionStep.Caught(w, cfg)
    ensures !SilentTick(w, cfg)
  {
  }

  /** Termination, for every topology and generator: if the seed is not detected and nobody is
      falsely accused, the batch loop has no last tick. */
  lemma NeverHalts(s: Setup)
    requires Unowned(s) && !SeedDetected(s) && s.cfg.falseQuarantineRate <= 0.0
    ensures !Simulation.Halts(Start(s), s.cfg)
  {
    hide Start, Valid, CaughtFirst;
    StartShape(s);
    SeedCaught(s);
    var b :| b in HealthyNeighbors(Start(s).world, SeedIn(s));
    HealthyUncaught(Start(s).world, s.cfg, b);
    Simulation.HaltsExactly(Start(s), s.cfg);
  }

  lemma HealthyUncaught(w: World, cfg: Config, b: AgentId)
    requires b in HealthyAgents(w) && cfg.falseQuarantineRate <= 0.0
    ensures !CaughtFirst(w, cfg, b)
  {
  }

  lemma {:induction false} DelayRecorded(w: World, log: seq<Draft>, ids: seq<AgentId>, a: AgentId)
    requires forall x | x in ids :: x in w.nodes
    requires a in ids && a in EverCompromised(w) && Metrics.FirstDetected(log, a).Some?
    ensures |Metrics.DetectionDelays(w, log, ids)| > 0
  {
    var earlier, x := ids[..|ids| - 1], ids[|ids| - 1];
    assert ids == earlier + [x];
    if x != a { DelayRecorded(w, log, earlier, a); }
  }

  /** Detection latency, for every topology and generator: the seed is detected in the tick it was
      compromised in, and the reported latency is zero. */
  lemma LatencyIsZero(s: Setup)
    requires Unowned(s) && SeedDetected(s)
    ensures var r := After(s, 1);
      Metrics.MeanOf(Metrics.DetectionDelays(r.world, r.drafts, Sorted(r.world.nodes.Keys))) == Some(0.0)
  {
    hide Start, Valid, CaughtFirst, Engine.Advance, Sorted, Metrics.FirstDetected, Metrics.FirstQuarantined;
    var base, a := Start(s), Seed(s);
    StartShape(s);
    FromNext(base, s.cfg, 0);
    SeedCaught(s);
    Simulation.FirstTickAgents(base.world, s.cfg, a);
    var r := After(s, 1);
    AfterIsMicros(s, 1);
    RunAccounts.LogPerAgent(s, RunSteps(s.cfg, 1), a);
    DelayRecorded(r.world, r.drafts, Sorted(r.world.nodes.Keys), a);
    Latency.DetectionTakesATick(s, 1);
  }

  // --- a snapshot taken while models are asked -------------------------------------------------------------

  /** The seed and its neighbour b are model-backed and go unnoticed in the first tick, which
      quarantines c: so the seed's request to b goes out while the quarantine is held. */
  ghost predicate QuarantineHeld(s: Setup, b: AgentId, c: AgentId)
    requires Valid(s)
  {
    var w := Start(s).world;
    && !OwnsClock(s.cfg) && PromptInjection in s.cfg.activeScenarios && s.cfg.maxTicks > 0
    && b in HealthyNeighbors(w, SeedIn(s)) && w.nodes[SeedIn(s)].isReal && w.nodes[b].isReal
    && !CaughtFirst(w, s.cfg, Seed(s)) && !CaughtFirst(w, s.cfg, b) && CaughtFirst(w, s.cfg, c)
  }

  lemma {:induction false} NamedCounts(names: seq<ScenarioName>)
    requires PromptInjection in names
    ensures RunnerProtocol.AsyncCount(names) > 0
  {
    var earlier := names[..|names| - 1];
    assert names == earlier + [names[|names| - 1]];
    if PromptInjection in earlier { NamedCounts(earlier); }
  }

  /** One stretch into its first tick. */
  lemma FirstTick(s: Setup) returns (r: RunnerProtocol.Runner)
    requires Valid(s) && s.cfg.maxTicks > 0 && PromptInjection in s.cfg.activeScenarios
    requires HealthyNeighbors(Start(s).world, SeedIn(s)) != {} && RealAgentStep.Asks(Engine.Advance(Start(s).world, s.cfg).world)
    ensures RunnerProtocol.Step(RunnerProtocol.Created(s, true), RunnerProtocol.RunLoop) == Some(r)
    ensures var d := Engine.Advance(Start(s).world, s.cfg);
      r == RunnerProtocol.Created(s, true).(world := d.world, task := RunnerProtocol.AskingModels(d.drafts))
  {
    hide Start, Valid, Engine.Advance, RealAgentStep.Asks, PropagationStep.Finished;
    NotFinished(s);
    FromNext(Start(s), s.cfg, 0);
    NamedCounts(s.cfg.activeScenarios);
    r := RunnerProtocol.TickOnce(RunnerProtocol.Created(s, true));
  }

  lemma CaughtMoves(w: World, cfg: Config, c: AgentId)
    requires !OwnsClock(cfg) && CaughtFirst(w, cfg, c)
    ensures EventSourcing.ViewOf(Engine.Advance(w, cfg).world.nodes) != EventSourcing.ViewOf(w.nodes)
  {
    hide Engine.Advance;
    Simulation.FirstTickAgents(w, cfg, c);
    assert EventSourcing.ViewOf(w.nodes)[c].state != Quarantined;
    assert EventSourcing.ViewOf(Engine.Advance(w, cfg).world.nodes)[c].state == Quarantined;
  }

  lemma RequestGoesOut(s: Setup, b: AgentId, c: AgentId)
    requires Valid(s) && QuarantineHeld(s, b, c)
    ensures RealAgentStep.Asks(Engine.Advance(Start(s).world, s.cfg).world)
  {
    hide Engine.Advance, Start, Valid, CaughtFirst;
    var w, a := Start(s).world, Seed(s);
    StartShape(s);
    var v := Engine.Advance(w, s.cfg).world;
    Simulation.FirstTickAgents(w, s.cfg, a);
    Simulation.FirstTickAgents(w, s.cfg, b);
    assert a in RealAgentStep.RealSources(v) && b in RealAgentStep.RealTargets(v, a);
  }

  /** A runner with a gateway, one stretch in: its snapshot shows a quarantine the log does not. */
  lemma SnapshotAhead(s: Setup, b: AgentId, c: AgentId) returns (r: RunnerProtocol.Runner)
    requires Valid(s) && QuarantineHeld(s, b, c)
    ensures RunnerProtocol.InRun(r) && r.setup == s && r.gateway && r.task.AskingModels?
    ensures EventSourcing.Fold(map[], r.log) != EventSourcing.ViewOf(r.world.nodes)
  {
    hide Start, Valid, CaughtFirst, Engine.Advance, EventSourcing.Fold, EventSourcing.ViewOf, RealAgentStep.Asks, OwnsClock, RunnerProtocol.Step;
    RequestGoesOut(s, b, c);
    r := FirstTick(s);
    InTwo(RunnerProtocol.Created(s, true), r);
    CaughtMoves(Start(s).world, s.cfg, c);
    StartExplained(s);
  }

  lemma InTwo(s: RunnerProtocol.Runner, t: RunnerProtocol.Runner)
    requires RunnerProtocol.Init(s) && RunnerProtocol.Next(s, t)
    ensures RunnerProtocol.InRun(t)
  {
    hide RunnerProtocol.Init, RunnerProtocol.Next;
    var init := (x: RunnerProtocol.Runner) => RunnerProtocol.Init(x);
    var next := (x: RunnerProtocol.Runner, y: RunnerProtocol.Runner) => RunnerProtocol.Next(x, y);
    Behaviours.ReachableAtOnce(init, next, s);
    Behaviours.ReachableNext(init, next, s, t);
  }

  // --- a run stopped while models are asked -------------------------------------------------------------------

  /** Some scenario owns the clock, and a request goes out in the first tick. */
  ghost predicate FirstTickAsks(s: Setup)
    requires Valid(s)
  {
    && OwnsClock(s.cfg) && PromptInjection in s.cfg.activeScenarios && s.cfg.maxTicks > 0
    && HealthyNeighbors(Start(s).world, SeedIn(s)) != {}
    && RealAgentStep.Asks(Engine.Advance(Start(s).world, s.cfg).world)
  }

  function StoppedFrom(r: RunnerProtocol.Runner): RunnerProtocol.Runner
    requires r.task.AskingModels?
  {
    RunnerProtocol.StopCall(r).(task := RunnerProtocol.Cancelled(true, r.task.held))
  }

  lemma Stopping(r: RunnerProtocol.Runner)
    requires r.task.AskingModels? && r.status == RunnerProtocol.Running
    ensures RunnerProtocol.Step(r, RunnerProtocol.Stop) == Some(RunnerProtocol.StopCall(r))
    ensures RunnerProtocol.Step(RunnerProtocol.StopCall(r), RunnerProtocol.CancelLands) == Some(StoppedFrom(r))
  {
  }

  lemma InFour(model: ModelRuns.Model, m0: ModelRuns.LiveRun, m1: ModelRuns.LiveRun, m2: ModelRuns.LiveRun, m3: ModelRuns.LiveRun)
    requires ModelRuns.Init(m0) && ModelRuns.Next(model, m0, m1) && ModelRuns.Next(model, m1, m2) && ModelRuns.Next(model, m2, m3)
    ensures ModelRuns.InRun(model, m3)
  {
    hide ModelRuns.Init, ModelRuns.Next;
    var init := (x: ModelRuns.LiveRun) => ModelRuns.Init(x);
    var next := (x: ModelRuns.LiveRun, y: ModelRuns.LiveRun) => ModelRuns.Next(model, x, y);
    Behaviours.ReachableAtOnce(init, next, m0);
    Behaviours.ReachableNext(init, next, m0, m1);
    Behaviours.ReachableNext(init, next, m1, m2);
    Behaviours.ReachableNext(init, next, m2, m3);
  }

  /** And there the run is stopped. */
  lemma StoppedThere(s: Setup, model: ModelRuns.Model) returns (m: ModelRuns.LiveRun)
    requires Valid(s) && FirstTickAsks(s)
    ensures ModelRuns.InRun(model, m) && m.runner.setup == s && m.runner.status == RunnerProtocol.Stopped
    ensures m.runner.world == Engine.Advance(Start(s).world, s.cfg).world && RunnerProtocol.Body(m.runner) == Start(s).drafts
  {
    hide Start, Valid, Engine.Advance, RealAgentStep.Asks, OwnsClock, ModelRuns.Init, ModelRuns.Next, ModelRuns.InRun, RunnerProtocol.Step;
    var r0 := RunnerProtocol.Created(s, true);
    var r1 := FirstTick(s);
    Stopping(r1);
    var m0, m1, m2 := ModelRuns.LiveRun(r0, 0), ModelRuns.LiveRun(r1, 0), ModelRuns.LiveRun(RunnerProtocol.StopCall(r1), 0);
    m := ModelRuns.LiveRun(StoppedFrom(r1), 0);
    Begins(m0);
    Goes(m0, model, RunnerProtocol.RunLoop, m1);
    Goes(m1, model, RunnerProtocol.Stop, m2);
    Goes(m2, model, RunnerProtocol.CancelLands, m);
    InFour(model, m0, m1, m2, m);
  }

  lemma Begins(m: ModelRuns.LiveRun)
    requires RunnerProtocol.Init(m.runner) && m.runner.gateway && m.used == 0
    ensures ModelRuns.Init(m)
  {
  }

  lemma Goes(m: ModelRuns.LiveRun, model: ModelRuns.Model, a: RunnerProtocol.Action, next: ModelRuns.LiveRun)
    requires ModelRuns.Moves(m, model, a, next)
    ensures ModelRuns.Next(model, m, next)
  {
  }

  /** Replay to its tick runs that tick to the end, and reports what the run never published. */
  lemma StoppedReplayDiffers(s: Setup, model: ModelRuns.Model) returns (m: ModelRuns.LiveRun)
    requires Valid(s) && FirstTickAsks(s)
    ensures ModelRuns.InRun(model, m) && m.runner.setup == s && m.runner.status == RunnerProtocol.Stopped
    ensures ModelRuns.ReplayEnds(s, model, m.runner.world.tick, 1)
    ensures ModelRuns.Asked(s, model, 1).result.drafts != RunnerProtocol.Body(m.runner)
  {
    hide Start, Valid, Engine.Advance, RealAgentStep.Asks, ModelRuns.Asked, ModelRuns.InRun, ModelRuns.ReplayEnds, RunnerProtocol.Body;
    m := StoppedThere(s, model);
    ReplayOne(s, model);
    AtFirst(s, model);
    NamedCounts(s.cfg.activeScenarios);
    ModelRuns.LogGrows(s, model, 0);
  }

  /** With a clock owner, replay to the clock of the first tick runs one tick. */
  lemma ReplayOne(s: Setup, model: ModelRuns.Model)
    requires Valid(s) && OwnsClock(s.cfg) && s.cfg.maxTicks > 0 && HealthyNeighbors(Start(s).world, SeedIn(s)) != {}
    ensures ModelRuns.ReplayEnds(s, model, Engine.Advance(Start(s).world, s.cfg).world.tick, 1)
  {
    hide Start, Valid, Engine.Advance, ModelRuns.Asked, Owners, PropagationStep.Finished;
    AdvanceClock(Start(s).world, s.cfg);
    ModelRuns.StartClock(s);
    ModelRuns.Clock(s, model, 0);
    ModelRuns.Clock(s, model, 1);
    AtFirst(s, model);
    NotFinished(s);
    FromNext(Start(s), s.cfg, 0);
  }

  lemma AtFirst(s: Setup, model: ModelRuns.Model)
    requires Valid(s)
    ensures ModelRuns.Asked(s, model, 0) == ModelRuns.Progress(Start(s), 0)
  {
  }

  // --- such set-ups exist, at every size ---------------------------------------------------------------------

  /** All draws are zero, but agent 2 is never falsely accused below a rate of one. */
  function Plain(names: seq<ScenarioName>, sensitivity: real, falseRate: real): Config {
    Config((_, key) => if key == FalseQuarantineDraw(2) then 1.0 else 0.0, _ => 0, _ => {}, 3, 0.0, 0.0, 200,
      sensitivity, true, false, 20, 0, 0, 0, 0, names, 0.3, falseRate, 0.0, 0.0, 0.0)
  }

  /** n agents, all linked to agent 0. */
  function Star(n: nat, cfg: Config): Setup {
    Setup(UpTo(n), set i | i in UpTo(n) - {0} :: (0, i), cfg)
  }

  lemma StarNeighbors(n: nat, cfg: Config, i: AgentId)
    requires i < n
    ensures var s := Star(n, cfg);
      Topology.Neighbors(s.ids, s.links, i) == if i == 0 then s.ids - {0} else {0}
  {
    var s := Star(n, cfg);
    if i > 0 { assert (0, i) in s.links; }
    forall j | j in s.ids - {0} ensures (0, j) in s.links {}
  }

  lemma StarDegrees(n: nat, cfg: Config, i: AgentId)
    requires n >= 3 && i < n
    ensures var s := Star(n, cfg); var d := Topology.Degree(s.ids, s.links, i); if i == 0 then d >= 2 else d == 1
  {
    var s := Star(n, cfg);
    StarNeighbors(n, cfg, i);
    if i == 0 {
      assert {1, 2} <= s.ids - {0};
      SubsetSize({1, 2}, s.ids - {0});
    }
  }

  /** The hub is the seed, and the first twenty agents are model-backed. */
  lemma StarReal(n: nat, cfg: Config)
    requires n >= 3
    ensures var s := Star(n, cfg); var backed := Topology.RealAgents(s.ids, s.links, 20); 0 in backed && 2 in backed
  {
    hide Topology.Degree;
    var s := Star(n, cfg);
    forall i | i in s.ids ensures if i == 0 then Topology.Degree(s.ids, s.links, i) >= 2 else Topology.Degree(s.ids, s.links, i) == 1 {
      StarDegrees(n, cfg, i);
    }
    assert (set m | m in s.ids && Topology.Outranks(s.ids, s.links, m, 0)) == {};
    assert (set m | m in s.ids && Topology.Outranks(s.ids, s.links, m, 2)) == {0, 1};
  }

  lemma StarSeed(n: nat, cfg: Config)
    requires n >= 3 && cfg.softwareTypeCount > 0 && !cfg.randomInitial
    ensures Valid(Star(n, cfg)) && Seed(Star(n, cfg)) == 0
  {
    hide Topology.Degree;
    var s := Star(n, cfg);
    assert 0 in s.ids;
    StarDegrees(n, cfg, 0);
    StarDegrees(n, cfg, Seed(s));
    assert Topology.Hub(s.ids, s.links, Seed(s));
  }

  lemma StarFrontier(w: World, n: nat, cfg: Config)
    requires n >= 3 && var s := Star(n, cfg); Topology.FreshWorld(w, s.ids, s.links, 0)
    ensures w.nodes.Keys == UpTo(n) && HealthyNeighbors(w, 0) == UpTo(n) - {0}
  {
    hide Topology.Neighbors, Topology.OrderedLinks;
    StarNeighbors(n, cfg, 0);
  }

  lemma StarShape(n: nat, cfg: Config)
    requires n >= 3 && cfg.softwareTypeCount > 0 && !cfg.randomInitial && cfg.realAgentCount == 20
    ensures Valid(Star(n, cfg)) && Seed(Star(n, cfg)) == 0
    ensures var w := Start(Star(n, cfg)).world;
      && w.nodes.Keys == UpTo(n) && HealthyNeighbors(w, 0) == UpTo(n) - {0} && w.nodes[0].isReal && w.nodes[2].isReal
  {
    hide Topology.RealAgents, Topology.InitialWorld, Topology.SeedNode, Topology.FreshWorld, UpTo;
    var s := Star(n, cfg);
    StarSeed(n, cfg);
    StarReal(n, cfg);
    Topology.InitialReal(s.ids, s.links, cfg);
    Topology.InitialWorldShape(s.ids, s.links, cfg);
    StarFrontier(Start(s).world, n, cfg);
  }

  lemma StarUnowned(n: nat, sensitivity: real)
    requires n >= 3
    ensures var s := Star(n, Plain([], sensitivity, 0.0)); Unowned(s) && (SeedDetected(s) <==> sensitivity > 0.0)
  {
    hide Start, Valid, Seed;
    StarShape(n, Plain([], sensitivity, 0.0));
    assert 1 in UpTo(n) - {0};
  }

  /** With the hub undetected, agent 1 falsely accused and agent 2 spared. */
  lemma StarHolds(n: nat)
    requires n >= 3
    ensures var s := Star(n, Plain([PromptInjection], 0.0, 0.5)); Valid(s) && QuarantineHeld(s, 2, 1)
  {
    hide Start, Valid, Seed, Falls;
    var cfg := Plain([PromptInjection], 0.0, 0.5);
    var s := Star(n, cfg);
    StarShape(n, cfg);
    StartShape(s);
    assert 1 in UpTo(n) - {0} && 2 in UpTo(n) - {0};
    assert [PromptInjection][..0] == [];
  }

  lemma NobodyInfected(w: World, cfg: Config)
    requires cfg.pSame <= 0.0 && cfg.pCross <= 0.0 && forall key :: cfg.draw(w.tick, key) >= 0.0
    ensures PropagationStep.Step(w, cfg).world.nodes == w.nodes
  {
    var attempts := PropagationStep.AllAttempts(w, cfg);
    forall t ensures t !in Attempts.Claims(attempts) { PropagationStep.StepMeaning(w, cfg, t); }
  }

  lemma TickOfTwo(w: World, cfg: Config)
    requires cfg.activeScenarios == [Propagation, PromptInjection] && !cfg.defenseEnabled
    ensures Engine.Advance(w, cfg).world == PropagationStep.Step(w, cfg).world
  {
    hide PropagationStep.Step;
    assert [Propagation, PromptInjection][..1] == [Propagation] && [Propagation][..0] == [];
    assert Engine.Scenarios(w, cfg, [Propagation]).world == PropagationStep.Step(w, cfg).world;
  }

  /** The default scenarios, with defense off and all model-free attempts hopeless. */
  lemma StarAsks(n: nat)
    requires n >= 3
    ensures var s := Star(n, Plain([Propagation, PromptInjection], 0.0, 0.0).(defenseEnabled := false)); Valid(s) && FirstTickAsks(s)
  {
    hide Start, Valid, Seed, Engine.Advance, PropagationStep.Step;
    var cfg := Plain([Propagation, PromptInjection], 0.0, 0.0).(defenseEnabled := false);
    var s := Star(n, cfg);
    StarShape(n, cfg);
    StartShape(s);
    var w := Start(s).world;
    TickOfTwo(w, cfg);
    NobodyInfected(w, cfg);
    assert 2 in UpTo(n) - {0};
    var v := Engine.Advance(w, cfg).world;
    assert 0 in RealAgentStep.RealSources(v) && 2 in RealAgentStep.RealTargets(v, 0);
    assert [Propagation, PromptInjection][..1] == [Propagation] && [Propagation][..0] == [];
  }

  // --- a client that asks too far ahead -----------------------------------------------------------------------

  /** One event is out, number 0; the client asks from number 5, and the event published next is
      thrown away as already seen. */
  lemma EventMissed() returns (s: Stream.State<int>)
    ensures Stream.InRun(s) && Stream.Drained(s) && Stream.Missed(s) && s.known > 0
  {
    var s0: Stream.State<int> := Stream.State([], Stream.Absent, [], -1, [], -1, 0);
    var s1 := Stream.Step(s0, Stream.Publish([1])).value;
    var s2 := Stream.Joined<int>([1], Some(5));
    var s3 := Stream.Step(s2, Stream.Publish([7])).value;
    s := Stream.Step(s3, Stream.Take).value;
    assert [] + [1] == [1];
    assert Stream.Step(s0, Stream.Publish([1])) == Some(s1);
    assert Stream.Step(s1, Stream.Connect(Some(5))) == Some(s2);
    assert Stream.Step(s3, Stream.Take) == Some(s);
    InFive(s0, s1, s2, s3, s);
    assert s.log == [1, 7] && s.sent == [] && s.known == 1;
    assert Events.Event(1, s.log[1]) !in s.sent;
  }

  lemma InFive(s0: Stream.State<int>, s1: Stream.State<int>, s2: Stream.State<int>, s3: Stream.State<int>, s4: Stream.State<int>)
    requires Stream.Init(s0) && Stream.Next(s0, s1) && Stream.Next(s1, s2) && Stream.Next(s2, s3) && Stream.Next(s3, s4)
    ensures Stream.InRun(s4)
  {
    hide Stream.Init, Stream.Next;
    var states := [s0, s1, s2, s3, s4];
    assert Behaviours.Behaviour((x: Stream.State<int>) => Stream.Init(x),
      (x: Stream.State<int>, y: Stream.State<int>) => Stream.Next(x, y), states);
  }
}
