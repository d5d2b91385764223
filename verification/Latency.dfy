/** The two latencies of metrics/compute.py over whole synchronous experiments. */
module Latency {
  import opened Wrappers
  import opened Ordering
  import opened World
  import opened Runs
  import opened Engine
  import opened Effects
  import opened Metrics
  import opened LogAccounting
  import opened RunAccounts
  import opened Experiment
  import InfectionForest
  import DetectionStep
  import Topology

  // --- containment ----------------------------------------------------------------------------

  lemma {:induction false} ZeroDelays(log: seq<Draft>, ids: seq<AgentId>)
    requires forall a :: FirstQuarantined(log, a) == FirstDetected(log, a)
    ensures forall i | 0 <= i < |ContainmentDelays(log, ids)| :: ContainmentDelays(log, ids)[i] == 0
  {
    if |ids| > 0 { ZeroDelays(log, ids[..|ids| - 1]); }
  }

  lemma {:induction false} SumZero(s: seq<int>)
    requires forall i | 0 <= i < |s| :: s[i] == 0
    ensures Sum(s) == 0
  {
    if |s| > 0 { SumZero(s[..|s| - 1]); }
  }

  lemma ZeroMean(log: seq<Draft>, ids: seq<AgentId>)
    requires forall a :: FirstQuarantined(log, a) == FirstDetected(log, a)
    ensures var m := MeanOf(ContainmentDelays(log, ids)); m == None || m == Some(0.0)
  {
    hide FirstQuarantined, FirstDetected, ContainmentDelays;
    ZeroDelays(log, ids);
    SumZero(ContainmentDelays(log, ids));
  }

  /** Containment latency is missing or exactly zero: whoever is detected is confined in the
      same pass. */
  lemma ContainmentIsInstant(s: Setup, ms: seq<MicroStep>, ids: seq<AgentId>)
    requires Valid(s) && Synchronous(ms)
    ensures var m := MeanOf(ContainmentDelays(AfterMicros(s, ms).drafts, ids)); m == None || m == Some(0.0)
  {
    hide FirstQuarantined, FirstDetected, ContainmentDelays, AfterMicros, MeanOf;
    var log := AfterMicros(s, ms).drafts;
    forall a ensures FirstQuarantined(log, a) == FirstDetected(log, a) { LogPerAgent(s, ms, a); }
    ZeroMean(log, ids);
  }

  // --- detection ------------------------------------------------------------------------------

  /** No compromise is as recent as the current tick. */
  ghost predicate Aged(w: World, c: nat) {
    forall a | a in EverCompromised(w) :: w.nodes[a].tickCompromised.value + c <= w.tick
  }

  lemma AgedMicro(w: World, cfg: Config, m: MicroStep, c: nat)
    requires Aged(w, c) && !m.AskModels? && c <= 1
    ensures Aged(Micro(w, cfg, m).world, if MovesClock(m) then 1 else c)
  {
    var v := Micro(w, cfg, m).world;
    MicroEffect(w, cfg, m);
    forall a | a in EverCompromised(v)
      ensures v.nodes[a].tickCompromised.value + (if MovesClock(m) then 1 else c) <= v.tick
    {
      MicroTransition(w, cfg, m, a);
    }
  }

  /** Once a clock owner has run, nothing was compromised in the current tick. */
  lemma {:induction false} ScenariosAge(w: World, cfg: Config, names: seq<ScenarioName>)
    requires Aged(w, 0)
    ensures Aged(Scenarios(w, cfg, names).world, if Owners(names) > 0 then 1 else 0)
  {
    hide Aged, Scenario, Micro;
    if |names| > 0 {
      var earlier, name := names[..|names| - 1], names[|names| - 1];
      ScenariosAge(w, cfg, earlier);
      var v := Scenarios(w, cfg, earlier).world;
      AgedMicro(v, cfg, RunScenario(name), if Owners(earlier) > 0 then 1 else 0);
      MicroIsScenario(v, cfg, name);
    }
  }

  lemma MicroIsScenario(w: World, cfg: Config, name: ScenarioName)
    ensures Micro(w, cfg, RunScenario(name)) == Scenario(w, cfg, name)
    ensures MovesClock(RunScenario(name)) == OwnsTick(name)
  {
  }

  /** The first detection of a comes at least c ticks after its compromise, and not in the future. */
  ghost predicate Delayed(w: World, detected: Option<nat>, a: AgentId, c: nat) {
    detected.Some? ==> a in EverCompromised(w) && w.nodes[a].tickCompromised.value + c <= detected.value <= w.tick
  }

  lemma RecordStays(w: World, cfg: Config, m: MicroStep, detected: Option<nat>, a: AgentId, c: nat)
    requires AllRecorded(w) && Delayed(w, detected, a, c)
    ensures Delayed(Micro(w, cfg, m).world, detected, a, c)
  {
    if detected.Some? {
      MicroEvolves(w, cfg, m);
      InfectionForest.RecordsKept(w, cfg, Micro(w, cfg, m).world, a);
    }
  }

  lemma ScenarioSilent(w: World, cfg: Config, name: ScenarioName, a: AgentId)
    ensures BookOf(Scenario(w, cfg, name).drafts, a).detected == None
  {
    hide Scenario, BookOf;
    if OwnsTick(name) { AttackerBook(w, cfg, name, a); } else { PlaneBook(w, cfg, name, a); }
  }

  /** What one tick keeps: records, ages, and the delay of a's first detection. */
  ghost predicate Kept(w: World, detected: Option<nat>, a: AgentId, c: nat) {
    AllRecorded(w) && Delayed(w, detected, a, c)
  }

  lemma {:induction false} ScenariosKeep(w: World, cfg: Config, names: seq<ScenarioName>, detected: Option<nat>, a: AgentId, c: nat)
    requires Kept(w, detected, a, c)
    ensures Kept(Scenarios(w, cfg, names).world, detected, a, c)
    ensures BookOf(Scenarios(w, cfg, names).drafts, a).detected == None
  {
    hide Scenario, Micro, AllRecorded, Delayed, BookOf, Entry;
    if |names| == 0 {
      BookEmpty(a);
    } else {
      var earlier, name := names[..|names| - 1], names[|names| - 1];
      ScenariosKeep(w, cfg, earlier, detected, a, c);
      var v := Scenarios(w, cfg, earlier);
      MicroIsScenario(v.world, cfg, name);
      AllRecordedKept(v.world, cfg, RunScenario(name));
      RecordStays(v.world, cfg, RunScenario(name), detected, a, c);
      ScenarioSilent(v.world, cfg, name, a);
      BookAppend(v.drafts, Scenario(v.world, cfg, name).drafts, a);
    }
  }

  lemma DetectKeeps(w: World, cfg: Config, detected: Option<nat>, a: AgentId, c: nat)
    requires Kept(w, detected, a, c) && Aged(w, c)
    ensures var r := DetectionStep.Step(w, cfg);
      Kept(r.world, if detected.Some? then detected else BookOf(r.drafts, a).detected, a, c)
  {
    var r := DetectionStep.Step(w, cfg);
    var found := BookOf(r.drafts, a).detected;
    AllRecordedKept(w, cfg, Detect);
    RecordStays(w, cfg, Detect, detected, a, c);
    if cfg.defenseEnabled {
      DetectBook(w, cfg, a);
      var hits := DetectionStep.Hits(w, cfg, Sorted(DetectionStep.Candidates(w, cfg)));
      assert found == if a in hits then Some(w.tick) else None;
    } else {
      BookEmpty(a);
    }
    assert Delayed(w, found, a, c);
    RecordStays(w, cfg, Detect, found, a, c);
  }

  ghost predicate TickKept(r: StepResult, a: AgentId, c: nat) {
    Kept(r.world, BookOf(r.drafts, a).detected, a, c) && Aged(r.world, 0)
  }

  /** The least delay of an experiment: one tick with a clock owner, none without. */
  function LeastDelay(cfg: Config): nat { if OwnsClock(cfg) then 1 else 0 }

  lemma AdvanceKeeps(r: StepResult, cfg: Config, a: AgentId)
    requires TickKept(r, a, LeastDelay(cfg))
    ensures TickKept(Concat(r, Advance(r.world, cfg)), a, LeastDelay(cfg))
  {
    hide Kept, Aged, BookOf, Entry, Scenarios, DetectionStep.Step;
    var c := LeastDelay(cfg);
    var s := Scenarios(r.world, cfg, cfg.activeScenarios);
    var d := DetectionStep.Step(s.world, cfg);
    var before := BookOf(r.drafts, a);
    ScenariosKeep(r.world, cfg, cfg.activeScenarios, before.detected, a, c);
    ScenariosAge(r.world, cfg, cfg.activeScenarios);
    DetectKeeps(s.world, cfg, before.detected, a, c);
    BookAppend(s.drafts, d.drafts, a);
    BookAppend(r.drafts, s.drafts + d.drafts, a);
    AgedDetect(s.world, cfg, c);
  }

  lemma AgedDetect(w: World, cfg: Config, c: nat)
    requires Aged(w, c) && c <= 1
    ensures Aged(DetectionStep.Step(w, cfg).world, 0)
  {
    AgedMicro(w, cfg, Detect, c);
  }

  lemma {:induction false} RunKeeps(s: Setup, n: nat, a: AgentId)
    requires Valid(s)
    ensures TickKept(After(s, n), a, LeastDelay(s.cfg))
  {
    hide TickKept, Advance, Start, Valid;
    var base := Start(s);
    if n == 0 {
      FromNext(base, s.cfg, 0);
      StartKept(s, a);
    } else {
      RunKeeps(s, n - 1, a);
      FromNext(base, s.cfg, n - 1);
      AdvanceKeeps(After(s, n - 1), s.cfg, a);
    }
  }

  lemma StartKept(s: Setup, a: AgentId)
    requires Valid(s)
    ensures TickKept(Start(s), a, LeastDelay(s.cfg))
  {
    hide BookOf;
    StartBook(s, a);
    StartAudited(s, a);
    Topology.InitialWorldShape(s.ids, s.links, s.cfg);
  }

  lemma {:induction false} DelaysBetween(w: World, log: seq<Draft>, ids: seq<AgentId>, c: nat)
    requires forall a | a in ids :: a in w.nodes
    requires forall a :: Delayed(w, FirstDetected(log, a), a, c)
    ensures forall i | 0 <= i < |DetectionDelays(w, log, ids)| :: c <= DetectionDelays(w, log, ids)[i] <= w.tick
  {
    if |ids| > 0 {
      assert ids == ids[..|ids| - 1] + [ids[|ids| - 1]];
      DelaysBetween(w, log, ids[..|ids| - 1], c);
    }
  }

  /** Every recorded delay of an experiment lies between its least delay and its clock. */
  lemma DelaysOfRun(s: Setup, n: nat)
    requires Valid(s)
    ensures var r := After(s, n); var m := MeanOf(DetectionDelays(r.world, r.drafts, Sorted(r.world.nodes.Keys)));
      m.Some? ==> LeastDelay(s.cfg) as real <= m.value <= r.world.tick as real
  {
    hide BookOf, Sorted, AllRecorded, After, LeastDelay;
    var r := After(s, n);
    forall a ensures Delayed(r.world, FirstDetected(r.drafts, a), a, LeastDelay(s.cfg)) {
      RunKeeps(s, n, a);
      BookMeans(r.drafts, a);
    }
    var ids := Sorted(r.world.nodes.Keys);
    DelaysBetween(r.world, r.drafts, ids, LeastDelay(s.cfg));
    MeanBounds(DetectionDelays(r.world, r.drafts, ids), LeastDelay(s.cfg), r.world.tick);
  }

  /** Detection latency, when there is one, is at least one tick if and only if some active
      scenario owns the clock, and otherwise exactly zero: with an owner the clock has always
      moved on between a compromise and the detection pass, without one it never moves. */
  lemma DetectionTakesATick(s: Setup, n: nat)
    requires Valid(s)
    ensures var r := After(s, n); var m := MeanOf(DetectionDelays(r.world, r.drafts, Sorted(r.world.nodes.Keys)));
      m.Some? ==> (m.value >= 1.0 <==> OwnsClock(s.cfg)) && (!OwnsClock(s.cfg) ==> m.value == 0.0)
  {
    hide Sorted, DetectionDelays, MeanOf, Start, Valid;
    DelaysOfRun(s, n);
    StartsAtZero(s);
    Clock(Start(s), s.cfg, n);
  }

  lemma StartsAtZero(s: Setup)
    requires Valid(s)
    ensures Start(s).world.tick == 0
  {
    Topology.InitialWorldShape(s.ids, s.links, s.cfg);
  }
}
