/** backend/app/security/detection.py: detection, quarantine and the false-quarantine attack. */
module DetectionStep {
  import opened Ordering
  import opened World
  import opened SecurityGraphs
  import opened GraphFacts

  /** Agents whose one monitoring sentinel has been subverted. */
  function Suppressed(w: World, cfg: Config): set<AgentId> {
    set a | a in w.nodes && cfg.sentinelCount > 0 && SentinelNode(Monitor(w, cfg, a)) in w.compromisedGraph
  }

  predicate Detects(w: World, cfg: Config, a: AgentId) {
    cfg.draw(w.tick, DetectDraw(a)) < cfg.detectorSensitivity
  }

  predicate FalselyAccuses(w: World, cfg: Config, a: AgentId) {
    cfg.draw(w.tick, FalseQuarantineDraw(a)) < cfg.falseQuarantineRate
  }

  function Candidates(w: World, cfg: Config): set<AgentId> {
    CompromisedAgents(w) - Suppressed(w, cfg)
  }

  /** The agents among `ids` whose draw detects them. */
  function Hits(w: World, cfg: Config, ids: seq<AgentId>): set<AgentId> {
    set a | a in ids && Detects(w, cfg, a)
  }

  function HitDrafts(w: World, cfg: Config, ids: seq<AgentId>): seq<Draft> {
    if |ids| == 0 then [] else
      var a := ids[|ids| - 1];
      HitDrafts(w, cfg, ids[..|ids| - 1]) +
      if Detects(w, cfg, a) then [Draft(w.tick, AnomalyDetected(a)), Draft(w.tick, AgentQuarantined(a, true))] else []
  }

  function FalseHits(w: World, cfg: Config, ids: seq<AgentId>): set<AgentId> {
    set a | a in ids && FalselyAccuses(w, cfg, a)
  }

  function FalseDrafts(w: World, cfg: Config, ids: seq<AgentId>): seq<Draft> {
    if |ids| == 0 then [] else
      var a := ids[|ids| - 1];
      FalseDrafts(w, cfg, ids[..|ids| - 1]) +
      if FalselyAccuses(w, cfg, a) then [Draft(w.tick, AgentQuarantined(a, false))] else []
  }

  /** Whom the false-quarantine attack may hit: nobody while its rate is zero. */
  function Accusable(w: World, cfg: Config): set<AgentId> {
    if cfg.falseQuarantineRate > 0.0 then HealthyAgents(w) else {}
  }

  function Confine(nodes: map<AgentId, Agent>, who: set<AgentId>): (r: map<AgentId, Agent>)
    ensures r.Keys == nodes.Keys
  {
    map a | a in nodes :: if a in who then nodes[a].(state := Quarantined) else nodes[a]
  }

  function Caught(w: World, cfg: Config): set<AgentId> {
    Hits(w, cfg, Sorted(Candidates(w, cfg))) + FalseHits(w, cfg, Sorted(Accusable(w, cfg)))
  }

  function Step(w: World, cfg: Config): StepResult {
    if !cfg.defenseEnabled then StepResult(w, []) else
      StepResult(
        w.(nodes := Confine(w.nodes, Caught(w, cfg))),
        HitDrafts(w, cfg, Sorted(Candidates(w, cfg))) + FalseDrafts(w, cfg, Sorted(Accusable(w, cfg))))
  }

  /** Who is quarantined by one detection pass: compromised, unsuppressed and drawn, or
      healthy and falsely accused. Nobody else changes. */
  lemma CaughtMeaning(w: World, cfg: Config, a: AgentId)
    ensures a in Caught(w, cfg) <==>
      || (a in CompromisedAgents(w) && a !in Suppressed(w, cfg) && Detects(w, cfg, a))
      || (a in HealthyAgents(w) && cfg.falseQuarantineRate > 0.0 && FalselyAccuses(w, cfg, a))
  {
  }

  lemma {:induction false} HitDraftsMembers(w: World, cfg: Config, ids: seq<AgentId>, a: AgentId)
    ensures Draft(w.tick, AnomalyDetected(a)) in HitDrafts(w, cfg, ids) <==> a in Hits(w, cfg, ids)
    ensures Draft(w.tick, AgentQuarantined(a, true)) in HitDrafts(w, cfg, ids) <==> a in Hits(w, cfg, ids)
    ensures Draft(w.tick, AgentQuarantined(a, false)) !in HitDrafts(w, cfg, ids)
  {
    if |ids| > 0 {
      assert ids == ids[..|ids| - 1] + [ids[|ids| - 1]];
      HitDraftsMembers(w, cfg, ids[..|ids| - 1], a);
    }
  }

  lemma {:induction false} FalseDraftsMembers(w: World, cfg: Config, ids: seq<AgentId>, a: AgentId)
    ensures Draft(w.tick, AgentQuarantined(a, false)) in FalseDrafts(w, cfg, ids) <==> a in FalseHits(w, cfg, ids)
    ensures Draft(w.tick, AnomalyDetected(a)) !in FalseDrafts(w, cfg, ids)
    ensures Draft(w.tick, AgentQuarantined(a, true)) !in FalseDrafts(w, cfg, ids)
  {
    if |ids| > 0 {
      assert ids == ids[..|ids| - 1] + [ids[|ids| - 1]];
      FalseDraftsMembers(w, cfg, ids[..|ids| - 1], a);
    }
  }

  /** One pass, said of one agent without its loops: it is confined exactly when it is compromised,
      watched and drawn, or healthy and falsely accused; the events say which, and an agent that
      is not confined is not touched. */
  lemma StepMeaning(w: World, cfg: Config, a: AgentId)
    requires cfg.defenseEnabled && a in w.nodes
    ensures var r := Step(w, cfg);
      var caught := a in CompromisedAgents(w) && a !in Suppressed(w, cfg) && Detects(w, cfg, a);
      var accused := a in HealthyAgents(w) && cfg.falseQuarantineRate > 0.0 && FalselyAccuses(w, cfg, a);
      && r.world.nodes[a] == (if caught || accused then w.nodes[a].(state := Quarantined) else w.nodes[a])
      && (Draft(w.tick, AnomalyDetected(a)) in r.drafts <==> caught)
      && (Draft(w.tick, AgentQuarantined(a, true)) in r.drafts <==> caught)
      && (Draft(w.tick, AgentQuarantined(a, false)) in r.drafts <==> accused)
  {
    hide Suppressed, HitDrafts, FalseDrafts;
    HitDraftsMembers(w, cfg, Sorted(Candidates(w, cfg)), a);
    FalseDraftsMembers(w, cfg, Sorted(Accusable(w, cfg)), a);
  }

  /** `_suppressed_by_compromised_sentinels`: the MONITORS edges of compromised sentinels. */
  method SuppressedByCompromisedSentinels(w: World, cfg: Config) returns (s: set<AgentId>)
    ensures s == Suppressed(w, cfg)
  {
    hide Monitor;
    if cfg.sentinelCount <= 0 || w.compromisedGraph == {} { return {}; }
    var g := ReadGraph(w, cfg);
    var sentinels := set n | n in g.nodes && n.SentinelNode? && n in w.compromisedGraph;
    s := set e | e in g.edges && e.kind == Monitors && e.source in sentinels && e.target.AgentNode? :: e.target.agent;
    forall a | a in Suppressed(w, cfg) ensures a in s {
      var e := Edge(SentinelNode(Monitor(w, cfg, a)), AgentNode(a), Monitors);
      assert IsEdge(w, cfg, e) && IsNode(w, cfg, e.source);
      assert e in g.edges && e.source in g.nodes;
    }
    forall a | a in s ensures a in Suppressed(w, cfg) {
      var e :| e in g.edges && e.kind == Monitors && e.source in sentinels && e.target == AgentNode(a);
      assert IsEdge(w, cfg, e);
    }
  }

  /** First loop of `step`: draw for every candidate in id order. */
  method DetectAll(w: World, cfg: Config, ids: seq<AgentId>) returns (caught: set<AgentId>, drafts: seq<Draft>)
    ensures caught == Hits(w, cfg, ids) && drafts == HitDrafts(w, cfg, ids)
  {
    caught, drafts := {}, [];
    for i := 0 to |ids|
      invariant caught == Hits(w, cfg, ids[..i]) && drafts == HitDrafts(w, cfg, ids[..i])
    {
      var a := ids[i];
      assert ids[..i + 1] == ids[..i] + [a];
      assert ids[..i + 1][..i] == ids[..i];
      if cfg.draw(w.tick, DetectDraw(a)) < cfg.detectorSensitivity {
        caught := caught + {a};
        drafts := drafts + [Draft(w.tick, AnomalyDetected(a)), Draft(w.tick, AgentQuarantined(a, true))];
      }
    }
    assert ids[..|ids|] == ids;
  }

  /** Second loop of `step`: the false-quarantine attack. */
  method AccuseAll(w: World, cfg: Config, ids: seq<AgentId>) returns (caught: set<AgentId>, drafts: seq<Draft>)
    ensures caught == FalseHits(w, cfg, ids) && drafts == FalseDrafts(w, cfg, ids)
  {
    caught, drafts := {}, [];
    for i := 0 to |ids|
      invariant caught == FalseHits(w, cfg, ids[..i]) && drafts == FalseDrafts(w, cfg, ids[..i])
    {
      var a := ids[i];
      assert ids[..i + 1] == ids[..i] + [a];
      assert ids[..i + 1][..i] == ids[..i];
      if cfg.draw(w.tick, FalseQuarantineDraw(a)) < cfg.falseQuarantineRate {
        caught := caught + {a};
        drafts := drafts + [Draft(w.tick, AgentQuarantined(a, false))];
      }
    }
    assert ids[..|ids|] == ids;
  }

  /** Third loop of `step`: `new_nodes[node_id] = replace(...)`. */
  method ConfineAll(nodes: map<AgentId, Agent>, who: set<AgentId>) returns (newNodes: map<AgentId, Agent>)
    requires who <= nodes.Keys
    ensures newNodes == Confine(nodes, who)
  {
    newNodes := nodes;
    var todo := who;
    while todo != {}
      invariant todo <= who
      invariant newNodes == Confine(nodes, who - todo)
    {
      var a :| a in todo;
      newNodes := newNodes[a := newNodes[a].(state := Quarantined)];
      todo := todo - {a};
    }
    assert who - todo == who;
  }

  method Advance(w: World, cfg: Config) returns (r: StepResult)
    ensures r == Step(w, cfg)
  {
    hide Suppressed, Sorted;
    if !cfg.defenseEnabled { return StepResult(w, []); }
    var suppressed := SuppressedByCompromisedSentinels(w, cfg);
    var detected, detections := DetectAll(w, cfg, Sorted(CompromisedAgents(w) - suppressed));
    var accused, accusations := AccuseAll(w, cfg, Sorted(if cfg.falseQuarantineRate > 0.0 then HealthyAgents(w) else {}));
    var newNodes := ConfineAll(w.nodes, detected + accused);
    r := StepResult(w.(nodes := newNodes), detections + accusations);
  }
}
