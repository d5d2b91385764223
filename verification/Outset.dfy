/** The tick-0 world and its events, said on the ids, the links and the configuration alone.
    engine/topology.py:11-106 and engine/simulate.py:20-24. */
module Outset {
  import opened Wrappers
  import opened Ordering
  import opened World
  import opened Topology
  import Experiment
  import GraphFacts
  import Watching

  /** How many ids come before n. */
  function Place(ids: set<AgentId>, n: AgentId): nat { |set m | m in ids && m < n| }

  /** The agents n is linked with, in either direction. */
  function LinkedWith(ids: set<AgentId>, links: set<(AgentId, AgentId)>, n: AgentId): set<AgentId> {
    set m | m in ids && ((n, m) in links || (m, n) in links)
  }

  lemma PlaceIs(ids: set<AgentId>, n: AgentId)
    requires n in ids
    ensures n in Sorted(ids) && GraphFacts.Position(Sorted(ids), n) == Place(ids, n)
  {
    hide Sorted;
    Watching.PositionInOrder(Sorted(ids), n);
    assert (set m | m in Sorted(ids) && m < n) == (set m | m in ids && m < n);
  }

  /** One agent of the tick-0 world: software by turns in id order, the seed compromised, everybody
      else healthy, the best-connected agents model-backed. */
  lemma InitialAgent(ids: set<AgentId>, links: set<(AgentId, AgentId)>, cfg: Config, n: AgentId)
    requires ids != {} && cfg.softwareTypeCount > 0 && n in ids
    ensures var w := InitialWorld(ids, links, cfg); var a := w.nodes[n]; var seed := SeedNode(ids, links, cfg);
      && a.softwareType == Place(ids, n) % cfg.softwareTypeCount
      && a.state == (if n == seed then Compromised else Healthy)
      && a.neighbors == LinkedWith(ids, links, n)
      && a.compromisedBy == None && a.tickCompromised == (if n == seed then Some(0) else None)
      && (a.isReal <==> |set m | m in ids && (|LinkedWith(ids, links, m)| > |LinkedWith(ids, links, n)|
                                 || (|LinkedWith(ids, links, m)| == |LinkedWith(ids, links, n)| && m < n))| < cfg.realAgentCount)
  {
    hide Sorted, GraphFacts.Position, SeedNode, Place;
    PlaceIs(ids, n);
    InitialReal(ids, links, cfg);
    forall m ensures Neighbors(ids, links, m) == LinkedWith(ids, links, m) {}
    OutrankedBy(ids, links, n);
  }

  lemma OutrankedBy(ids: set<AgentId>, links: set<(AgentId, AgentId)>, n: AgentId)
    ensures (set m | m in ids && Outranks(ids, links, m, n)) ==
      set m | m in ids && (|LinkedWith(ids, links, m)| > |LinkedWith(ids, links, n)|
                           || (|LinkedWith(ids, links, m)| == |LinkedWith(ids, links, n)| && m < n))
  {
  }

  /** The rest of it: every link once, smaller id first, the clock at 0 and no graph node fallen. */
  lemma InitialFrame(ids: set<AgentId>, links: set<(AgentId, AgentId)>, cfg: Config, a: AgentId, b: AgentId)
    requires ids != {} && cfg.softwareTypeCount > 0
    ensures var w := InitialWorld(ids, links, cfg);
      && w.tick == 0 && w.compromisedGraph == {} && w.nodes.Keys == ids
      && ((a, b) in w.edges <==> a <= b && ((a, b) in links || (b, a) in links))
  {
    hide SoftwareTypes, SeedNode, RealAgents;
    if (a, b) in OrderedLinks(links) { var e :| e in links && Ordered(e) == (a, b); }
    if a <= b && (a, b) in links { assert Ordered((a, b)) in OrderedLinks(links); }
    if a <= b && (b, a) in links { assert Ordered((b, a)) in OrderedLinks(links); }
  }

  /** The seed: drawn by its place, or the best-connected agent, lowest id first. */
  lemma SeedIs(ids: set<AgentId>, links: set<(AgentId, AgentId)>, cfg: Config)
    requires ids != {}
    ensures var seed := SeedNode(ids, links, cfg);
      && seed in ids
      && if cfg.randomInitial then Place(ids, seed) == cfg.pick(InitialCompromise) % |ids|
         else forall m | m in ids ::
           && |LinkedWith(ids, links, m)| <= |LinkedWith(ids, links, seed)|
           && (m < seed ==> |LinkedWith(ids, links, m)| < |LinkedWith(ids, links, seed)|)
  {
    hide Sorted, Place;
    var sorted, seed := Sorted(ids), SeedNode(ids, links, cfg);
    forall m ensures Neighbors(ids, links, m) == LinkedWith(ids, links, m) {}
    if cfg.randomInitial {
      PlaceIs(ids, seed);
      GraphFacts.PositionUnique(sorted, cfg.pick(InitialCompromise) % |sorted|);
    } else {
      forall m | m in ids ensures m in sorted {}
    }
  }

  lemma {:induction false} CreationEvents(w: World, sorted: seq<AgentId>, i: nat)
    requires (forall n | n in sorted :: n in w.nodes) && i < |sorted|
    ensures |CreationDrafts(w, sorted)| == |sorted|
    ensures sorted[i] in w.nodes && CreationDrafts(w, sorted)[i] == Draft(0, AgentCreated(sorted[i], w.nodes[sorted[i]].softwareType))
  {
    var n := |sorted| - 1;
    assert sorted[n] in sorted && sorted[i] in sorted;
    if i < n { CreationEvents(w, sorted[..n], i); } else if n > 0 { CreationEvents(w, sorted[..n], 0); }
  }

  /** The opening of every log: the start, an event for each agent in id order, the seed's compromise. */
  lemma OpeningLog(s: Experiment.Setup, i: nat)
    requires Experiment.Valid(s) && i < |s.ids|
    ensures var log := Experiment.Start(s).drafts; var sorted := Sorted(s.ids);
      && |log| == |s.ids| + 2
      && log[0] == Draft(0, ExperimentStarted)
      && log[i + 1] == Draft(0, AgentCreated(sorted[i], i % s.cfg.softwareTypeCount))
      && log[|s.ids| + 1] == Draft(0, CompromiseSucceeded(None, SeedNode(s.ids, s.links, s.cfg), false))
  {
    hide Sorted, SeedNode, InitialWorld, CreationDrafts;
    var w, sorted := InitialWorld(s.ids, s.links, s.cfg), Sorted(s.ids);
    InitialFrame(s.ids, s.links, s.cfg, 0, 0);
    CreationEvents(w, sorted, i);
    assert sorted[i] in sorted;
    InitialAgent(s.ids, s.links, s.cfg, sorted[i]);
    PlaceIs(s.ids, sorted[i]);
    GraphFacts.PositionUnique(sorted, i);
  }
}
