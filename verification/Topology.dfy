/** backend/app/engine/topology.py: the tick-0 world over a caller-supplied topology. */
module Topology {
  import opened Wrappers
  import opened Ordering
  import opened World
  import GraphFacts

  type Link = (AgentId, AgentId)

  function Neighbors(ids: set<AgentId>, links: set<Link>, n: AgentId): set<AgentId>
  {
    set m | m in ids && ((n, m) in links || (m, n) in links)
  }

  function Ordered(e: Link): Link { if e.0 < e.1 then e else (e.1, e.0) }

  function OrderedLinks(links: set<Link>): set<Link> { set e | e in links :: Ordered(e) }

  function Degree(ids: set<AgentId>, links: set<Link>, n: AgentId): nat { |Neighbors(ids, links, n)| }

  predicate Hub(ids: set<AgentId>, links: set<Link>, n: AgentId) {
    n in ids && forall m | m in ids :: Degree(ids, links, m) <= Degree(ids, links, n)
  }

  /** The most connected agent of a prefix of the sorted ids, lowest id first. */
  function BestHub(ids: set<AgentId>, links: set<Link>, sorted: seq<AgentId>): (best: AgentId)
    requires |sorted| > 0 && Ascending(sorted)
    ensures best in sorted
    ensures forall m | m in sorted :: Degree(ids, links, m) <= Degree(ids, links, best)
    ensures forall m | m in sorted && m < best :: Degree(ids, links, m) < Degree(ids, links, best)
  {
    var last := sorted[|sorted| - 1];
    var earlier := sorted[..|sorted| - 1];
    assert sorted == earlier + [last];
    AscendingLast(earlier, last);
    if |sorted| == 1 then last else
      var best := BestHub(ids, links, earlier);
      if Degree(ids, links, last) > Degree(ids, links, best) then last else best
  }

  function SeedNode(ids: set<AgentId>, links: set<Link>, cfg: Config): (n: AgentId)
    requires ids != {}
    ensures n in ids
    ensures !cfg.randomInitial ==> Hub(ids, links, n)
  {
    var sorted := Sorted(ids);
    if cfg.randomInitial then
      var i := cfg.pick(InitialCompromise) % |sorted|;
      assert sorted[i] in sorted;
      sorted[i]
    else BestHub(ids, links, sorted)
  }

  /** The `realAgentCount` best-connected agents, lowest id first on ties. */
  function RealAgents(ids: set<AgentId>, links: set<Link>, count: nat): set<AgentId> {
    set n | n in ids && |set m | m in ids && Outranks(ids, links, m, n)| < count
  }

  predicate Outranks(ids: set<AgentId>, links: set<Link>, m: AgentId, n: AgentId) {
    Degree(ids, links, m) > Degree(ids, links, n) || (Degree(ids, links, m) == Degree(ids, links, n) && m < n)
  }

  function MakeAgent(softwareType: nat, isSeed: bool, neighbors: set<AgentId>, isReal: bool): Agent {
    Agent(softwareType, if isSeed then Compromised else Healthy, neighbors, None, if isSeed then Some(0) else None, isReal)
  }

  /** Round-robin over the sorted ids. */
  function SoftwareTypes(ids: set<AgentId>, count: nat): (types: map<AgentId, nat>)
    requires count > 0
    ensures types.Keys == ids
  {
    map n | n in ids :: GraphFacts.Position(Sorted(ids), n) % count
  }

  /** The world that given types, seed and model-backed agents make. */
  function Assemble(ids: set<AgentId>, links: set<Link>, types: map<AgentId, nat>, seed: AgentId, realIds: set<AgentId>): World
    requires types.Keys == ids
  {
    World(0, map n | n in ids :: MakeAgent(types[n], n == seed, Neighbors(ids, links, n), n in realIds), OrderedLinks(links), {})
  }

  function InitialWorld(ids: set<AgentId>, links: set<Link>, cfg: Config): World
    requires ids != {} && cfg.softwareTypeCount > 0
  {
    Assemble(ids, links, SoftwareTypes(ids, cfg.softwareTypeCount),
             SeedNode(ids, links, cfg), RealAgents(ids, links, cfg.realAgentCount))
  }

  function CreationDrafts(w: World, sorted: seq<AgentId>): seq<Draft>
    requires forall n | n in sorted :: n in w.nodes
  {
    if |sorted| == 0 then [] else
      var n := sorted[|sorted| - 1];
      assert n in sorted;
      CreationDrafts(w, sorted[..|sorted| - 1]) + [Draft(0, AgentCreated(n, w.nodes[n].softwareType))]
  }

  function TopologyDrafts(ids: set<AgentId>, links: set<Link>, cfg: Config): seq<Draft>
    requires ids != {} && cfg.softwareTypeCount > 0
  {
    CreationDrafts(InitialWorld(ids, links, cfg), Sorted(ids)) +
      [Draft(0, CompromiseSucceeded(None, SeedNode(ids, links, cfg), false))]
  }

  /** Links only join known agents: anything else is a KeyError in the program. */
  predicate Closed(ids: set<AgentId>, links: set<Link>) {
    forall e | e in links :: e.0 in ids && e.1 in ids
  }

  /** Neighbour sets read off a set of links describe those links, both ways. */
  lemma LinksWellFormed(w: World, ids: set<AgentId>, links: set<Link>)
    requires w.nodes.Keys == ids && Closed(ids, links) && w.edges == OrderedLinks(links)
    requires forall n | n in ids :: w.nodes[n].neighbors == Neighbors(ids, links, n)
    ensures WellFormed(w)
  {
    forall a, b | a in w.nodes && b in w.nodes[a].neighbors
      ensures b in w.nodes && a in w.nodes[b].neighbors
      ensures (a, b) in w.edges || (b, a) in w.edges
    {
      var l := if (a, b) in links then (a, b) else (b, a);
      assert l in links && Ordered(l) in OrderedLinks(links);
    }
    forall e | e in w.edges ensures e.0 in w.nodes && e.1 in w.nodes[e.0].neighbors {
      var l :| l in links && Ordered(l) == e;
    }
  }

  /** One seed, everybody else healthy, symmetric links. */
  ghost predicate FreshWorld(w: World, ids: set<AgentId>, links: set<Link>, seed: AgentId) {
    && w.nodes.Keys == ids && w.edges == OrderedLinks(links) && w.tick == 0 && w.compromisedGraph == {}
    && (forall n | n in ids :: w.nodes[n].neighbors == Neighbors(ids, links, n) && w.nodes[n].compromisedBy == None)
    && (forall n | n in ids :: w.nodes[n].state == (if n == seed then Compromised else Healthy))
    && (forall n | n in ids :: w.nodes[n].tickCompromised == (if n == seed then Some(0) else None))
  }

  lemma AssembledFresh(ids: set<AgentId>, links: set<Link>, types: map<AgentId, nat>, seed: AgentId, realIds: set<AgentId>)
    requires types.Keys == ids && seed in ids
    ensures FreshWorld(Assemble(ids, links, types, seed, realIds), ids, links, seed)
  {
  }

  lemma FreshShape(w: World, ids: set<AgentId>, links: set<Link>, seed: AgentId)
    requires FreshWorld(w, ids, links, seed) && Closed(ids, links) && seed in ids
    ensures WellFormed(w)
    ensures CompromisedAgents(w) == {seed} && EverCompromised(w) == {seed} && HealthyAgents(w) == ids - {seed}
  {
    LinksWellFormed(w, ids, links);
  }

  /** The tick-0 world is symmetric, and exactly one agent is compromised in it. */
  lemma InitialWorldShape(ids: set<AgentId>, links: set<Link>, cfg: Config)
    requires ids != {} && cfg.softwareTypeCount > 0 && Closed(ids, links)
    ensures var w := InitialWorld(ids, links, cfg); var seed := SeedNode(ids, links, cfg);
      && FreshWorld(w, ids, links, seed) && WellFormed(w)
      && CompromisedAgents(w) == {seed} && EverCompromised(w) == {seed} && HealthyAgents(w) == ids - {seed}
  {
    var seed := SeedNode(ids, links, cfg);
    AssembledFresh(ids, links, SoftwareTypes(ids, cfg.softwareTypeCount), seed, RealAgents(ids, links, cfg.realAgentCount));
    FreshShape(InitialWorld(ids, links, cfg), ids, links, seed);
  }

  /** The best-connected agents are the model-backed ones. */
  lemma InitialReal(ids: set<AgentId>, links: set<Link>, cfg: Config)
    requires ids != {} && cfg.softwareTypeCount > 0
    ensures var w := InitialWorld(ids, links, cfg);
      w.nodes.Keys == ids && forall n | n in ids :: w.nodes[n].isReal <==> n in RealAgents(ids, links, cfg.realAgentCount)
  {
    hide SoftwareTypes, SeedNode, RealAgents, Neighbors, OrderedLinks;
  }

  // --- the loops of build_world_from_agents -----------------------------------------------

  lemma LinkOne(ids: set<AgentId>, links: set<Link>, e: Link, n: AgentId)
    requires e.0 in ids && e.1 in ids
    ensures Neighbors(ids, links + {e}, n) ==
      Neighbors(ids, links, n) + (if n == e.0 then {e.1} else {}) + (if n == e.1 then {e.0} else {})
    ensures OrderedLinks(links + {e}) == OrderedLinks(links) + {Ordered(e)}
  {
  }

  ghost predicate Linked(ids: set<AgentId>, links: set<Link>, neighbors: map<AgentId, set<AgentId>>) {
    neighbors.Keys == ids && forall n | n in ids :: neighbors[n] == Neighbors(ids, links, n)
  }

  /** `neighbors[u].add(v); neighbors[v].add(u)`. */
  method AddLink(ids: set<AgentId>, neighbors: map<AgentId, set<AgentId>>, e: Link, ghost links: set<Link>)
    returns (updated: map<AgentId, set<AgentId>>)
    requires e.0 in ids && e.1 in ids && Linked(ids, links, neighbors)
    ensures Linked(ids, links + {e}, updated)
  {
    updated := neighbors[e.0 := neighbors[e.0] + {e.1}];
    updated := updated[e.1 := updated[e.1] + {e.0}];
    forall n | n in ids ensures updated[n] == Neighbors(ids, links + {e}, n) { LinkOne(ids, links, e, n); }
  }

  /** `for u, v in edges: ...; edge_set.add(...)`. */
  method LinkUp(ids: set<AgentId>, links: set<Link>) returns (neighbors: map<AgentId, set<AgentId>>, edges: set<Link>)
    requires Closed(ids, links)
    ensures Linked(ids, links, neighbors)
    ensures edges == OrderedLinks(links)
  {
    neighbors := map n | n in ids :: {};
    edges := {};
    ghost var linked: set<Link> := {};
    var todo := links;
    while todo != {}
      invariant todo <= links && linked == links - todo
      invariant Linked(ids, linked, neighbors) && edges == OrderedLinks(linked)
    {
      var e :| e in todo;
      neighbors := AddLink(ids, neighbors, e, linked);
      LinkOne(ids, linked, e, e.0);
      edges := edges + {Ordered(e)};
      todo := todo - {e};
      linked := linked + {e};
    }
    assert linked == links;
  }

  /** The loop over the sorted ids that creates the agents. */
  method CreateAgents(ids: set<AgentId>, sorted: seq<AgentId>, types: map<AgentId, nat>, seed: AgentId, realIds: set<AgentId>,
                      neighbors: map<AgentId, set<AgentId>>)
    returns (nodes: map<AgentId, Agent>)
    requires types.Keys == ids && neighbors.Keys == ids && forall n :: n in sorted <==> n in ids
    ensures nodes.Keys == ids
    ensures forall n | n in ids :: nodes[n] == MakeAgent(types[n], n == seed, neighbors[n], n in realIds)
  {
    nodes := map[];
    for i := 0 to |sorted|
      invariant nodes.Keys <= ids
      invariant forall k | 0 <= k < i :: sorted[k] in nodes
      invariant forall n | n in nodes :: nodes[n] == MakeAgent(types[n], n == seed, neighbors[n], n in realIds)
    {
      var n := sorted[i];
      assert n in sorted;
      nodes := nodes[n := Agent(types[n], if n == seed then Compromised else Healthy, neighbors[n], None,
                                if n == seed then Some(0) else None, n in realIds)];
    }
  }

  /** The loop over the sorted ids that announces the agents. */
  method AnnounceAgents(w: World, sorted: seq<AgentId>) returns (drafts: seq<Draft>)
    requires forall n | n in sorted :: n in w.nodes
    ensures drafts == CreationDrafts(w, sorted)
  {
    drafts := [];
    for i := 0 to |sorted|
      invariant drafts == CreationDrafts(w, sorted[..i])
    {
      assert sorted[i] in sorted;
      assert sorted[..i + 1][..i] == sorted[..i];
      drafts := drafts + [Draft(0, AgentCreated(sorted[i], w.nodes[sorted[i]].softwareType))];
    }
    assert sorted[..|sorted|] == sorted;
  }

  lemma AssembledFrom(ids: set<AgentId>, links: set<Link>, types: map<AgentId, nat>, seed: AgentId, realIds: set<AgentId>,
                      neighbors: map<AgentId, set<AgentId>>, nodes: map<AgentId, Agent>)
    requires types.Keys == ids && Linked(ids, links, neighbors) && nodes.Keys == ids
    requires forall n | n in ids :: nodes[n] == MakeAgent(types[n], n == seed, neighbors[n], n in realIds)
    ensures nodes == Assemble(ids, links, types, seed, realIds).nodes
  {
  }

  method BuildWorldFromAgents(ids: set<AgentId>, links: set<Link>, cfg: Config) returns (w: World, drafts: seq<Draft>)
    requires ids != {} && cfg.softwareTypeCount > 0 && Closed(ids, links)
    ensures w == InitialWorld(ids, links, cfg)
    ensures drafts == TopologyDrafts(ids, links, cfg)
  {
    var sorted := Sorted(ids);
    var neighbors, edges := LinkUp(ids, links);
    var seed := SeedNode(ids, links, cfg);
    var realIds := RealAgents(ids, links, cfg.realAgentCount);
    var types := SoftwareTypes(ids, cfg.softwareTypeCount);
    var nodes := CreateAgents(ids, sorted, types, seed, realIds, neighbors);
    w := World(0, nodes, edges, {});
    AssembledFrom(ids, links, types, seed, realIds, neighbors, nodes);
    drafts := AnnounceAgents(w, sorted);
    drafts := drafts + [Draft(0, CompromiseSucceeded(None, seed, false))];
  }
}
