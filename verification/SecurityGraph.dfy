/** backend/app/graph/security_graph.py and builder.py: the typed security graph. */
module SecurityGraphs {
  import opened Ordering
  import opened World

  datatype EdgeType =
    | CommunicatesWith | DelegatesTo | Trusts | CanAccess | UsesCredential
    | Monitors | QuarantineAuthorityOver | UpdatesThreatMemory

  datatype Edge = Edge(source: NodeId, target: NodeId, kind: EdgeType)

  datatype Graph = Graph(nodes: map<NodeId, SecurityState>, edges: set<Edge>)

  const PROPAGATION_EDGE_TYPES: set<EdgeType> := {CommunicatesWith, DelegatesTo, CanAccess, UsesCredential}

  function CompromisedIds(g: Graph): (s: set<NodeId>)
    ensures forall n :: n in s <==> n in g.nodes && g.nodes[n] == Compromised
  {
    set n | n in g.nodes && g.nodes[n] == Compromised
  }

  /** The mutable graph the builder fills in. Edges are keyed by their type. */
  class SecurityGraph {
    var nodes: map<NodeId, SecurityState>
    var edges: set<Edge>

    function Model(): Graph
      reads this
    {
      Graph(nodes, edges)
    }

    constructor ()
      ensures Model() == Graph(map[], {})
    {
      nodes, edges := map[], {};
    }

    method AddNode(id: NodeId, state: SecurityState)
      modifies this
      ensures nodes == old(nodes)[id := state] && edges == old(edges)
    {
      nodes := nodes[id := state];
    }

    method AddEdge(source: NodeId, target: NodeId, kind: EdgeType)
      modifies this
      ensures edges == old(edges) + {Edge(source, target, kind)} && nodes == old(nodes)
    {
      edges := edges + {Edge(source, target, kind)};
    }
  }

  function StateFor(id: NodeId, compromised: set<NodeId>): SecurityState {
    if id in compromised then Compromised else Healthy
  }

  function AgentIds(w: World): seq<AgentId> { Sorted(w.nodes.Keys) }

  function Holder(cfg: Config, ids: seq<AgentId>, credential: nat): (a: AgentId)
    requires |ids| > 0
    ensures a in ids
  {
    ids[cfg.pick(CredentialHolder(credential)) % |ids|]
  }

  // --- what each builder loop has added after n iterations ---------------------------------

  function AddAgents(g: Graph, w: World, ids: seq<AgentId>): Graph
    requires forall a | a in ids :: a in w.nodes
  {
    if |ids| == 0 then g else
      var a := ids[|ids| - 1];
      assert a in ids;
      var earlier := AddAgents(g, w, ids[..|ids| - 1]);
      earlier.(nodes := earlier.nodes[AgentNode(a) := w.nodes[a].state])
  }

  function LinkEdges(e: (AgentId, AgentId)): set<Edge> {
    {Edge(AgentNode(e.0), AgentNode(e.1), CommunicatesWith), Edge(AgentNode(e.1), AgentNode(e.0), CommunicatesWith),
     Edge(AgentNode(e.0), AgentNode(e.1), Trusts), Edge(AgentNode(e.1), AgentNode(e.0), Trusts)}
  }

  function AllLinkEdges(links: set<(AgentId, AgentId)>): set<Edge> {
    set e, x | e in links && x in LinkEdges(e) :: x
  }

  function AccessEdges(cfg: Config, ids: seq<AgentId>, tool: nat): set<Edge> {
    set a | a in cfg.toolAccess(tool) && a in ids :: Edge(AgentNode(a), ToolNode(tool), CanAccess)
  }

  function AddTools(g: Graph, cfg: Config, ids: seq<AgentId>, n: nat): Graph {
    if n == 0 then g else
      var earlier := AddTools(g, cfg, ids, n - 1);
      Graph(earlier.nodes[ToolNode(n - 1) := Healthy], earlier.edges + AccessEdges(cfg, ids, n - 1))
  }

  function AddResources(g: Graph, n: nat): Graph {
    if n == 0 then g else
      var earlier := AddResources(g, n - 1);
      earlier.(nodes := earlier.nodes[ResourceNode(n - 1) := Healthy])
  }

  function CredentialEdges(cfg: Config, ids: seq<AgentId>, i: nat): set<Edge>
    requires |ids| > 0
  {
    {Edge(AgentNode(Holder(cfg, ids, i)), CredentialNode(i), UsesCredential)} +
    if cfg.resourceCount > 0 then {Edge(CredentialNode(i), ResourceNode(i % cfg.resourceCount), CanAccess)} else {}
  }

  function AddCredentials(g: Graph, cfg: Config, ids: seq<AgentId>, compromised: set<NodeId>, n: nat): Graph
    requires |ids| > 0
  {
    if n == 0 then g else
      var earlier := AddCredentials(g, cfg, ids, compromised, n - 1);
      Graph(earlier.nodes[CredentialNode(n - 1) := StateFor(CredentialNode(n - 1), compromised)],
            earlier.edges + CredentialEdges(cfg, ids, n - 1))
  }

  const CONTROLS: seq<ControlKind> := [TrustManager, ThreatMemory, AttestationService, QuarantineAuthority]

  function AddControls(g: Graph, compromised: set<NodeId>, n: nat): Graph
    requires n <= 4
  {
    if n == 0 then g else
      var earlier := AddControls(g, compromised, n - 1);
      var c := ControlNode(CONTROLS[n - 1]);
      earlier.(nodes := earlier.nodes[c := StateFor(c, compromised)])
  }

  function AddAuthority(g: Graph, ids: seq<AgentId>): Graph {
    if |ids| == 0 then g else
      var earlier := AddAuthority(g, ids[..|ids| - 1]);
      earlier.(edges := earlier.edges +
        {Edge(ControlNode(QuarantineAuthority), AgentNode(ids[|ids| - 1]), QuarantineAuthorityOver)})
  }

  function AddSentinels(g: Graph, compromised: set<NodeId>, n: nat): Graph {
    if n == 0 then g else
      var earlier := AddSentinels(g, compromised, n - 1);
      var s := SentinelNode(n - 1);
      Graph(earlier.nodes[s := StateFor(s, compromised)],
            earlier.edges + {Edge(s, ControlNode(ThreatMemory), UpdatesThreatMemory),
                             Edge(ControlNode(ThreatMemory), s, UpdatesThreatMemory)})
  }

  /** Round-robin monitoring: the i-th agent in id order belongs to sentinel i mod k. */
  function AddMonitors(g: Graph, k: nat, ids: seq<AgentId>): Graph
    requires k > 0
  {
    if |ids| == 0 then g else
      var i := |ids| - 1;
      var earlier := AddMonitors(g, k, ids[..i]);
      earlier.(edges := earlier.edges + {Edge(SentinelNode(i % k), AgentNode(ids[i]), Monitors)})
  }

  function AddSecurityPlane(g: Graph, cfg: Config, ids: seq<AgentId>, compromised: set<NodeId>): Graph {
    if cfg.sentinelCount == 0 || |ids| == 0 then g else
      AddMonitors(
        AddSentinels(AddAuthority(AddControls(g, compromised, 4), ids), compromised, cfg.sentinelCount),
        cfg.sentinelCount, ids)
  }

  function Links(w: World): Graph {
    var g := AddAgents(Graph(map[], {}), w, AgentIds(w));
    g.(edges := g.edges + AllLinkEdges(w.edges))
  }

  function AddAssets(g: Graph, cfg: Config, ids: seq<AgentId>, compromised: set<NodeId>): Graph {
    if |ids| == 0 then g else
      AddCredentials(AddResources(AddTools(g, cfg, ids, cfg.toolCount), cfg.resourceCount),
                     cfg, ids, compromised, cfg.credentialCount)
  }

  /** The graph of a world: agents and links, then tools, resources, credentials, sentinels. */
  function Build(w: World, cfg: Config): Graph {
    AddSecurityPlane(AddAssets(Links(w), cfg, AgentIds(w), w.compromisedGraph), cfg, AgentIds(w), w.compromisedGraph)
  }

  // --- the builder itself -------------------------------------------------------------------

  method AttachAgents(g: SecurityGraph, w: World, ids: seq<AgentId>)
    requires forall a | a in ids :: a in w.nodes
    modifies g
    ensures g.Model() == AddAgents(old(g.Model()), w, ids)
  {
    for i := 0 to |ids|
      invariant g.Model() == AddAgents(old(g.Model()), w, ids[..i])
    {
      g.AddNode(AgentNode(ids[i]), w.nodes[ids[i]].state);
      assert ids[..i + 1][..i] == ids[..i];
    }
    assert ids[..|ids|] == ids;
  }

  method AttachLinks(g: SecurityGraph, links: set<(AgentId, AgentId)>)
    modifies g
    ensures g.Model() == old(g.Model()).(edges := old(g.edges) + AllLinkEdges(links))
  {
    var todo := links;
    while todo != {}
      invariant todo <= links
      invariant g.nodes == old(g.nodes)
      invariant g.edges == old(g.edges) + AllLinkEdges(links - todo)
    {
      var e :| e in todo;
      g.AddEdge(AgentNode(e.0), AgentNode(e.1), CommunicatesWith);
      g.AddEdge(AgentNode(e.1), AgentNode(e.0), CommunicatesWith);
      g.AddEdge(AgentNode(e.0), AgentNode(e.1), Trusts);
      g.AddEdge(AgentNode(e.1), AgentNode(e.0), Trusts);
      assert links - (todo - {e}) == (links - todo) + {e};
      assert AllLinkEdges((links - todo) + {e}) == AllLinkEdges(links - todo) + LinkEdges(e);
      todo := todo - {e};
    }
    assert links - todo == links;
  }

  method AttachTools(g: SecurityGraph, cfg: Config, ids: seq<AgentId>)
    modifies g
    ensures g.Model() == if |ids| == 0 then old(g.Model()) else AddTools(old(g.Model()), cfg, ids, cfg.toolCount)
  {
    if cfg.toolCount <= 0 || |ids| == 0 { return; }
    for i := 0 to cfg.toolCount
      invariant g.Model() == AddTools(old(g.Model()), cfg, ids, i)
    {
      g.AddNode(ToolNode(i), Healthy);
      ghost var edges := g.edges;
      var accessors := set a | a in cfg.toolAccess(i) && a in ids;
      var todo := accessors;
      while todo != {}
        invariant todo <= accessors
        invariant g.nodes == AddTools(old(g.Model()), cfg, ids, i).nodes[ToolNode(i) := Healthy]
        invariant g.edges == edges + set a | a in accessors - todo :: Edge(AgentNode(a), ToolNode(i), CanAccess)
      {
        var a :| a in todo;
        g.AddEdge(AgentNode(a), ToolNode(i), CanAccess);
        assert accessors - (todo - {a}) == (accessors - todo) + {a};
        todo := todo - {a};
      }
      assert accessors - todo == accessors;
      assert AccessEdges(cfg, ids, i) == set a | a in accessors :: Edge(AgentNode(a), ToolNode(i), CanAccess);
    }
  }

  method AttachCredentialsAndResources(g: SecurityGraph, cfg: Config, ids: seq<AgentId>, compromised: set<NodeId>)
    modifies g
    ensures g.Model() == if |ids| == 0 then old(g.Model()) else
      AddCredentials(AddResources(old(g.Model()), cfg.resourceCount), cfg, ids, compromised, cfg.credentialCount)
  {
    if |ids| == 0 { return; }
    for i := 0 to cfg.resourceCount
      invariant g.Model() == AddResources(old(g.Model()), i)
    {
      g.AddNode(ResourceNode(i), Healthy);
    }
    ghost var g1 := g.Model();
    for i := 0 to cfg.credentialCount
      invariant g.Model() == AddCredentials(g1, cfg, ids, compromised, i)
    {
      g.AddNode(CredentialNode(i), StateFor(CredentialNode(i), compromised));
      g.AddEdge(AgentNode(Holder(cfg, ids, i)), CredentialNode(i), UsesCredential);
      if cfg.resourceCount > 0 {
        g.AddEdge(CredentialNode(i), ResourceNode(i % cfg.resourceCount), CanAccess);
      }
      assert g.edges == AddCredentials(g1, cfg, ids, compromised, i).edges + CredentialEdges(cfg, ids, i);
    }
  }

  method AttachSecurityPlane(g: SecurityGraph, cfg: Config, ids: seq<AgentId>, compromised: set<NodeId>)
    modifies g
    ensures g.Model() == AddSecurityPlane(old(g.Model()), cfg, ids, compromised)
  {
    if cfg.sentinelCount <= 0 || |ids| == 0 { return; }
    for i := 0 to 4
      invariant g.Model() == AddControls(old(g.Model()), compromised, i)
    {
      g.AddNode(ControlNode(CONTROLS[i]), StateFor(ControlNode(CONTROLS[i]), compromised));
    }
    ghost var g1 := g.Model();
    for i := 0 to |ids|
      invariant g.Model() == AddAuthority(g1, ids[..i])
    {
      g.AddEdge(ControlNode(QuarantineAuthority), AgentNode(ids[i]), QuarantineAuthorityOver);
      assert ids[..i + 1][..i] == ids[..i];
    }
    assert ids[..|ids|] == ids;
    ghost var g2 := g.Model();
    for i := 0 to cfg.sentinelCount
      invariant g.Model() == AddSentinels(g2, compromised, i)
    {
      g.AddNode(SentinelNode(i), StateFor(SentinelNode(i), compromised));
      ghost var edges := g.edges;
      g.AddEdge(SentinelNode(i), ControlNode(ThreatMemory), UpdatesThreatMemory);
      g.AddEdge(ControlNode(ThreatMemory), SentinelNode(i), UpdatesThreatMemory);
      assert g.edges == edges + {Edge(SentinelNode(i), ControlNode(ThreatMemory), UpdatesThreatMemory),
                                 Edge(ControlNode(ThreatMemory), SentinelNode(i), UpdatesThreatMemory)};
    }
    ghost var g3 := g.Model();
    for i := 0 to |ids|
      invariant g.Model() == AddMonitors(g3, cfg.sentinelCount, ids[..i])
    {
      g.AddEdge(SentinelNode(i % cfg.sentinelCount), AgentNode(ids[i]), Monitors);
      assert ids[..i + 1][..i] == ids[..i];
    }
  }

  method BuildSecurityGraph(w: World, cfg: Config) returns (g: SecurityGraph)
    ensures fresh(g) && g.Model() == Build(w, cfg)
  {
    g := new SecurityGraph();
    var ids := AgentIds(w);
    AttachAgents(g, w, ids);
    AttachLinks(g, w.edges);
    AttachTools(g, cfg, ids);
    AttachCredentialsAndResources(g, cfg, ids, w.compromisedGraph);
    AttachSecurityPlane(g, cfg, ids, w.compromisedGraph);
  }
}
