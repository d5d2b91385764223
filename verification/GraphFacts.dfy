/** What the built graph contains, read back without its construction order. */
module GraphFacts {
  import opened Ordering
  import opened World
  import opened SecurityGraphs

  function Position(ids: seq<AgentId>, a: AgentId): (i: nat)
    requires a in ids
    ensures i < |ids| && ids[i] == a
  {
    if ids[0] == a then 0 else 1 + Position(ids[1..], a)
  }

  /** The sentinel in charge of an agent. */
  function Monitor(w: World, cfg: Config, a: AgentId): (m: nat)
    requires a in w.nodes && cfg.sentinelCount > 0
    ensures m < cfg.sentinelCount
  {
    Position(AgentIds(w), a) % cfg.sentinelCount
  }

  predicate Linked(w: World, source: NodeId, target: NodeId) {
    && source.AgentNode? && target.AgentNode?
    && ((source.agent, target.agent) in w.edges || (target.agent, source.agent) in w.edges)
  }

  predicate IsToolAccess(w: World, cfg: Config, e: Edge) {
    && e.source.AgentNode? && e.source.agent in w.nodes
    && e.target.ToolNode? && e.target.index < cfg.toolCount
    && e.source.agent in cfg.toolAccess(e.target.index)
  }

  predicate IsCredentialAccess(w: World, cfg: Config, e: Edge) {
    && w.nodes.Keys != {}
    && e.source.CredentialNode? && e.source.index < cfg.credentialCount
    && cfg.resourceCount > 0 && e.target == ResourceNode(e.source.index % cfg.resourceCount)
  }

  predicate IsUse(w: World, cfg: Config, e: Edge) {
    && w.nodes.Keys != {}
    && e.target.CredentialNode? && e.target.index < cfg.credentialCount
    && e.source == AgentNode(Holder(cfg, AgentIds(w), e.target.index))
  }

  predicate IsEdge(w: World, cfg: Config, e: Edge) {
    match e.kind
    case CommunicatesWith => Linked(w, e.source, e.target)
    case Trusts => Linked(w, e.source, e.target)
    case CanAccess => IsToolAccess(w, cfg, e) || IsCredentialAccess(w, cfg, e)
    case UsesCredential => IsUse(w, cfg, e)
    case Monitors =>
      cfg.sentinelCount > 0 && e.target.AgentNode? && e.target.agent in w.nodes &&
      e.source == SentinelNode(Monitor(w, cfg, e.target.agent))
    case QuarantineAuthorityOver =>
      cfg.sentinelCount > 0 && e.target.AgentNode? && e.target.agent in w.nodes &&
      e.source == ControlNode(QuarantineAuthority)
    case UpdatesThreatMemory =>
      cfg.sentinelCount > 0 && w.nodes.Keys != {} &&
      ((e.source.SentinelNode? && e.source.index < cfg.sentinelCount && e.target == ControlNode(ThreatMemory)) ||
       (e.target.SentinelNode? && e.target.index < cfg.sentinelCount && e.source == ControlNode(ThreatMemory)))
    case DelegatesTo => false
  }

  lemma {:induction false} AgentsFacts(g: Graph, w: World, ids: seq<AgentId>, n: NodeId)
    requires forall a | a in ids :: a in w.nodes
    ensures AddAgents(g, w, ids).edges == g.edges
    ensures n in AddAgents(g, w, ids).nodes <==> n in g.nodes || (n.AgentNode? && n.agent in ids)
    ensures n in AddAgents(g, w, ids).nodes ==>
      AddAgents(g, w, ids).nodes[n] == (if n.AgentNode? && n.agent in ids then w.nodes[n.agent].state else g.nodes[n])
  {
    if |ids| > 0 {
      AgentsFacts(g, w, ids[..|ids| - 1], n);
      assert ids == ids[..|ids| - 1] + [ids[|ids| - 1]];
    }
  }

  lemma {:induction false} ToolsFacts(g: Graph, cfg: Config, ids: seq<AgentId>, k: nat, n: NodeId, e: Edge)
    ensures e in AddTools(g, cfg, ids, k).edges <==>
      (e in g.edges ||
      (e.kind == CanAccess && e.source.AgentNode? && e.source.agent in ids &&
       e.target.ToolNode? && e.target.index < k && e.source.agent in cfg.toolAccess(e.target.index)))
    ensures n in AddTools(g, cfg, ids, k).nodes <==> n in g.nodes || (n.ToolNode? && n.index < k)
    ensures n in AddTools(g, cfg, ids, k).nodes ==>
      AddTools(g, cfg, ids, k).nodes[n] == (if n.ToolNode? && n.index < k then Healthy else g.nodes[n])
  {
    if k > 0 {
      ToolsFacts(g, cfg, ids, k - 1, n, e);
    }
  }

  lemma {:induction false} ResourcesFacts(g: Graph, k: nat, n: NodeId)
    ensures AddResources(g, k).edges == g.edges
    ensures n in AddResources(g, k).nodes <==> n in g.nodes || (n.ResourceNode? && n.index < k)
    ensures n in AddResources(g, k).nodes ==>
      AddResources(g, k).nodes[n] == (if n.ResourceNode? && n.index < k then Healthy else g.nodes[n])
  {
    if k > 0 {
      ResourcesFacts(g, k - 1, n);
    }
  }

  lemma {:induction false} CredentialsFacts(g: Graph, cfg: Config, ids: seq<AgentId>, bad: set<NodeId>, k: nat, n: NodeId, e: Edge)
    requires |ids| > 0
    ensures e in AddCredentials(g, cfg, ids, bad, k).edges <==>
      (e in g.edges ||
      (e.kind == UsesCredential && e.target.CredentialNode? && e.target.index < k && e.source == AgentNode(Holder(cfg, ids, e.target.index))) ||
      (e.kind == CanAccess && e.source.CredentialNode? && e.source.index < k && cfg.resourceCount > 0 &&
       e.target == ResourceNode(e.source.index % cfg.resourceCount)))
    ensures n in AddCredentials(g, cfg, ids, bad, k).nodes <==> n in g.nodes || (n.CredentialNode? && n.index < k)
    ensures n in AddCredentials(g, cfg, ids, bad, k).nodes ==>
      AddCredentials(g, cfg, ids, bad, k).nodes[n] == (if n.CredentialNode? && n.index < k then StateFor(n, bad) else g.nodes[n])
  {
    if k > 0 {
      CredentialsFacts(g, cfg, ids, bad, k - 1, n, e);
    }
  }

  lemma {:induction false} AuthorityFacts(g: Graph, ids: seq<AgentId>, e: Edge)
    ensures AddAuthority(g, ids).nodes == g.nodes
    ensures e in AddAuthority(g, ids).edges <==>
      (e in g.edges ||
      (e.kind == QuarantineAuthorityOver && e.source == ControlNode(QuarantineAuthority) && e.target.AgentNode? && e.target.agent in ids))
  {
    if |ids| > 0 {
      AuthorityFacts(g, ids[..|ids| - 1], e);
      assert ids == ids[..|ids| - 1] + [ids[|ids| - 1]];
    }
  }

  lemma {:induction false} SentinelsFacts(g: Graph, bad: set<NodeId>, k: nat, n: NodeId, e: Edge)
    ensures e in AddSentinels(g, bad, k).edges <==>
      (e in g.edges ||
      (e.kind == UpdatesThreatMemory &&
       ((e.source.SentinelNode? && e.source.index < k && e.target == ControlNode(ThreatMemory)) ||
        (e.target.SentinelNode? && e.target.index < k && e.source == ControlNode(ThreatMemory)))))
    ensures n in AddSentinels(g, bad, k).nodes <==> n in g.nodes || (n.SentinelNode? && n.index < k)
    ensures n in AddSentinels(g, bad, k).nodes ==>
      AddSentinels(g, bad, k).nodes[n] == (if n.SentinelNode? && n.index < k then StateFor(n, bad) else g.nodes[n])
  {
    if k > 0 {
      SentinelsFacts(g, bad, k - 1, n, e);
    }
  }

  lemma {:induction false} MonitorsFacts(g: Graph, k: nat, ids: seq<AgentId>, e: Edge)
    requires k > 0
    ensures AddMonitors(g, k, ids).nodes == g.nodes
    ensures e in AddMonitors(g, k, ids).edges <==>
      (e in g.edges ||
      exists i :: 0 <= i < |ids| && e == Edge(SentinelNode(i % k), AgentNode(ids[i]), Monitors))
  {
    if |ids| > 0 {
      var n := |ids| - 1;
      var earlier := ids[..n];
      MonitorsFacts(g, k, earlier, e);
      if i :| 0 <= i < |ids| && e == Edge(SentinelNode(i % k), AgentNode(ids[i]), Monitors) {
        if i < n { assert earlier[i] == ids[i]; }
      }
      if i :| 0 <= i < |earlier| && e == Edge(SentinelNode(i % k), AgentNode(earlier[i]), Monitors) {
        assert ids[i] == earlier[i];
      }
    }
  }

  /** Positions in a sorted enumeration are unique. */
  lemma PositionUnique(ids: seq<AgentId>, i: nat)
    requires Ascending(ids) && i < |ids|
    ensures ids[i] in ids && Position(ids, ids[i]) == i
  {
    var j := Position(ids, ids[i]);
    assert !(i < j) && !(j < i);
  }

  lemma MonitorUnique(w: World, cfg: Config, e: Edge)
    requires cfg.sentinelCount > 0
    ensures (exists i :: 0 <= i < |AgentIds(w)| && e == Edge(SentinelNode(i % cfg.sentinelCount), AgentNode(AgentIds(w)[i]), Monitors))
      <==> e.kind == Monitors && IsEdge(w, cfg, e)
  {
    hide Sorted;
    var ids := AgentIds(w);
    if i :| 0 <= i < |ids| && e == Edge(SentinelNode(i % cfg.sentinelCount), AgentNode(ids[i]), Monitors) {
      PositionUnique(ids, i);
    }
    if e.kind == Monitors && IsEdge(w, cfg, e) {
      var i := Position(ids, e.target.agent);
      assert e == Edge(SentinelNode(i % cfg.sentinelCount), AgentNode(ids[i]), Monitors);
    }
  }

  lemma LinkFacts(links: set<(AgentId, AgentId)>, e: Edge)
    ensures e in AllLinkEdges(links) <==>
      && e.kind in {CommunicatesWith, Trusts} && e.source.AgentNode? && e.target.AgentNode?
      && ((e.source.agent, e.target.agent) in links || (e.target.agent, e.source.agent) in links)
  {
    if e.source.AgentNode? && e.target.AgentNode? {
      var l, r := (e.source.agent, e.target.agent), (e.target.agent, e.source.agent);
      if e.kind in {CommunicatesWith, Trusts} {
        assert e in LinkEdges(l) && e in LinkEdges(r);
      }
    }
  }

  lemma {:induction false} ControlsFacts(g: Graph, bad: set<NodeId>, k: nat, n: NodeId)
    requires k <= 4
    ensures AddControls(g, bad, k).edges == g.edges
    ensures n in AddControls(g, bad, k).nodes <==> n in g.nodes || (n.ControlNode? && n.kind in CONTROLS[..k])
    ensures n in AddControls(g, bad, k).nodes ==>
      AddControls(g, bad, k).nodes[n] == (if n.ControlNode? && n.kind in CONTROLS[..k] then StateFor(n, bad) else g.nodes[n])
  {
    if k > 0 {
      ControlsFacts(g, bad, k - 1, n);
      assert CONTROLS[..k] == CONTROLS[..k - 1] + [CONTROLS[k - 1]];
    }
  }

  lemma AllControls(kind: ControlKind)
    ensures kind in CONTROLS[..4]
  {
    assert CONTROLS[..4][0] == TrustManager && CONTROLS[..4][1] == ThreatMemory;
    assert CONTROLS[..4][2] == AttestationService && CONTROLS[..4][3] == QuarantineAuthority;
  }

  lemma AssetsFacts(g: Graph, cfg: Config, ids: seq<AgentId>, bad: set<NodeId>, n: NodeId, e: Edge)
    requires |ids| > 0
    ensures e in AddAssets(g, cfg, ids, bad).edges <==>
      (e in g.edges ||
       (e.kind == CanAccess && e.source.AgentNode? && e.source.agent in ids &&
        e.target.ToolNode? && e.target.index < cfg.toolCount && e.source.agent in cfg.toolAccess(e.target.index)) ||
       (e.kind == UsesCredential && e.target.CredentialNode? && e.target.index < cfg.credentialCount &&
        e.source == AgentNode(Holder(cfg, ids, e.target.index))) ||
       (e.kind == CanAccess && e.source.CredentialNode? && e.source.index < cfg.credentialCount && cfg.resourceCount > 0 &&
        e.target == ResourceNode(e.source.index % cfg.resourceCount)))
    ensures n in AddAssets(g, cfg, ids, bad).nodes <==>
      (n in g.nodes || (n.ToolNode? && n.index < cfg.toolCount) || (n.ResourceNode? && n.index < cfg.resourceCount) ||
       (n.CredentialNode? && n.index < cfg.credentialCount))
    ensures n in AddAssets(g, cfg, ids, bad).nodes ==>
      AddAssets(g, cfg, ids, bad).nodes[n] == (
        if n.CredentialNode? && n.index < cfg.credentialCount then StateFor(n, bad)
        else if (n.ToolNode? && n.index < cfg.toolCount) || (n.ResourceNode? && n.index < cfg.resourceCount) then Healthy
        else g.nodes[n])
  {
    var g2 := AddTools(g, cfg, ids, cfg.toolCount);
    ToolsFacts(g, cfg, ids, cfg.toolCount, n, e);
    ResourcesFacts(g2, cfg.resourceCount, n);
    CredentialsFacts(AddResources(g2, cfg.resourceCount), cfg, ids, bad, cfg.credentialCount, n, e);
  }

  lemma PlaneFacts(g: Graph, cfg: Config, ids: seq<AgentId>, bad: set<NodeId>, n: NodeId, e: Edge)
    requires |ids| > 0 && cfg.sentinelCount > 0
    ensures e in AddSecurityPlane(g, cfg, ids, bad).edges <==>
      (e in g.edges ||
       (e.kind == QuarantineAuthorityOver && e.source == ControlNode(QuarantineAuthority) && e.target.AgentNode? && e.target.agent in ids) ||
       (e.kind == UpdatesThreatMemory &&
        ((e.source.SentinelNode? && e.source.index < cfg.sentinelCount && e.target == ControlNode(ThreatMemory)) ||
         (e.target.SentinelNode? && e.target.index < cfg.sentinelCount && e.source == ControlNode(ThreatMemory)))) ||
       (exists i :: 0 <= i < |ids| && e == Edge(SentinelNode(i % cfg.sentinelCount), AgentNode(ids[i]), Monitors)))
    ensures n in AddSecurityPlane(g, cfg, ids, bad).nodes <==>
      (n in g.nodes || n.ControlNode? || (n.SentinelNode? && n.index < cfg.sentinelCount))
    ensures n in AddSecurityPlane(g, cfg, ids, bad).nodes ==>
      AddSecurityPlane(g, cfg, ids, bad).nodes[n] ==
        (if n.ControlNode? || (n.SentinelNode? && n.index < cfg.sentinelCount) then StateFor(n, bad) else g.nodes[n])
  {
    var g1 := AddControls(g, bad, 4);
    ControlsFacts(g, bad, 4, n);
    if n.ControlNode? { AllControls(n.kind); }
    var g2 := AddAuthority(g1, ids);
    AuthorityFacts(g1, ids, e);
    var g3 := AddSentinels(g2, bad, cfg.sentinelCount);
    SentinelsFacts(g2, bad, cfg.sentinelCount, n, e);
    MonitorsFacts(g3, cfg.sentinelCount, ids, e);
  }

  const ASSET_KINDS: set<EdgeType> := {CommunicatesWith, Trusts, CanAccess, UsesCredential}

  lemma LinksEdges(w: World, e: Edge)
    ensures e in Links(w).edges <==> e.kind in {CommunicatesWith, Trusts} && Linked(w, e.source, e.target)
  {
    AgentsFacts(Graph(map[], {}), w, AgentIds(w), e.source);
    LinkFacts(w.edges, e);
  }

  lemma AssetEdges(w: World, cfg: Config, e: Edge)
    ensures e in AddAssets(Links(w), cfg, AgentIds(w), w.compromisedGraph).edges <==>
      e.kind in ASSET_KINDS && IsEdge(w, cfg, e)
  {
    hide Links, Sorted;
    var ids := AgentIds(w);
    LinksEdges(w, e);
    if |ids| == 0 {
      assert w.nodes.Keys == {};
    } else {
      AssetsFacts(Links(w), cfg, ids, w.compromisedGraph, e.source, e);
    }
  }

  lemma PlaneEdges(w: World, cfg: Config, g: Graph, e: Edge)
    requires e in g.edges <==> e.kind in ASSET_KINDS && IsEdge(w, cfg, e)
    ensures e in AddSecurityPlane(g, cfg, AgentIds(w), w.compromisedGraph).edges <==> IsEdge(w, cfg, e)
  {
    if |AgentIds(w)| > 0 && cfg.sentinelCount > 0 {
      PlaneFacts(g, cfg, AgentIds(w), w.compromisedGraph, e.source, e);
      MonitorUnique(w, cfg, e);
    }
  }

  /** The edges of the graph, every kind at once. */
  lemma BuildEdges(w: World, cfg: Config, e: Edge)
    ensures e in Build(w, cfg).edges <==> IsEdge(w, cfg, e)
  {
    AssetEdges(w, cfg, e);
    PlaneEdges(w, cfg, AddAssets(Links(w), cfg, AgentIds(w), w.compromisedGraph), e);
  }

  predicate IsNode(w: World, cfg: Config, n: NodeId) {
    match n
    case AgentNode(a) => a in w.nodes
    case ToolNode(i) => w.nodes.Keys != {} && i < cfg.toolCount
    case CredentialNode(i) => w.nodes.Keys != {} && i < cfg.credentialCount
    case ResourceNode(i) => w.nodes.Keys != {} && i < cfg.resourceCount
    case SentinelNode(i) => w.nodes.Keys != {} && i < cfg.sentinelCount
    case ControlNode(_) => w.nodes.Keys != {} && cfg.sentinelCount > 0
  }

  function NodeState(w: World, n: NodeId): SecurityState {
    match n
    case AgentNode(a) => if a in w.nodes then w.nodes[a].state else Healthy
    case ToolNode(_) => Healthy
    case ResourceNode(_) => Healthy
    case _ => StateFor(n, w.compromisedGraph)
  }

  /** The nodes of the graph with their security states. */
  lemma BuildNodes(w: World, cfg: Config, n: NodeId)
    ensures n in Build(w, cfg).nodes <==> IsNode(w, cfg, n)
    ensures n in Build(w, cfg).nodes ==> Build(w, cfg).nodes[n] == NodeState(w, n)
  {
    var ids := AgentIds(w);
    var any := Edge(n, n, DelegatesTo);
    AgentsFacts(Graph(map[], {}), w, ids, n);
    if |ids| > 0 {
      AssetsFacts(Links(w), cfg, ids, w.compromisedGraph, n, any);
      if cfg.sentinelCount > 0 {
        PlaneFacts(AddAssets(Links(w), cfg, ids, w.compromisedGraph), cfg, ids, w.compromisedGraph, n, any);
      }
    }
  }

  /** The builder, with what its callers read from the result. */
  method ReadGraph(w: World, cfg: Config) returns (g: SecurityGraph)
    ensures fresh(g)
    ensures forall e :: e in g.edges <==> IsEdge(w, cfg, e)
    ensures forall n :: n in g.nodes <==> IsNode(w, cfg, n)
    ensures forall n | n in g.nodes :: g.nodes[n] == NodeState(w, n)
  {
    g := BuildSecurityGraph(w, cfg);
    assert g.Model().edges == g.edges && g.Model().nodes == g.nodes;
    forall e ensures e in g.edges <==> IsEdge(w, cfg, e) { BuildEdges(w, cfg, e); }
    forall n ensures n in g.nodes <==> IsNode(w, cfg, n) { BuildNodes(w, cfg, n); }
    forall n | n in g.nodes ensures g.nodes[n] == NodeState(w, n) { BuildNodes(w, cfg, n); }
  }
}
