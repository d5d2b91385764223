/** What lies in the blast radius, kind by kind, said on the world and the configuration alone.
    graph/security_graph.py:22-29, graph/builder.py and graph/analysis.py:42-50. */
module Exposure {
  import opened Ordering
  import opened World
  import opened SecurityGraphs
  import opened GraphFacts
  import opened BlastRadius
  import Watching

  /** A chain of links, in either direction, from a compromised agent to a. */
  ghost predicate LinkChain(w: World, p: seq<AgentId>, a: AgentId) {
    && |p| > 0 && p[0] in w.nodes && w.nodes[p[0]].state == Compromised && p[|p| - 1] == a
    && forall i, j | 0 <= i < j < |p| && j == i + 1 :: (p[i], p[j]) in w.edges || (p[j], p[i]) in w.edges
  }

  /** Compromise can spread to a along links. */
  ghost predicate AgentExposed(w: World, a: AgentId) { exists p :: LinkChain(w, p, a) }

  /** Fallen itself, or held by an exposed agent. */
  ghost predicate CredentialExposed(w: World, cfg: Config, c: nat) {
    && w.nodes.Keys != {} && c < cfg.credentialCount
    && (CredentialNode(c) in w.compromisedGraph
        || exists a :: a in w.nodes && Watching.Before(w, a) == cfg.pick(CredentialHolder(c)) % |w.nodes| && AgentExposed(w, a))
  }

  ghost predicate Exposed(w: World, cfg: Config, x: NodeId) {
    match x
    case AgentNode(a) => AgentExposed(w, a)
    case ToolNode(i) => i < cfg.toolCount && exists a :: a in w.nodes && a in cfg.toolAccess(i) && AgentExposed(w, a)
    case CredentialNode(c) => CredentialExposed(w, cfg, c)
    case ResourceNode(r) => cfg.resourceCount > 0 && exists c: nat :: c % cfg.resourceCount == r && CredentialExposed(w, cfg, c)
    case SentinelNode(i) => w.nodes.Keys != {} && i < cfg.sentinelCount && x in w.compromisedGraph
    case ControlNode(_) => w.nodes.Keys != {} && cfg.sentinelCount > 0 && x in w.compromisedGraph
  }

  /** The nodes of a world's graph and the state of each: an agent's own; compromised exactly if it has
      fallen, for a credential, sentinel or control; healthy, for tools and resources. */
  lemma NodesAre(w: World, cfg: Config, x: NodeId)
    ensures x in Build(w, cfg).nodes <==>
      match x
      case AgentNode(a) => a in w.nodes
      case ToolNode(i) => w.nodes.Keys != {} && i < cfg.toolCount
      case CredentialNode(i) => w.nodes.Keys != {} && i < cfg.credentialCount
      case ResourceNode(i) => w.nodes.Keys != {} && i < cfg.resourceCount
      case SentinelNode(i) => w.nodes.Keys != {} && i < cfg.sentinelCount
      case ControlNode(_) => w.nodes.Keys != {} && cfg.sentinelCount > 0
    ensures x in Build(w, cfg).nodes ==>
      Build(w, cfg).nodes[x] ==
        if x.AgentNode? && x.agent in w.nodes then w.nodes[x.agent].state
        else if (x.CredentialNode? || x.SentinelNode? || x.ControlNode?) && x in w.compromisedGraph then Compromised else Healthy
  {
    hide Build;
    BuildNodes(w, cfg, x);
  }

  /** Its edges, type by type: two of each link; tools to those who may access them; credentials from
      their holder and on to their resource; each agent's sentinel; the quarantine authority's over
      every agent; every sentinel's with the threat memory. */
  lemma EdgesAre(w: World, cfg: Config, x: NodeId, y: NodeId, kind: EdgeType)
    ensures Edge(x, y, kind) in Build(w, cfg).edges <==>
      match kind
      case CommunicatesWith => x.AgentNode? && y.AgentNode? && ((x.agent, y.agent) in w.edges || (y.agent, x.agent) in w.edges)
      case Trusts => x.AgentNode? && y.AgentNode? && ((x.agent, y.agent) in w.edges || (y.agent, x.agent) in w.edges)
      case DelegatesTo => false
      case CanAccess =>
        || (x.AgentNode? && x.agent in w.nodes && y.ToolNode? && y.index < cfg.toolCount && x.agent in cfg.toolAccess(y.index))
        || (w.nodes.Keys != {} && x.CredentialNode? && x.index < cfg.credentialCount && cfg.resourceCount > 0 && y == ResourceNode(x.index % cfg.resourceCount))
      case UsesCredential =>
        && w.nodes.Keys != {} && y.CredentialNode? && y.index < cfg.credentialCount
        && x.AgentNode? && x.agent in w.nodes && Watching.Before(w, x.agent) == cfg.pick(CredentialHolder(y.index)) % |w.nodes|
      case Monitors =>
        && cfg.sentinelCount > 0 && y.AgentNode? && y.agent in w.nodes
        && x == SentinelNode(Watching.Before(w, y.agent) % cfg.sentinelCount)
      case QuarantineAuthorityOver => cfg.sentinelCount > 0 && y.AgentNode? && y.agent in w.nodes && x == ControlNode(QuarantineAuthority)
      case UpdatesThreatMemory =>
        && cfg.sentinelCount > 0 && w.nodes.Keys != {}
        && ((x.SentinelNode? && x.index < cfg.sentinelCount && y == ControlNode(ThreatMemory))
            || (y.SentinelNode? && y.index < cfg.sentinelCount && x == ControlNode(ThreatMemory)))
  {
    hide Build, Watching.Before, Monitor, Sorted;
    BuildEdges(w, cfg, Edge(x, y, kind));
    if y.CredentialNode? { HeldBy(w, cfg, x, y.index); }
    if cfg.sentinelCount > 0 && y.AgentNode? && y.agent in w.nodes { Watching.MonitorIs(w, cfg, y.agent); }
    if kind == UsesCredential && w.nodes.Keys != {} && y.CredentialNode? && y.index < cfg.credentialCount {
      assert IsUse(w, cfg, Edge(x, y, UsesCredential)) <==> IsEdge(w, cfg, Edge(x, y, UsesCredential));
    }
  }

  // --- one step back along a path ----------------------------------------------------------------------------

  lemma ReachedLast(g: Graph, y: NodeId)
    ensures InBlast(g, y) <==> y in CompromisedIds(g) || exists x :: InBlast(g, x) && Leads(g, x, y)
  {
    hide Leads, CompromisedIds;
    if InBlast(g, y) {
      var x :| x in CompromisedIds(g) && Reaches(g, x, y);
      var p :| PathTo(g, p, x, y);
      if |p| > 1 { ReachedBefore(g, p, x, y); }
    }
    if y in CompromisedIds(g) { ReachesSelf(g, y); }
    if x :| InBlast(g, x) && Leads(g, x, y) {
      var z :| z in CompromisedIds(g) && Reaches(g, z, x);
      ReachesNext(g, z, x, y);
    }
  }

  lemma ReachedBefore(g: Graph, p: seq<NodeId>, x: NodeId, y: NodeId)
    requires x in CompromisedIds(g) && PathTo(g, p, x, y) && |p| > 1
    ensures InBlast(g, p[|p| - 2]) && Leads(g, p[|p| - 2], y)
  {
    hide Leads, CompromisedIds;
    var q := p[..|p| - 1];
    assert PathTo(g, q, x, p[|p| - 2]);
  }

  // --- what leads into each kind -----------------------------------------------------------------------------

  lemma CompromisedKinds(w: World, cfg: Config, x: NodeId)
    ensures x in CompromisedIds(Build(w, cfg)) <==>
      match x
      case AgentNode(a) => a in w.nodes && w.nodes[a].state == Compromised
      case ToolNode(_) => false
      case ResourceNode(_) => false
      case CredentialNode(c) => w.nodes.Keys != {} && c < cfg.credentialCount && x in w.compromisedGraph
      case SentinelNode(i) => w.nodes.Keys != {} && i < cfg.sentinelCount && x in w.compromisedGraph
      case ControlNode(_) => w.nodes.Keys != {} && cfg.sentinelCount > 0 && x in w.compromisedGraph
  {
    hide Build;
    BuildNodes(w, cfg, x);
  }

  lemma LeadsIs(w: World, cfg: Config, x: NodeId, y: NodeId)
    ensures Leads(Build(w, cfg), x, y) <==>
      || Linked(w, x, y)
      || IsToolAccess(w, cfg, Edge(x, y, CanAccess)) || IsCredentialAccess(w, cfg, Edge(x, y, CanAccess)) || IsUse(w, cfg, Edge(x, y, UsesCredential))
  {
    hide Build, Linked, IsToolAccess, IsCredentialAccess, IsUse;
    forall kind ensures Edge(x, y, kind) in Build(w, cfg).edges <==> IsEdge(w, cfg, Edge(x, y, kind)) { BuildEdges(w, cfg, Edge(x, y, kind)); }
    if Linked(w, x, y) { assert Edge(x, y, CommunicatesWith) in Build(w, cfg).edges; }
    if IsToolAccess(w, cfg, Edge(x, y, CanAccess)) { assert Edge(x, y, CanAccess) in Build(w, cfg).edges; }
    if IsCredentialAccess(w, cfg, Edge(x, y, CanAccess)) { assert Edge(x, y, CanAccess) in Build(w, cfg).edges; }
    if IsUse(w, cfg, Edge(x, y, UsesCredential)) { assert Edge(x, y, UsesCredential) in Build(w, cfg).edges; }
  }

  lemma HeldBy(w: World, cfg: Config, x: NodeId, c: nat)
    ensures IsUse(w, cfg, Edge(x, CredentialNode(c), UsesCredential)) <==>
      && w.nodes.Keys != {} && c < cfg.credentialCount
      && exists a :: a in w.nodes && x == AgentNode(a) && Watching.Before(w, a) == cfg.pick(CredentialHolder(c)) % |w.nodes|
  {
    hide Sorted, Watching.Before;
    if w.nodes.Keys != {} && c < cfg.credentialCount {
      var ids := AgentIds(w);
      assert |ids| == |w.nodes.Keys| == |w.nodes|;
      var place := cfg.pick(CredentialHolder(c)) % |ids|;
      var holder := Holder(cfg, ids, c);
      PositionUnique(ids, place);
      Watching.PositionIsRank(w, holder);
      assert holder in w.nodes && Watching.Before(w, holder) == place;
      forall a | a in w.nodes && Watching.Before(w, a) == place ensures a == holder { Watching.PositionIsRank(w, a); }
    }
  }

  // --- agents -------------------------------------------------------------------------------------------------

  lemma IntoAgent(w: World, cfg: Config, x: NodeId, a: AgentId)
    ensures Leads(Build(w, cfg), x, AgentNode(a)) <==>
      x.AgentNode? && ((x.agent, a) in w.edges || (a, x.agent) in w.edges)
  {
    hide Build;
    LeadsIs(w, cfg, x, AgentNode(a));
  }

  /** Only agents lead into agents, and only along links. */
  lemma {:induction false} PathIsChain(w: World, cfg: Config, p: seq<NodeId>, a: AgentId)
    requires Path(Build(w, cfg), p) && p[0] in CompromisedIds(Build(w, cfg)) && p[|p| - 1] == AgentNode(a)
    ensures AgentExposed(w, a)
    decreases |p|
  {
    hide Build, Leads;
    var n := |p| - 1;
    if n == 0 {
      CompromisedKinds(w, cfg, AgentNode(a));
      assert LinkChain(w, [a], a);
    } else {
      assert Leads(Build(w, cfg), p[n - 1], p[n]);
      IntoAgent(w, cfg, p[n - 1], a);
      var b := p[n - 1].agent;
      PathIsChain(w, cfg, p[..n], b);
      var q :| LinkChain(w, q, b);
      assert LinkChain(w, q + [a], a);
    }
  }

  lemma {:induction false} ChainIsBlast(w: World, cfg: Config, p: seq<AgentId>, a: AgentId)
    requires LinkChain(w, p, a)
    ensures InBlast(Build(w, cfg), AgentNode(a))
    decreases |p|
  {
    hide Build, Leads, InBlast;
    ReachedLast(Build(w, cfg), AgentNode(a));
    if |p| == 1 {
      CompromisedKinds(w, cfg, AgentNode(a));
    } else {
      var b := p[|p| - 2];
      assert LinkChain(w, p[..|p| - 1], b);
      ChainIsBlast(w, cfg, p[..|p| - 1], b);
      IntoAgent(w, cfg, AgentNode(b), a);
    }
  }

  lemma AgentsExactly(w: World, cfg: Config, a: AgentId)
    ensures InBlast(Build(w, cfg), AgentNode(a)) <==> AgentExposed(w, a)
  {
    hide Build, Leads, LinkChain;
    if InBlast(Build(w, cfg), AgentNode(a)) {
      var x :| x in CompromisedIds(Build(w, cfg)) && Reaches(Build(w, cfg), x, AgentNode(a));
      var p :| PathTo(Build(w, cfg), p, x, AgentNode(a));
      PathIsChain(w, cfg, p, a);
    }
    if AgentExposed(w, a) {
      var p :| LinkChain(w, p, a);
      ChainIsBlast(w, cfg, p, a);
    }
  }

  // --- assets ----------------------------------------------------------------------------------------------------

  lemma ToolsExactly(w: World, cfg: Config, i: nat)
    ensures InBlast(Build(w, cfg), ToolNode(i)) <==> Exposed(w, cfg, ToolNode(i))
  {
    hide Build, Leads, InBlast, AgentExposed;
    ReachedLast(Build(w, cfg), ToolNode(i));
    CompromisedKinds(w, cfg, ToolNode(i));
    forall x ensures Leads(Build(w, cfg), x, ToolNode(i)) <==>
      x.AgentNode? && x.agent in w.nodes && i < cfg.toolCount && x.agent in cfg.toolAccess(i)
    {
      LeadsIs(w, cfg, x, ToolNode(i));
    }
    forall a ensures InBlast(Build(w, cfg), AgentNode(a)) <==> AgentExposed(w, a) { AgentsExactly(w, cfg, a); }
    if a :| a in w.nodes && a in cfg.toolAccess(i) && AgentExposed(w, a) && i < cfg.toolCount {
      assert Leads(Build(w, cfg), AgentNode(a), ToolNode(i));
    }
  }

  lemma CredentialsExactly(w: World, cfg: Config, c: nat)
    ensures InBlast(Build(w, cfg), CredentialNode(c)) <==> CredentialExposed(w, cfg, c)
  {
    hide Build, Leads, InBlast, AgentExposed, Watching.Before;
    ReachedLast(Build(w, cfg), CredentialNode(c));
    CompromisedKinds(w, cfg, CredentialNode(c));
    forall x ensures Leads(Build(w, cfg), x, CredentialNode(c)) <==>
      && w.nodes.Keys != {} && c < cfg.credentialCount
      && exists a :: a in w.nodes && x == AgentNode(a) && Watching.Before(w, a) == cfg.pick(CredentialHolder(c)) % |w.nodes|
    {
      LeadsIs(w, cfg, x, CredentialNode(c));
      HeldBy(w, cfg, x, c);
    }
    forall a ensures InBlast(Build(w, cfg), AgentNode(a)) <==> AgentExposed(w, a) { AgentsExactly(w, cfg, a); }
    if w.nodes.Keys != {} && c < cfg.credentialCount {
      if a :| a in w.nodes && Watching.Before(w, a) == cfg.pick(CredentialHolder(c)) % |w.nodes| && AgentExposed(w, a) {
        assert Leads(Build(w, cfg), AgentNode(a), CredentialNode(c));
      }
    }
  }

  lemma ResourcesExactly(w: World, cfg: Config, r: nat)
    ensures InBlast(Build(w, cfg), ResourceNode(r)) <==> Exposed(w, cfg, ResourceNode(r))
  {
    hide Build, Leads, InBlast, CredentialExposed;
    ReachedLast(Build(w, cfg), ResourceNode(r));
    CompromisedKinds(w, cfg, ResourceNode(r));
    forall x ensures Leads(Build(w, cfg), x, ResourceNode(r)) <==>
      x.CredentialNode? && w.nodes.Keys != {} && x.index < cfg.credentialCount && cfg.resourceCount > 0 && r == x.index % cfg.resourceCount
    {
      LeadsIs(w, cfg, x, ResourceNode(r));
    }
    forall c: nat ensures InBlast(Build(w, cfg), CredentialNode(c)) <==> CredentialExposed(w, cfg, c) { CredentialsExactly(w, cfg, c); }
    forall c: nat ensures CredentialExposed(w, cfg, c) ==> w.nodes.Keys != {} && c < cfg.credentialCount { CredentialIsNode(w, cfg, c); }
    if cfg.resourceCount > 0 {
      if c: nat :| c % cfg.resourceCount == r && CredentialExposed(w, cfg, c) {
        assert InBlast(Build(w, cfg), CredentialNode(c)) && Leads(Build(w, cfg), CredentialNode(c), ResourceNode(r));
      }
    }
  }

  lemma CredentialIsNode(w: World, cfg: Config, c: nat)
    ensures CredentialExposed(w, cfg, c) ==> w.nodes.Keys != {} && c < cfg.credentialCount
  {
  }

  lemma PlaneExactly(w: World, cfg: Config, x: NodeId)
    requires x.SentinelNode? || x.ControlNode?
    ensures InBlast(Build(w, cfg), x) <==> Exposed(w, cfg, x)
  {
    hide Build, Leads, InBlast;
    ReachedLast(Build(w, cfg), x);
    CompromisedKinds(w, cfg, x);
    forall y ensures !Leads(Build(w, cfg), y, x) { LeadsIs(w, cfg, y, x); }
  }

  /** The blast radius of a world's graph: the agents links lead to from a compromised one, the tools
      they may access, the credentials they hold or that have fallen, the resources those open, and
      of sentinels and controls the fallen ones alone. */
  lemma BlastIs(w: World, cfg: Config, x: NodeId)
    ensures InBlast(Build(w, cfg), x) <==> Exposed(w, cfg, x)
  {
    hide Build, InBlast, AgentExposed, CredentialExposed;
    match x
    case AgentNode(a) => AgentsExactly(w, cfg, a);
    case ToolNode(i) => ToolsExactly(w, cfg, i);
    case CredentialNode(c) => CredentialsExactly(w, cfg, c);
    case ResourceNode(r) => ResourcesExactly(w, cfg, r);
    case _ => PlaneExactly(w, cfg, x);
  }

  /** What the program computes on a world. */
  method BlastRadiusIn(w: World, cfg: Config) returns (reachable: set<NodeId>)
    ensures forall x :: x in reachable <==> Exposed(w, cfg, x)
  {
    var g := BuildSecurityGraph(w, cfg);
    reachable := BlastRadiusOf(g);
    forall x ensures x in reachable <==> Exposed(w, cfg, x) { BlastIs(w, cfg, x); }
  }
}
