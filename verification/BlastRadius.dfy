/** graph/analysis.py:42-50: the blast radius, and what it promises about later states. */
module BlastRadius {
  import opened Ordering
  import opened World
  import opened Runs
  import opened Engine
  import opened Effects
  import opened SecurityGraphs
  import opened GraphFacts
  import opened Simulation
  import Experiment
  import Topology

  /** Some propagation-capable edge leads from x to y. */
  ghost predicate Leads(g: Graph, x: NodeId, y: NodeId) {
    exists kind :: kind in PROPAGATION_EDGE_TYPES && Edge(x, y, kind) in g.edges
  }

  ghost predicate Path(g: Graph, p: seq<NodeId>) {
    |p| > 0 && forall i, j | 0 <= i < j < |p| && j == i + 1 :: Leads(g, p[i], p[j])
  }

  ghost predicate PathTo(g: Graph, p: seq<NodeId>, x: NodeId, y: NodeId) {
    Path(g, p) && p[0] == x && p[|p| - 1] == y
  }

  ghost predicate Reaches(g: Graph, x: NodeId, y: NodeId) {
    exists p :: PathTo(g, p, x, y)
  }

  /** y can be reached from some compromised node, zero steps included. */
  ghost predicate ReachedFrom(g: Graph, starts: set<NodeId>, y: NodeId) {
    exists x :: x in starts && Reaches(g, x, y)
  }

  ghost predicate InBlast(g: Graph, y: NodeId) {
    ReachedFrom(g, CompromisedIds(g), y)
  }

  lemma ReachesNext(g: Graph, x: NodeId, y: NodeId, z: NodeId)
    requires Reaches(g, x, y) && Leads(g, y, z)
    ensures Reaches(g, x, z)
  {
    var p :| PathTo(g, p, x, y);
    assert PathTo(g, p + [z], x, z);
  }

  lemma ReachesSelf(g: Graph, x: NodeId)
    ensures Reaches(g, x, x)
  {
    assert PathTo(g, [x], x, x);
  }

  // --- the program's computation ----------------------------------------------------------------

  /** `subgraph_view`: the successor relation of the propagation-capable edges. */
  method SubgraphView(g: SecurityGraph) returns (view: set<(NodeId, NodeId)>)
    ensures forall x, y :: (x, y) in view <==> Leads(g.Model(), x, y)
  {
    view := {};
    var todo := g.edges;
    while todo != {}
      invariant todo <= g.edges
      invariant forall x, y :: (x, y) in view <==>
        exists kind :: kind in PROPAGATION_EDGE_TYPES && Edge(x, y, kind) in g.edges - todo
    {
      var e :| e in todo;
      ghost var was := view;
      if e.kind in PROPAGATION_EDGE_TYPES { view := view + {(e.source, e.target)}; }
      ghost var seen := g.edges - todo;
      todo := todo - {e};
      assert g.edges - todo == seen + {e};
      forall x, y ensures (x, y) in view <==> exists kind :: kind in PROPAGATION_EDGE_TYPES && Edge(x, y, kind) in g.edges - todo {
        ViewGrows(seen, e, x, y);
      }
    }
    assert g.edges - todo == g.edges;
  }

  lemma ViewGrows(seen: set<Edge>, e: Edge, x: NodeId, y: NodeId)
    ensures (exists kind :: kind in PROPAGATION_EDGE_TYPES && Edge(x, y, kind) in seen + {e}) <==>
      ((exists kind :: kind in PROPAGATION_EDGE_TYPES && Edge(x, y, kind) in seen) ||
       (e.kind in PROPAGATION_EDGE_TYPES && e.source == x && e.target == y))
  {
    if e.kind in PROPAGATION_EDGE_TYPES && e.source == x && e.target == y {
      assert Edge(x, y, e.kind) == e;
    }
  }

  /** Closed under the view and containing x: everything reachable from x lies in s. */
  lemma {:induction false} ClosedCovers(g: Graph, s: set<NodeId>, p: seq<NodeId>)
    requires Path(g, p) && p[0] in s
    requires forall x, y | x in s && Leads(g, x, y) :: y in s
    ensures p[|p| - 1] in s
    decreases |p|
  {
    if |p| > 1 {
      assert Leads(g, p[0], p[1]);
      forall i, j | 0 <= i < j < |p[1..]| && j == i + 1 ensures Leads(g, p[1..][i], p[1..][j]) {
        assert Leads(g, p[i + 1], p[j + 1]);
      }
      ClosedCovers(g, s, p[1..]);
    }
  }

  /** `nx.descendants`, with its start: a worklist over the view. */
  method Descendants(ghost g: Graph, view: set<(NodeId, NodeId)>, start: NodeId) returns (s: set<NodeId>)
    requires forall x, y :: (x, y) in view <==> Leads(g, x, y)
    ensures forall y :: y in s <==> Reaches(g, start, y)
  {
    hide Leads;
    s := {start};
    var frontier := {start};
    var targets := set e | e in view :: e.1;
    ReachesSelf(g, start);
    while frontier != {}
      invariant frontier <= s <= targets + {start} && start in s
      invariant forall y | y in s :: Reaches(g, start, y)
      invariant forall x, y | x in s && x !in frontier && Leads(g, x, y) :: y in s
      decreases |targets + {start} - s|, |frontier|
    {
      var x :| x in frontier;
      var next := (set e | e in view && e.0 == x :: e.1) - s;
      forall y | y in next ensures Reaches(g, start, y) && y in targets {
        assert (x, y) in view;
        ReachesNext(g, start, x, y);
      }
      forall y | Leads(g, x, y) ensures y in s + next { assert (x, y) in view; }
      if next != {} {
        var y :| y in next;
        assert targets + {start} - (s + next) < targets + {start} - s;
        Shrinks(targets + {start} - (s + next), targets + {start} - s);
      }
      frontier, s := (frontier - {x}) + next, s + next;
    }
    forall y | Reaches(g, start, y) ensures y in s {
      var p :| PathTo(g, p, start, y);
      ClosedCovers(g, s, p);
    }
  }

  lemma Shrinks<T>(a: set<T>, b: set<T>)
    requires a < b
    ensures |a| < |b|
  {
    var x :| x in b && x !in a;
    assert a <= b - {x};
    SubsetSize(a, b - {x});
  }

  lemma ReachedMore(g: Graph, starts: set<NodeId>, x: NodeId, found: set<NodeId>)
    requires forall y :: y in found <==> Reaches(g, x, y)
    ensures forall y :: ReachedFrom(g, starts + {x}, y) <==> ReachedFrom(g, starts, y) || y in found
  {
    hide Reaches;
  }

  /** Exactly the nodes some compromised node reaches. */
  method BlastRadiusOf(g: SecurityGraph) returns (reachable: set<NodeId>)
    ensures forall y :: y in reachable <==> InBlast(g.Model(), y)
  {
    hide Reaches, Leads, CompromisedIds;
    var view := SubgraphView(g);
    var compromised := CompromisedIds(g.Model());
    reachable := compromised;
    var todo := compromised;
    forall x | x in compromised ensures InBlast(g.Model(), x) { ReachesSelf(g.Model(), x); }
    assert compromised - todo == {};
    while todo != {}
      invariant todo <= compromised
      invariant forall y :: y in reachable <==> y in compromised || ReachedFrom(g.Model(), compromised - todo, y)
    {
      var x :| x in todo;
      var found := Descendants(g.Model(), view, x);
      ReachedMore(g.Model(), compromised - todo, x, found);
      assert compromised - (todo - {x}) == compromised - todo + {x};
      reachable := reachable + found;
      todo := todo - {x};
    }
    assert compromised - todo == compromised;
  }

  // --- soundness and monotonicity -------------------------------------------------------------

  /** Only links lead into agents. */
  lemma IntoAgents(w: World, cfg: Config, x: NodeId, a: AgentId)
    ensures Leads(Build(w, cfg), x, AgentNode(a)) <==> Linked(w, x, AgentNode(a))
  {
    hide Build;
    if Leads(Build(w, cfg), x, AgentNode(a)) {
      var kind :| kind in PROPAGATION_EDGE_TYPES && Edge(x, AgentNode(a), kind) in Build(w, cfg).edges;
      BuildEdges(w, cfg, Edge(x, AgentNode(a), kind));
    }
    if Linked(w, x, AgentNode(a)) {
      BuildEdges(w, cfg, Edge(x, AgentNode(a), CommunicatesWith));
      assert CommunicatesWith in PROPAGATION_EDGE_TYPES;
    }
  }

  ghost predicate AtRisk(w: World, cfg: Config, a: AgentId) {
    InBlast(Build(w, cfg), AgentNode(a))
  }

  lemma CompromisedAtRisk(w: World, cfg: Config, a: AgentId)
    requires a in CompromisedAgents(w)
    ensures AtRisk(w, cfg, a)
  {
    hide Build, Reaches;
    BuildNodes(w, cfg, AgentNode(a));
    ReachesSelf(Build(w, cfg), AgentNode(a));
  }

  lemma NeighborAtRisk(w: World, cfg: Config, s: AgentId, a: AgentId)
    requires AtRisk(w, cfg, s) && ((s, a) in w.edges || (a, s) in w.edges)
    ensures AtRisk(w, cfg, a)
  {
    hide Build, Reaches, Leads;
    IntoAgents(w, cfg, AgentNode(s), a);
    var x :| x in CompromisedIds(Build(w, cfg)) && Reaches(Build(w, cfg), x, AgentNode(s));
    ReachesNext(Build(w, cfg), x, AgentNode(s), AgentNode(a));
  }

  /** v is a state of w's links in which only agents at risk in w are compromised. */
  ghost predicate Contained(w: World, cfg: Config, v: World) {
    SameFrame(w, v) && forall a | a in CompromisedAgents(v) :: AtRisk(w, cfg, a)
  }

  lemma ContainedStep(w: World, cfg: Config, v: World, u: World)
    requires WellFormed(w) && Contained(w, cfg, v) && Evolves(v, cfg, u)
    ensures Contained(w, cfg, u)
  {
    hide AtRisk;
    FrameStep(w, v, cfg, u);
    forall a | a in CompromisedAgents(u) ensures AtRisk(w, cfg, a) {
      if a !in CompromisedAgents(v) {
        assert Infected(v, v.nodes[a], u.nodes[a], a);
        var s := u.nodes[a].compromisedBy.value;
        assert s in CompromisedAgents(v) && a in v.nodes[s].neighbors;
        assert w.nodes[s].neighbors == v.nodes[s].neighbors;
        NeighborAtRisk(w, cfg, s, a);
      }
    }
  }

  lemma ContainedForever(w: World, cfg: Config, ms: seq<MicroStep>)
    requires WellFormed(w)
    ensures Contained(w, cfg, Micros(w, cfg, ms).world)
  {
    hide AtRisk;
    var step := (v: World, m: MicroStep) => Micro(v, cfg, m);
    var inv := (r: StepResult) => Contained(w, cfg, r.world);
    forall a | a in CompromisedAgents(w) ensures AtRisk(w, cfg, a) { CompromisedAtRisk(w, cfg, a); }
    forall r: StepResult, m: MicroStep | inv(r) ensures inv(Concat(r, step(r.world, m))) {
      MicroEvolves(r.world, cfg, m);
      ContainedStep(w, cfg, r.world, Micro(r.world, cfg, m).world);
    }
    TraceInduction(step, m => true, inv, w, ms);
  }

  /** Every agent compromised in any later state lies in today's blast radius: for every
      sequence of later scenario, detection and model steps. */
  lemma BlastRadiusSound(w: World, cfg: Config, ms: seq<MicroStep>, a: AgentId)
    requires WellFormed(w) && a in CompromisedAgents(Micros(w, cfg, ms).world)
    ensures InBlast(Build(w, cfg), AgentNode(a))
  {
    ContainedForever(w, cfg, ms);
  }

  /** Along a path of v's graph, whatever node it starts from, every agent was at risk in w. */
  lemma {:induction false} PathAtRisk(w: World, cfg: Config, v: World, p: seq<NodeId>, i: nat)
    requires Contained(w, cfg, v) && Path(Build(v, cfg), p) && p[0] in CompromisedIds(Build(v, cfg))
    requires i < |p| && p[i].AgentNode?
    ensures AtRisk(w, cfg, p[i].agent)
  {
    hide Build, AtRisk, Leads;
    if i == 0 {
      BuildNodes(v, cfg, p[0]);
    } else {
      assert Leads(Build(v, cfg), p[i - 1], p[i]);
      IntoAgents(v, cfg, p[i - 1], p[i].agent);
      PathAtRisk(w, cfg, v, p, i - 1);
      NeighborAtRisk(w, cfg, p[i - 1].agent, p[i].agent);
    }
  }

  /** The agents inside the blast radius never grow along a run, not even when colluders add
      compromised credentials or sentinels to the graph. */
  lemma BlastRadiusShrinks(w: World, cfg: Config, ms: seq<MicroStep>, a: AgentId)
    requires WellFormed(w) && InBlast(Build(Micros(w, cfg, ms).world, cfg), AgentNode(a))
    ensures InBlast(Build(w, cfg), AgentNode(a))
  {
    hide Build, Micros;
    var v := Micros(w, cfg, ms).world;
    ContainedForever(w, cfg, ms);
    var x :| x in CompromisedIds(Build(v, cfg)) && Reaches(Build(v, cfg), x, AgentNode(a));
    var p :| PathTo(Build(v, cfg), p, x, AgentNode(a));
    PathAtRisk(w, cfg, v, p, |p| - 1);
  }

  ghost function AgentsAtRisk(w: World, cfg: Config): set<AgentId> {
    set a | a in w.nodes && AtRisk(w, cfg, a)
  }

  /** So the numerator of `blast_radius_fraction` never grows either. */
  lemma BlastFractionNeverGrows(w: World, cfg: Config, ms: seq<MicroStep>)
    requires WellFormed(w)
    ensures var v := Micros(w, cfg, ms).world;
      |AgentsAtRisk(v, cfg)| <= |AgentsAtRisk(w, cfg)| && v.nodes.Keys == w.nodes.Keys
  {
    hide AtRisk, Micros;
    var v := Micros(w, cfg, ms).world;
    FrameKept(w, cfg, ms);
    forall a | a in AgentsAtRisk(v, cfg) ensures a in AgentsAtRisk(w, cfg) { AtRiskBefore(w, cfg, ms, a); }
    SubsetSize(AgentsAtRisk(v, cfg), AgentsAtRisk(w, cfg));
  }

  lemma AtRiskBefore(w: World, cfg: Config, ms: seq<MicroStep>, a: AgentId)
    requires WellFormed(w) && AtRisk(Micros(w, cfg, ms).world, cfg, a)
    ensures AtRisk(w, cfg, a)
  {
    BlastRadiusShrinks(w, cfg, ms, a);
  }

  /** The premise of all three holds in every state an experiment reaches. */
  lemma ReachableWellFormed(s: Experiment.Setup, ms: seq<MicroStep>)
    requires Experiment.Valid(s)
    ensures WellFormed(Experiment.AfterMicros(s, ms).world)
  {
    var w := Experiment.Start(s).world;
    Topology.InitialWorldShape(s.ids, s.links, s.cfg);
    FrameKept(w, s.cfg, ms);
    WellFormedFrame(w, Experiment.AfterMicros(s, ms).world);
  }

  lemma WellFormedFrame(w: World, v: World)
    requires WellFormed(w) && SameFrame(w, v)
    ensures WellFormed(v)
  {
  }
}
