/** The compromise relation is a forest rooted at the seed, and `provenance` reads it back.
    graph/analysis.py:67-84, engine and model-driven steps mixed. */
module InfectionForest {
  import opened Wrappers
  import opened World
  import opened Runs
  import opened Engine
  import opened Effects
  import Experiment
  import Topology

  type Rank = map<AgentId, nat>

  /** Healthy agents carry no record, compromised ones do, and no record is from the future. */
  ghost predicate Recorded(w: World, n: Agent) {
    && (n.state == Healthy ==> n.tickCompromised == None)
    && (n.state == Compromised ==> n.tickCompromised.Some?)
    && (n.tickCompromised.Some? ==> n.tickCompromised.value <= w.tick)
    && (n.tickCompromised.None? ==> n.compromisedBy == None)
  }

  /** Every recorded attacker is a lower-ranked, earlier-or-same-tick, ever-compromised
      neighbour, and only the seed has none. */
  ghost predicate Ranked(w: World, seed: AgentId, rank: Rank) {
    && rank.Keys == w.nodes.Keys
    && seed in EverCompromised(w) && w.nodes[seed].compromisedBy == None
    && (forall a | a in w.nodes :: Recorded(w, w.nodes[a]))
    && (forall a | a in EverCompromised(w) && a != seed :: Attacker(w, rank, a))
  }

  ghost predicate Attacker(w: World, rank: Rank, a: AgentId)
    requires rank.Keys == w.nodes.Keys && a in EverCompromised(w)
  {
    && w.nodes[a].compromisedBy.Some?
    && var s := w.nodes[a].compromisedBy.value;
    && s in EverCompromised(w) && a in w.nodes[s].neighbors
    && rank[s] < rank[a]
    && w.nodes[s].tickCompromised.value <= w.nodes[a].tickCompromised.value
  }

  /** The forest exists, whatever witnesses its order. */
  ghost predicate Forest(w: World, seed: AgentId) {
    exists rank :: Ranked(w, seed, rank)
  }

  ghost function NextRank(w: World, v: World, rank: Rank): Rank
    requires rank.Keys == w.nodes.Keys == v.nodes.Keys
  {
    map a | a in v.nodes ::
      if v.nodes[a].tickCompromised.Some? && w.nodes[a].tickCompromised.None? && v.nodes[a].compromisedBy.Some?
         && v.nodes[a].compromisedBy.value in rank
      then rank[v.nodes[a].compromisedBy.value] + 1 else rank[a]
  }

  /** A record once made is kept; a new one names a compromised neighbour. */
  lemma RecordsKept(w: World, cfg: Config, v: World, a: AgentId)
    requires Evolves(w, cfg, v) && a in w.nodes
    ensures v.nodes[a].neighbors == w.nodes[a].neighbors
    ensures (v.nodes[a].tickCompromised == w.nodes[a].tickCompromised && v.nodes[a].compromisedBy == w.nodes[a].compromisedBy)
      || Infected(w, w.nodes[a], v.nodes[a], a)
  {
  }

  lemma AttackerKept(w: World, cfg: Config, v: World, seed: AgentId, rank: Rank, a: AgentId)
    requires Ranked(w, seed, rank) && Evolves(w, cfg, v) && a in EverCompromised(v) && a != seed
    ensures Attacker(v, NextRank(w, v, rank), a)
  {
    var next := NextRank(w, v, rank);
    RecordsKept(w, cfg, v, a);
    var s := v.nodes[a].compromisedBy;
    if a in EverCompromised(w) {
      assert Attacker(w, rank, a);
      assert !Infected(w, w.nodes[a], v.nodes[a], a);
    }
    assert s.Some? && s.value in EverCompromised(w);
    RecordsKept(w, cfg, v, s.value);
    assert next[s.value] == rank[s.value];
  }

  lemma RecordedKept(w: World, cfg: Config, v: World, a: AgentId)
    requires Evolves(w, cfg, v) && a in w.nodes && Recorded(w, w.nodes[a])
    ensures Recorded(v, v.nodes[a])
  {
  }

  lemma ForestStep(w: World, cfg: Config, v: World, seed: AgentId, rank: Rank)
    requires Ranked(w, seed, rank) && Evolves(w, cfg, v)
    ensures Ranked(v, seed, NextRank(w, v, rank))
  {
    forall a | a in EverCompromised(v) && a != seed ensures Attacker(v, NextRank(w, v, rank), a) {
      AttackerKept(w, cfg, v, seed, rank, a);
    }
    forall a | a in v.nodes ensures Recorded(v, v.nodes[a]) { RecordedKept(w, cfg, v, a); }
    RecordsKept(w, cfg, v, seed);
  }

  /** Invariant of every run, synchronous and model-driven steps mixed in any order. */
  lemma ForestForever(w: World, cfg: Config, ms: seq<MicroStep>, seed: AgentId)
    requires Forest(w, seed)
    ensures Forest(Micros(w, cfg, ms).world, seed)
  {
    var step := (v: World, m: MicroStep) => Micro(v, cfg, m);
    var inv := (r: StepResult) => Forest(r.world, seed);
    forall r: StepResult, m: MicroStep | inv(r) ensures inv(Concat(r, step(r.world, m))) {
      var rank :| Ranked(r.world, seed, rank);
      MicroEvolves(r.world, cfg, m);
      ForestStep(r.world, cfg, Micro(r.world, cfg, m).world, seed, rank);
    }
    TraceInduction(step, m => true, inv, w, ms);
  }

  // --- provenance -----------------------------------------------------------------------------

  type Sources = map<AgentId, Option<AgentId>>

  function SourcesOf(w: World): Sources {
    map a | a in w.nodes :: w.nodes[a].compromisedBy
  }

  /** `compromised_by.get(current)`. */
  function Source(sources: Sources, a: AgentId): Option<AgentId> {
    if a in sources then sources[a] else None
  }

  ghost predicate Chain(sources: Sources, chain: seq<AgentId>) {
    && (forall i, j | 0 <= i < j < |chain| && j == i + 1 :: Source(sources, chain[i]) == Some(chain[j]))
    && (forall i, j | 0 <= i < j < |chain| :: chain[i] != chain[j])
  }

  /** The chain follows the recorded sources without repeats and stops only at a node with no
      source, or where the next source is already on the chain. */
  method Provenance(sources: Sources, node: AgentId) returns (chain: seq<AgentId>)
    ensures |chain| > 0 && chain[0] == node && Chain(sources, chain)
    ensures var last := Source(sources, chain[|chain| - 1]); last == None || last.value in chain
  {
    chain := [node];
    var current := node;
    ghost var known := {node} + set a | a in sources && sources[a].Some? :: sources[a].value;
    while true
      invariant |chain| > 0 && chain[0] == node && chain[|chain| - 1] == current
      invariant Chain(sources, chain)
      invariant forall a | a in chain :: a in known
      decreases |known| - |chain|
    {
      var source := Source(sources, current);
      if source == None || source.value in chain { break; }
      assert source.value in known;
      NoRepeatBound(chain, known);
      assert chain + [source.value] != chain;
      NoRepeatBound(chain + [source.value], known);
      chain := chain + [source.value];
      current := source.value;
    }
  }

  lemma {:induction false} NoRepeatBound(s: seq<AgentId>, known: set<AgentId>)
    requires forall i, j | 0 <= i < j < |s| :: s[i] != s[j]
    requires forall a | a in s :: a in known
    ensures |s| <= |known|
  {
    if |s| > 0 {
      var last := s[|s| - 1];
      assert last in s;
      forall a | a in s[..|s| - 1] ensures a in known - {last} {
        var i :| 0 <= i < |s| - 1 && s[i] == a;
      }
      NoRepeatBound(s[..|s| - 1], known - {last});
    }
  }

  /** Ranks fall along a chain from an ever-compromised node, so it never meets itself. */
  lemma {:induction false} ChainDescends(w: World, seed: AgentId, rank: Rank, chain: seq<AgentId>, i: nat)
    requires Ranked(w, seed, rank) && Chain(SourcesOf(w), chain)
    requires |chain| > 0 && chain[0] in EverCompromised(w) && i < |chain|
    ensures chain[i] in EverCompromised(w)
    ensures forall j | 0 <= j < i :: chain[j] in w.nodes && rank[chain[i]] < rank[chain[j]]
  {
    if i > 0 {
      ChainDescends(w, seed, rank, chain, i - 1);
      assert Source(SourcesOf(w), chain[i - 1]) == Some(chain[i]);
      assert chain[i - 1] != seed;
      assert Attacker(w, rank, chain[i - 1]);
    }
  }

  lemma ChainLink(w: World, seed: AgentId, rank: Rank, chain: seq<AgentId>, i: nat)
    requires Ranked(w, seed, rank) && Chain(SourcesOf(w), chain) && i + 1 < |chain|
    requires chain[i] in EverCompromised(w) && chain[i + 1] in EverCompromised(w)
    ensures chain[i] in w.nodes[chain[i + 1]].neighbors
    ensures w.nodes[chain[i + 1]].tickCompromised.value <= w.nodes[chain[i]].tickCompromised.value
  {
    assert Source(SourcesOf(w), chain[i]) == Some(chain[i + 1]);
    assert Attacker(w, rank, chain[i]);
  }

  /** The provenance of any ever-compromised node is a repeat-free path along topology edges,
      ticks never increasing toward the source, that ends at the one seed; the cycle guard of
      the loop never fires. */
  lemma ProvenanceReachesSeed(w: World, seed: AgentId, chain: seq<AgentId>)
    requires Forest(w, seed) && |chain| > 0 && chain[0] in EverCompromised(w)
    requires Chain(SourcesOf(w), chain)
    requires var last := Source(SourcesOf(w), chain[|chain| - 1]); last == None || last.value in chain
    ensures chain[|chain| - 1] == seed && Source(SourcesOf(w), chain[|chain| - 1]) == None
    ensures forall i | 0 <= i < |chain| :: chain[i] in EverCompromised(w)
    ensures forall i | 0 <= i < |chain| - 1 ::
      && w.nodes[chain[i]].compromisedBy == Some(chain[i + 1])
      && chain[i] in w.nodes[chain[i + 1]].neighbors
      && w.nodes[chain[i + 1]].tickCompromised.value <= w.nodes[chain[i]].tickCompromised.value
  {
    var rank :| Ranked(w, seed, rank);
    var n := |chain| - 1;
    forall i | 0 <= i < |chain| ensures chain[i] in EverCompromised(w) {
      ChainDescends(w, seed, rank, chain, i);
    }
    ChainDescends(w, seed, rank, chain, n);
    if chain[n] != seed {
      assert false;
    }
    forall i | 0 <= i < n
      ensures w.nodes[chain[i]].compromisedBy == Some(chain[i + 1])
      ensures chain[i] in w.nodes[chain[i + 1]].neighbors
        && w.nodes[chain[i + 1]].tickCompromised.value <= w.nodes[chain[i]].tickCompromised.value
    {
      assert Source(SourcesOf(w), chain[i]) == Some(chain[i + 1]);
      ChainLink(w, seed, rank, chain, i);
    }
  }

  lemma InitialForest(s: Experiment.Setup)
    requires Experiment.Valid(s)
    ensures Forest(Experiment.Start(s).world, Topology.SeedNode(s.ids, s.links, s.cfg))
  {
    var w, seed := Experiment.Start(s).world, Topology.SeedNode(s.ids, s.links, s.cfg);
    Topology.InitialWorldShape(s.ids, s.links, s.cfg);
    FreshForest(w, s.ids, s.links, seed);
  }

  lemma FreshForest(w: World, ids: set<AgentId>, links: set<(AgentId, AgentId)>, seed: AgentId)
    requires Topology.FreshWorld(w, ids, links, seed) && seed in ids
    ensures Forest(w, seed)
  {
    var rank := map a | a in w.nodes :: 0;
    assert Ranked(w, seed, rank);
  }

  /** Every state an experiment can reach is an infection forest rooted at its seed. */
  lemma ReachableForest(s: Experiment.Setup, ms: seq<MicroStep>)
    requires Experiment.Valid(s)
    ensures Forest(Experiment.AfterMicros(s, ms).world, Topology.SeedNode(s.ids, s.links, s.cfg))
  {
    InitialForest(s);
    ForestForever(Experiment.Start(s).world, s.cfg, ms, Topology.SeedNode(s.ids, s.links, s.cfg));
  }

  /** Provenance on a reachable world: the method with the theorem about its result. */
  method Trace(s: Experiment.Setup, ghost ms: seq<MicroStep>, w: World, node: AgentId) returns (chain: seq<AgentId>)
    requires Experiment.Valid(s) && w == Experiment.AfterMicros(s, ms).world && node in EverCompromised(w)
    ensures |chain| > 0 && chain[0] == node && Chain(SourcesOf(w), chain)
    ensures chain[|chain| - 1] == Topology.SeedNode(s.ids, s.links, s.cfg)
  {
    chain := Provenance(SourcesOf(w), node);
    ReachableForest(s, ms);
    ProvenanceReachesSeed(w, Topology.SeedNode(s.ids, s.links, s.cfg), chain);
  }
}
