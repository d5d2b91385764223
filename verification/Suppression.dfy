/** What a subverted sentinel costs: security/detection.py:11-48 over the round-robin
    monitoring of graph/builder.py:173-177. */
module Suppression {
  import opened Wrappers
  import opened Ordering
  import opened World
  import opened Runs
  import opened Engine
  import opened Effects
  import opened Metrics
  import opened LogAccounting
  import opened GraphFacts
  import opened SecurityGraphs
  import DetectionStep

  // --- over a run -----------------------------------------------------------------------------

  /** a's sentinel has fallen. */
  ghost predicate Unwatched(w: World, cfg: Config, a: AgentId) {
    a in DetectionStep.Suppressed(w, cfg)
  }

  lemma UnwatchedStep(w: World, cfg: Config, m: MicroStep, a: AgentId)
    requires Unwatched(w, cfg, a) && !m.AskModels?
    ensures Unwatched(Micro(w, cfg, m).world, cfg, a)
    ensures a in CompromisedAgents(w) ==> a in CompromisedAgents(Micro(w, cfg, m).world)
  {
    var v := Micro(w, cfg, m).world;
    MicroEffect(w, cfg, m);
    MicroTransition(w, cfg, m, a);
    assert Monitor(v, cfg, a) == Monitor(w, cfg, a) by { assert v.nodes.Keys == w.nodes.Keys; }
  }

  lemma UnwatchedSilent(w: World, cfg: Config, m: MicroStep, a: AgentId)
    requires Unwatched(w, cfg, a) && !m.AskModels?
    ensures BookOf(Micro(w, cfg, m).drafts, a).detected == None && BookOf(Micro(w, cfg, m).drafts, a).contained == None
  {
    hide BookOf, Scenario, Sorted;
    match m {
      case RunScenario(name) =>
        if OwnsTick(name) { AttackerBook(w, cfg, name, a); } else { PlaneBook(w, cfg, name, a); }
      case Detect =>
        if cfg.defenseEnabled {
          DetectBook(w, cfg, a);
          assert a !in DetectionStep.Hits(w, cfg, Sorted(DetectionStep.Candidates(w, cfg)));
        } else {
          BookEmpty(a);
        }
    }
  }

  /** Once a sentinel has fallen no agent it monitors is ever detected or rightly quarantined
      again, in any later synchronous step, and its compromised agents stay compromised. */
  lemma SuppressedForever(w: World, cfg: Config, ms: seq<MicroStep>, a: AgentId)
    requires Unwatched(w, cfg, a) && Synchronous(ms)
    ensures var r := Micros(w, cfg, ms);
      && Unwatched(r.world, cfg, a)
      && FirstDetected(r.drafts, a) == None && FirstQuarantined(r.drafts, a) == None
      && (a in CompromisedAgents(w) ==> a in CompromisedAgents(r.world))
  {
    hide BookOf, Micro, Unwatched, CompromisedAgents, FirstDetected, FirstQuarantined;
    var step := (v: World, m: MicroStep) => Micro(v, cfg, m);
    var sync := (m: MicroStep) => !m.AskModels?;
    var inv := (r: StepResult) =>
      && Unwatched(r.world, cfg, a) && BookOf(r.drafts, a).detected == None && BookOf(r.drafts, a).contained == None
      && (a in CompromisedAgents(w) ==> a in CompromisedAgents(r.world));
    BookEmpty(a);
    forall r: StepResult, m: MicroStep | inv(r) && sync(m) ensures inv(Concat(r, step(r.world, m))) {
      UnwatchedStep(r.world, cfg, m, a);
      UnwatchedSilent(r.world, cfg, m, a);
      BookAppend(r.drafts, Micro(r.world, cfg, m).drafts, a);
    }
    TraceInduction(step, sync, inv, w, ms);
    BookMeans(Micros(w, cfg, ms).drafts, a);
  }

  // --- how many agents a sentinel answers for ---------------------------------------------------

  /** The agents sentinel i monitors. */
  function Wards(w: World, cfg: Config, i: nat): (s: set<AgentId>)
    requires cfg.sentinelCount > 0
  {
    set a | a in w.nodes && Monitor(w, cfg, a) == i
  }

  /** Each agent is monitored by exactly one sentinel of the graph. */
  lemma OneMonitorEach(w: World, cfg: Config, a: AgentId)
    requires cfg.sentinelCount > 0 && a in w.nodes
    ensures exists i: nat :: i < cfg.sentinelCount && Edge(SentinelNode(i), AgentNode(a), Monitors) in Build(w, cfg).edges
    ensures forall x, y | Edge(x, AgentNode(a), Monitors) in Build(w, cfg).edges && Edge(y, AgentNode(a), Monitors) in Build(w, cfg).edges :: x == y
  {
    hide Build;
    BuildEdges(w, cfg, Edge(SentinelNode(Monitor(w, cfg, a)), AgentNode(a), Monitors));
    forall x, y | Edge(x, AgentNode(a), Monitors) in Build(w, cfg).edges && Edge(y, AgentNode(a), Monitors) in Build(w, cfg).edges
      ensures x == y
    {
      BuildEdges(w, cfg, Edge(x, AgentNode(a), Monitors));
      BuildEdges(w, cfg, Edge(y, AgentNode(a), Monitors));
    }
  }

  function CeilDiv(n: nat, k: nat): nat
    requires k > 0
  {
    (n + k - 1) / k
  }

  lemma Gap(a: int, b: int, k: nat)
    requires a < b
    ensures a * k + k <= b * k
    decreases b - a
  {
    assert b * k == (b - 1) * k + k;
    if a < b - 1 { Gap(a, b - 1, k); }
  }

  lemma Quotient(x: nat, q: nat, r: nat, k: nat)
    requires k > 0 && r < k && x == q * k + r
    ensures x / k == q && x % k == r
  {
    var d := x / k;
    assert x == d * k + x % k;
    if d < q { Gap(d, q, k); }
    if q < d { Gap(q, d, k); }
  }

  /** How many of the first n positions fall to sentinel i of k. */
  function Turns(n: nat, k: nat, i: nat): nat
    requires i < k
  {
    (n + k - 1 - i) / k
  }

  lemma ShareStep(n: nat, k: nat, i: nat)
    requires i < k
    ensures Turns(n + 1, k, i) == Turns(n, k, i) + (if n % k == i then 1 else 0)
    ensures Turns(0, k, i) == 0
  {
    var x := n + k - 1 - i;
    var q, r := x / k, x % k;
    assert x == q * k + r;
    assert (q + 1) * k == q * k + k;
    Quotient(k - 1 - i, 0, k - 1 - i, k);
    if r == k - 1 {
      Quotient(x + 1, q + 1, 0, k);
      assert n == q * k + i;
      Quotient(n, q, i, k);
    } else {
      Quotient(x + 1, q, r + 1, k);
      if n % k == i {
        assert n == (n / k) * k + i;
        assert x == (n / k) * k + (k - 1);
        Quotient(x, n / k, k - 1, k);
        assert false;
      }
    }
  }

  /** The agents at the positions of a prefix that fall to sentinel i. */
  function WardsOf(ids: seq<AgentId>, k: nat, i: nat): set<AgentId>
    requires k > 0
  {
    set p | 0 <= p < |ids| && p % k == i :: ids[p]
  }

  lemma {:induction false} WardsCount(ids: seq<AgentId>, k: nat, i: nat)
    requires Ascending(ids) && i < k
    ensures |WardsOf(ids, k, i)| == Turns(|ids|, k, i)
  {
    if |ids| == 0 {
      ShareStep(0, k, i);
    } else {
      var n := |ids| - 1;
      var earlier := ids[..n];
      WardsCount(earlier, k, i);
      ShareStep(n, k, i);
      forall p | 0 <= p < n ensures earlier[p] == ids[p] && ids[p] != ids[n] {}
      if n % k == i {
        assert WardsOf(ids, k, i) == WardsOf(earlier, k, i) + {ids[n]};
      } else {
        assert WardsOf(ids, k, i) == WardsOf(earlier, k, i);
      }
    }
  }

  lemma WardsArePositions(w: World, cfg: Config, i: nat)
    requires cfg.sentinelCount > 0
    ensures Wards(w, cfg, i) == WardsOf(AgentIds(w), cfg.sentinelCount, i)
  {
    hide Sorted;
    var ids := AgentIds(w);
    forall a | a in WardsOf(ids, cfg.sentinelCount, i) ensures a in Wards(w, cfg, i) {
      var p :| 0 <= p < |ids| && p % cfg.sentinelCount == i && ids[p] == a;
      PositionUnique(ids, p);
    }
    forall a | a in Wards(w, cfg, i) ensures a in WardsOf(ids, cfg.sentinelCount, i) {
      var p := Position(ids, a);
      assert ids[p] == a && p % cfg.sentinelCount == i;
    }
  }

  /** Sentinel i of k answers for (n + k - 1 - i) div k of n agents. */
  lemma WardsExactly(w: World, cfg: Config, i: nat)
    requires i < cfg.sentinelCount
    ensures |Wards(w, cfg, i)| == Turns(|w.nodes|, cfg.sentinelCount, i)
  {
    WardsArePositions(w, cfg, i);
    WardsCount(AgentIds(w), cfg.sentinelCount, i);
    assert |w.nodes.Keys| == |w.nodes|;
  }

  lemma DivMonotone(x: nat, y: nat, k: nat)
    requires k > 0 && x <= y
    ensures x / k <= y / k
  {
    var a, b := x / k, y / k;
    assert x == a * k + x % k && y == b * k + y % k;
    if b < a { Gap(b, a, k); }
  }

  /** No sentinel answers for more than ceil(n / k) agents, and the first one for exactly that. */
  lemma WorstCase(w: World, cfg: Config, i: nat)
    requires i < cfg.sentinelCount
    ensures |Wards(w, cfg, i)| <= CeilDiv(|w.nodes|, cfg.sentinelCount)
    ensures |Wards(w, cfg, 0)| == CeilDiv(|w.nodes|, cfg.sentinelCount)
  {
    hide Wards;
    WardsExactly(w, cfg, i);
    WardsExactly(w, cfg, 0);
    DivMonotone(|w.nodes| + cfg.sentinelCount - 1 - i, |w.nodes| + cfg.sentinelCount - 1, cfg.sentinelCount);
  }

  /** ceil(n / k) is the least q with n <= q * k. */
  lemma CeilDivLeast(n: nat, k: nat, q: nat)
    requires k > 0
    ensures n <= CeilDiv(n, k) * k
    ensures n <= q * k ==> CeilDiv(n, k) <= q
  {
    var p := CeilDiv(n, k);
    assert n + k - 1 == p * k + (n + k - 1) % k;
    if n <= q * k && q < p { Gap(q, p, k); }
  }

  lemma CeilDivShrinks(n: nat, k: nat)
    requires k > 0
    ensures CeilDiv(n, k + 1) <= CeilDiv(n, k)
  {
    hide CeilDiv;
    var q := CeilDiv(n, k);
    CeilDivLeast(n, k, q);
    assert q * (k + 1) == q * k + q;
    CeilDivLeast(n, k + 1, q);
  }

  /** One more sentinel never raises what a single fallen sentinel can cost. */
  lemma MoreSentinelsNeverWorse(w: World, cfg: Config, i: nat)
    requires cfg.sentinelCount > 0 && i < cfg.sentinelCount + 1
    ensures |Wards(w, cfg.(sentinelCount := cfg.sentinelCount + 1), i)| <= |Wards(w, cfg, 0)|
  {
    WorstCase(w, cfg, 0);
    WorstCase(w, cfg.(sentinelCount := cfg.sentinelCount + 1), i);
    CeilDivShrinks(|w.nodes|, cfg.sentinelCount);
  }

  /** The sentinels of the graph that have fallen, among the first n. */
  function Fallen(w: World, n: nat): set<nat> {
    set i | 0 <= i < n && SentinelNode(i) in w.compromisedGraph
  }

  /** The agents the first n fallen sentinels answer for. */
  function Lost(w: World, cfg: Config, n: nat): set<AgentId>
    requires cfg.sentinelCount > 0
  {
    set a | a in w.nodes && Monitor(w, cfg, a) in Fallen(w, n)
  }

  lemma LostStep(w: World, cfg: Config, n: nat)
    requires n < cfg.sentinelCount
    ensures var bad := SentinelNode(n) in w.compromisedGraph;
      && Fallen(w, n + 1) == Fallen(w, n) + (if bad then {n} else {})
      && Lost(w, cfg, n + 1) == Lost(w, cfg, n) + (if bad then Wards(w, cfg, n) else {})
  {
    hide Monitor;
  }

  lemma FallenOne(w: World, n: nat)
    requires SentinelNode(n) in w.compromisedGraph
    ensures |Fallen(w, n) + {n}| == |Fallen(w, n)| + 1
  {
  }

  lemma UnionBound(a: set<AgentId>, b: set<AgentId>)
    ensures |a + b| <= |a| + |b|
  {
    assert a + b == a + (b - a);
  }

  predicate AtMost(total: nat, m: nat, c: nat) { total <= m * c }

  lemma OneMore(m: nat, c: nat, lost: nat, wards: nat, all: nat)
    requires AtMost(lost, m, c) && wards <= c && all <= lost + wards
    ensures AtMost(all, m + 1, c)
  {
  }

  lemma AtMostNone(c: nat)
    ensures AtMost(0, 0, c)
  {
  }

  lemma LostGrows(w: World, cfg: Config, n: nat)
    requires n < cfg.sentinelCount && SentinelNode(n) in w.compromisedGraph
    ensures |Fallen(w, n + 1)| == |Fallen(w, n)| + 1
    ensures |Lost(w, cfg, n + 1)| <= |Lost(w, cfg, n)| + |Wards(w, cfg, n)|
  {
    hide Lost, Wards, Fallen;
    LostStep(w, cfg, n);
    FallenOne(w, n);
    UnionBound(Lost(w, cfg, n), Wards(w, cfg, n));
  }

  lemma LostNext(w: World, cfg: Config, n: nat, c: nat)
    requires n < cfg.sentinelCount && c == CeilDiv(|w.nodes|, cfg.sentinelCount)
    requires AtMost(|Lost(w, cfg, n)|, |Fallen(w, n)|, c)
    ensures AtMost(|Lost(w, cfg, n + 1)|, |Fallen(w, n + 1)|, c)
  {
    hide Monitor, CeilDiv, Lost, Wards, AtMost, Fallen;
    if SentinelNode(n) !in w.compromisedGraph {
      LostStep(w, cfg, n);
    } else {
      WorstCase(w, cfg, n);
      LostGrows(w, cfg, n);
      OneMore(|Fallen(w, n)|, c, |Lost(w, cfg, n)|, |Wards(w, cfg, n)|, |Lost(w, cfg, n + 1)|);
    }
  }

  lemma {:induction false} LostBound(w: World, cfg: Config, n: nat, c: nat)
    requires n <= cfg.sentinelCount && cfg.sentinelCount > 0 && c == CeilDiv(|w.nodes|, cfg.sentinelCount)
    ensures AtMost(|Lost(w, cfg, n)|, |Fallen(w, n)|, c)
  {
    hide Monitor, CeilDiv, Lost, Wards, AtMost, Fallen;
    if n == 0 {
      NoneLost(w, cfg);
      AtMostNone(c);
    } else {
      LostBound(w, cfg, n - 1, c);
      LostNext(w, cfg, n - 1, c);
    }
  }

  lemma NoneLost(w: World, cfg: Config)
    requires cfg.sentinelCount > 0
    ensures Fallen(w, 0) == {} && Lost(w, cfg, 0) == {}
  {
  }

  /** m fallen sentinels blind detection to at most m * ceil(n / k) agents. */
  lemma SuppressionBound(w: World, cfg: Config)
    requires cfg.sentinelCount > 0
    ensures |DetectionStep.Suppressed(w, cfg)| <= |Fallen(w, cfg.sentinelCount)| * CeilDiv(|w.nodes|, cfg.sentinelCount)
  {
    hide Monitor;
    LostBound(w, cfg, cfg.sentinelCount, CeilDiv(|w.nodes|, cfg.sentinelCount));
    assert DetectionStep.Suppressed(w, cfg) == Lost(w, cfg, cfg.sentinelCount);
  }
}
