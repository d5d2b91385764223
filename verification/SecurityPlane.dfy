/** The scenarios that attack the security plane rather than the agents:
    sentinel_compromise, attestation and byzantine_collusion. None of them moves the clock. */
module SecurityPlaneSteps {
  import opened Wrappers
  import opened Ordering
  import opened World
  import opened SecurityGraphs
  import opened GraphFacts

  // --- backend/app/scenarios/sentinel_compromise_scenario.py ----------------------------

  /** Some agent this sentinel monitors is compromised. */
  predicate WatchesCompromised(w: World, cfg: Config, i: nat) {
    exists a :: a in CompromisedAgents(w) && cfg.sentinelCount > 0 && Monitor(w, cfg, a) == i
  }

  predicate Subverts(w: World, cfg: Config, i: nat) {
    && SentinelNode(i) !in w.compromisedGraph && WatchesCompromised(w, cfg, i)
    && cfg.draw(w.tick, SentinelDraw(i)) < cfg.sentinelCompromiseRate
  }

  function Subverted(w: World, cfg: Config, n: nat): set<NodeId> {
    if n == 0 then {} else
      Subverted(w, cfg, n - 1) + if Subverts(w, cfg, n - 1) then {SentinelNode(n - 1)} else {}
  }

  function SubvertDrafts(w: World, cfg: Config, n: nat): seq<Draft> {
    if n == 0 then [] else
      SubvertDrafts(w, cfg, n - 1) +
      if Subverts(w, cfg, n - 1) then [Draft(w.tick, PolicyViolation(SentinelNode(n - 1), None))] else []
  }

  function PoisonDrafts(w: World, bad: set<NodeId>, n: nat): seq<Draft> {
    if n == 0 then [] else
      PoisonDrafts(w, bad, n - 1) +
      if SentinelNode(n - 1) in bad then [Draft(w.tick, ThreatSignaturePublished(n - 1))] else []
  }

  /** How many sentinels the graph has: none without agents. */
  function Sentinels(w: World, cfg: Config): nat {
    if w.nodes.Keys == {} then 0 else cfg.sentinelCount
  }

  function SentinelStep(w: World, cfg: Config): StepResult {
    if cfg.sentinelCompromiseRate <= 0.0 then StepResult(w, []) else
      var k := Sentinels(w, cfg);
      var bad := w.compromisedGraph + Subverted(w, cfg, k);
      StepResult(w.(compromisedGraph := bad), SubvertDrafts(w, cfg, k) + PoisonDrafts(w, bad, k))
  }

  lemma {:induction false} SubvertedMembers(w: World, cfg: Config, n: nat, x: NodeId)
    ensures x in Subverted(w, cfg, n) <==> x.SentinelNode? && x.index < n && Subverts(w, cfg, x.index)
  {
    hide Subverts;
    if n > 0 { SubvertedMembers(w, cfg, n - 1, x); }
  }

  /** The sentinels with a MONITORS edge to a compromised agent. */
  method WatchingSentinels(w: World, cfg: Config) returns (watching: set<NodeId>)
    ensures forall i :: SentinelNode(i) in watching <==> WatchesCompromised(w, cfg, i)
  {
    var g := ReadGraph(w, cfg);
    var compromisedAgents := CompromisedAgents(w);
    watching := set e | e in g.edges && e.kind == Monitors && e.target.AgentNode? && e.target.agent in compromisedAgents :: e.source;
    forall i ensures SentinelNode(i) in watching <==> WatchesCompromised(w, cfg, i) {
      if SentinelNode(i) in watching {
        var e :| e in g.edges && e.kind == Monitors && e.target.AgentNode? && e.target.agent in compromisedAgents && e.source == SentinelNode(i);
        assert IsEdge(w, cfg, e);
      }
      if WatchesCompromised(w, cfg, i) {
        var a :| a in CompromisedAgents(w) && Monitor(w, cfg, a) == i;
        var e := Edge(SentinelNode(i), AgentNode(a), Monitors);
        assert IsEdge(w, cfg, e);
        assert e in g.edges;
      }
    }
  }

  /** One sentinel's turn in the first loop of `step`. */
  method SubvertOne(w: World, cfg: Config, i: nat, watching: set<NodeId>, bad: set<NodeId>) returns (hit: bool)
    requires SentinelNode(i) in watching <==> WatchesCompromised(w, cfg, i)
    requires SentinelNode(i) in bad <==> SentinelNode(i) in w.compromisedGraph
    ensures hit == Subverts(w, cfg, i)
  {
    hide WatchesCompromised;
    if SentinelNode(i) in bad { return false; }
    if SentinelNode(i) !in watching { return false; }
    return cfg.draw(w.tick, SentinelDraw(i)) < cfg.sentinelCompromiseRate;
  }

  /** First loop of `step`: a draw for every sound sentinel that watches a compromised agent. */
  method SubvertAll(w: World, cfg: Config, k: nat, watching: set<NodeId>) returns (bad: set<NodeId>, drafts: seq<Draft>)
    requires forall i :: SentinelNode(i) in watching <==> WatchesCompromised(w, cfg, i)
    ensures bad == w.compromisedGraph + Subverted(w, cfg, k) && drafts == SubvertDrafts(w, cfg, k)
  {
    hide WatchesCompromised;
    bad, drafts := w.compromisedGraph, [];
    for i := 0 to k
      invariant bad == w.compromisedGraph + Subverted(w, cfg, i)
      invariant drafts == SubvertDrafts(w, cfg, i)
    {
      SubvertedMembers(w, cfg, i, SentinelNode(i));
      var hit := SubvertOne(w, cfg, i, watching, bad);
      if hit {
        bad := bad + {SentinelNode(i)};
        drafts := drafts + [Draft(w.tick, PolicyViolation(SentinelNode(i), None))];
      }
    }
  }

  /** Second loop of `step`: every compromised sentinel poisons the threat memory. */
  method PoisonAll(w: World, bad: set<NodeId>, k: nat) returns (drafts: seq<Draft>)
    ensures drafts == PoisonDrafts(w, bad, k)
  {
    drafts := [];
    for i := 0 to k
      invariant drafts == PoisonDrafts(w, bad, i)
    {
      if SentinelNode(i) in bad {
        drafts := drafts + [Draft(w.tick, ThreatSignaturePublished(i))];
      }
    }
  }

  method SentinelAdvance(w: World, cfg: Config) returns (r: StepResult)
    ensures r == SentinelStep(w, cfg)
  {
    if cfg.sentinelCompromiseRate <= 0.0 { return StepResult(w, []); }
    var k := Sentinels(w, cfg);
    var watching := WatchingSentinels(w, cfg);
    var bad, drafts := SubvertAll(w, cfg, k, watching);
    var poison := PoisonAll(w, bad, k);
    r := StepResult(w.(compromisedGraph := bad), drafts + poison);
  }

  // --- backend/app/scenarios/attestation_scenario.py -------------------------------------

  function AttestationDrafts(w: World, cfg: Config, ids: seq<AgentId>): seq<Draft> {
    if |ids| == 0 then [] else
      var a := ids[|ids| - 1];
      var replayed := cfg.draw(w.tick, AttestationDraw(a)) < cfg.attestationReplayRate;
      var nonce := if replayed && w.tick > 0 then w.tick - 1 else w.tick;
      AttestationDrafts(w, cfg, ids[..|ids| - 1]) +
        [Draft(w.tick, AttestationIssued(a, nonce)), Draft(w.tick, AttestationVerified(a, nonce, replayed))]
  }

  /** Emits attestation events and leaves the world alone. The attestation control exists
      whenever there are agents and sentinels. */
  function AttestationStep(w: World, cfg: Config): StepResult {
    if cfg.attestationReplayRate <= 0.0 || cfg.sentinelCount == 0 then StepResult(w, [])
    else StepResult(w, AttestationDrafts(w, cfg, Sorted(CompromisedAgents(w))))
  }

  // --- backend/app/scenarios/byzantine_collusion_scenario.py -----------------------------

  predicate Holds(w: World, cfg: Config, a: AgentId, credential: nat) {
    w.nodes.Keys != {} && credential < cfg.credentialCount && a == Holder(cfg, AgentIds(w), credential)
  }

  /** A pair oversteps a credential neither holds. */
  predicate Colludes(w: World, cfg: Config, source: AgentId, accomplice: AgentId, c: nat) {
    && !Holds(w, cfg, source, c) && !Holds(w, cfg, accomplice, c)
    && cfg.draw(w.tick, CollusionDraw(c, source, accomplice)) < cfg.byzantineCollusionRate
  }

  /** The least index from `c` on, below `n`, that satisfies `p`. */
  function FirstIndex(p: nat -> bool, c: nat, n: nat): (r: Option<nat>)
    ensures r.Some? ==> c <= r.value < n && p(r.value)
    ensures forall d | c <= d < (if r.Some? then r.value else n) :: !p(d)
    decreases n - c
  {
    if c >= n then None else if p(c) then Some(c) else FirstIndex(p, c + 1, n)
  }

  /** The first credential the pair succeeds against this tick. */
  function FirstCollusion(w: World, cfg: Config, source: AgentId, accomplice: AgentId): Option<nat> {
    FirstIndex((c: nat) => Colludes(w, cfg, source, accomplice, c), 0, cfg.credentialCount)
  }

  function PairCredential(w: World, cfg: Config, ids: seq<AgentId>, pair: nat): Option<nat>
    requires 2 * pair + 1 < |ids|
  {
    FirstCollusion(w, cfg, ids[2 * pair], ids[2 * pair + 1])
  }

  function Overstepped(w: World, cfg: Config, ids: seq<AgentId>, pairs: nat): set<NodeId>
    requires 2 * pairs <= |ids|
  {
    if pairs == 0 then {} else
      var c := PairCredential(w, cfg, ids, pairs - 1);
      Overstepped(w, cfg, ids, pairs - 1) + if c.Some? then {CredentialNode(c.value)} else {}
  }

  function CollusionDrafts(w: World, cfg: Config, ids: seq<AgentId>, pairs: nat): seq<Draft>
    requires 2 * pairs <= |ids|
  {
    if pairs == 0 then [] else
      var c := PairCredential(w, cfg, ids, pairs - 1);
      CollusionDrafts(w, cfg, ids, pairs - 1) +
      if c.Some? then
        [Draft(w.tick, PolicyViolation(CredentialNode(c.value), Some((ids[2 * pairs - 2], ids[2 * pairs - 1]))))]
      else []
  }

  function CollusionStep(w: World, cfg: Config): StepResult {
    var ids := Sorted(CompromisedAgents(w));
    if cfg.byzantineCollusionRate <= 0.0 || |ids| < 2 then StepResult(w, []) else
      StepResult(w.(compromisedGraph := w.compromisedGraph + Overstepped(w, cfg, ids, |ids| / 2)),
                 CollusionDrafts(w, cfg, ids, |ids| / 2))
  }

  lemma {:induction false} OversteppedMembers(w: World, cfg: Config, ids: seq<AgentId>, pairs: nat, x: NodeId)
    requires 2 * pairs <= |ids|
    ensures x in Overstepped(w, cfg, ids, pairs) ==> x.CredentialNode? && x.index < cfg.credentialCount
    ensures x in Overstepped(w, cfg, ids, pairs) <==>
      exists p :: 0 <= p < pairs && PairCredential(w, cfg, ids, p).Some? && x == CredentialNode(PairCredential(w, cfg, ids, p).value)
  {
    if pairs > 0 {
      OversteppedMembers(w, cfg, ids, pairs - 1, x);
    }
  }

  /** The nested loops with `break`, one pair at a time. */
  method TryPair(w: World, cfg: Config, g: SecurityGraph, source: AgentId, accomplice: AgentId)
    returns (credential: Option<nat>)
    requires forall e :: e in g.edges <==> IsEdge(w, cfg, e)
    ensures credential == FirstCollusion(w, cfg, source, accomplice)
  {
    credential := None;
    ghost var p := (c: nat) => Colludes(w, cfg, source, accomplice, c);
    for c := 0 to cfg.credentialCount
      invariant credential.None?
      invariant FirstCollusion(w, cfg, source, accomplice) == FirstIndex(p, c, cfg.credentialCount)
    {
      assert IsEdge(w, cfg, Edge(AgentNode(source), CredentialNode(c), UsesCredential)) <==> Holds(w, cfg, source, c);
      assert IsEdge(w, cfg, Edge(AgentNode(accomplice), CredentialNode(c), UsesCredential)) <==> Holds(w, cfg, accomplice, c);
      if Edge(AgentNode(source), CredentialNode(c), UsesCredential) in g.edges ||
         Edge(AgentNode(accomplice), CredentialNode(c), UsesCredential) in g.edges { continue; }
      if cfg.draw(w.tick, CollusionDraw(c, source, accomplice)) < cfg.byzantineCollusionRate {
        credential := Some(c);
        break;
      }
    }
  }

  /** The loop of `step` over the pairs. */
  method CollideAll(w: World, cfg: Config, ids: seq<AgentId>, g: SecurityGraph)
    returns (bad: set<NodeId>, drafts: seq<Draft>)
    requires forall e :: e in g.edges <==> IsEdge(w, cfg, e)
    ensures bad == w.compromisedGraph + Overstepped(w, cfg, ids, |ids| / 2)
    ensures drafts == CollusionDrafts(w, cfg, ids, |ids| / 2)
  {
    bad, drafts := w.compromisedGraph, [];
    for pair := 0 to |ids| / 2
      invariant bad == w.compromisedGraph + Overstepped(w, cfg, ids, pair)
      invariant drafts == CollusionDrafts(w, cfg, ids, pair)
    {
      var c := TryPair(w, cfg, g, ids[2 * pair], ids[2 * pair + 1]);
      if c.Some? {
        bad := bad + {CredentialNode(c.value)};
        drafts := drafts + [Draft(w.tick, PolicyViolation(CredentialNode(c.value), Some((ids[2 * pair], ids[2 * pair + 1]))))];
      }
    }
  }

  method CollusionAdvance(w: World, cfg: Config) returns (r: StepResult)
    ensures r == CollusionStep(w, cfg)
  {
    if cfg.byzantineCollusionRate <= 0.0 { return StepResult(w, []); }
    var ids := Sorted(CompromisedAgents(w));
    if |ids| < 2 { return StepResult(w, []); }
    var g := ReadGraph(w, cfg);
    var bad, drafts := CollideAll(w, cfg, ids, g);
    r := StepResult(w.(compromisedGraph := bad), drafts);
  }
}
