/** One pass of detection and of each scenario against the security plane, said on the agents, rates
    and draws alone: who is confined or falls, and what the log says, event by event.
    security/detection.py and scenarios/sentinel_compromise_scenario.py, attestation_scenario.py and
    byzantine_collusion_scenario.py. */
module Watching {
  import opened Wrappers
  import opened Ordering
  import opened World
  import DetectionStep
  import GraphFacts
  import SecurityGraphs
  import SecurityPlaneSteps

  // --- who watches whom ------------------------------------------------------------------------------------

  /** How many agents come before a in id order. */
  function Before(w: World, a: AgentId): nat { |set b | b in w.nodes && b < a| }

  lemma RankInOrder(s: seq<nat>, i: nat)
    requires Ascending(s) && i < |s|
    ensures |set b | b in s && b < s[i]| == i
  {
    assert (set b | b in s && b < s[i]) == Elements(s[..i]);
    AscendingSize(s[..i]);
  }

  lemma PositionInOrder(ids: seq<AgentId>, a: AgentId)
    requires Ascending(ids) && a in ids
    ensures GraphFacts.Position(ids, a) == |set b | b in ids && b < a|
  {
    var i := GraphFacts.Position(ids, a);
    RankInOrder(ids, i);
    assert (set b | b in ids && b < ids[i]) == (set b | b in ids && b < a);
  }

  lemma PositionIsRank(w: World, a: AgentId)
    requires a in w.nodes
    ensures a in SecurityGraphs.AgentIds(w) && GraphFacts.Position(SecurityGraphs.AgentIds(w), a) == Before(w, a)
  {
    hide Sorted, GraphFacts.Position;
    var ids := SecurityGraphs.AgentIds(w);
    PositionInOrder(ids, a);
    assert (set b | b in ids && b < a) == (set b | b in w.nodes && b < a);
  }

  /** The agents take turns with the sentinels: a belongs to the one at its place modulo their number. */
  lemma MonitorIs(w: World, cfg: Config, a: AgentId)
    requires a in w.nodes && cfg.sentinelCount > 0
    ensures GraphFacts.Monitor(w, cfg, a) == Before(w, a) % cfg.sentinelCount
  {
    PositionIsRank(w, a);
  }

  // --- detection -----------------------------------------------------------------------------------------------

  /** a's sentinel has fallen. */
  predicate Blind(w: World, cfg: Config, a: AgentId) {
    cfg.sentinelCount > 0 && SentinelNode(Before(w, a) % cfg.sentinelCount) in w.compromisedGraph
  }

  predicate IsDetected(w: World, cfg: Config, a: AgentId) {
    && a in w.nodes && w.nodes[a].state == Compromised && !Blind(w, cfg, a)
    && cfg.draw(w.tick, DetectDraw(a)) < cfg.detectorSensitivity
  }

  predicate IsAccused(w: World, cfg: Config, a: AgentId) {
    && a in w.nodes && w.nodes[a].state == Healthy && cfg.falseQuarantineRate > 0.0
    && cfg.draw(w.tick, FalseQuarantineDraw(a)) < cfg.falseQuarantineRate
  }

  lemma CaughtAre(w: World, cfg: Config, a: AgentId)
    ensures a in DetectionStep.Candidates(w, cfg) && DetectionStep.Detects(w, cfg, a) <==> IsDetected(w, cfg, a)
    ensures a in DetectionStep.Accusable(w, cfg) && DetectionStep.FalselyAccuses(w, cfg, a) <==> IsAccused(w, cfg, a)
  {
    hide Before, GraphFacts.Monitor;
    if a in w.nodes && cfg.sentinelCount > 0 { MonitorIs(w, cfg, a); }
  }

  /** Whom a pass confines; nothing else changes, and with defense off nothing at all. */
  lemma DetectionTick(w: World, cfg: Config, a: AgentId)
    requires a in w.nodes
    ensures var v := DetectionStep.Step(w, cfg).world;
      && v.tick == w.tick && v.edges == w.edges && v.compromisedGraph == w.compromisedGraph && v.nodes.Keys == w.nodes.Keys
      && v.nodes[a] == if cfg.defenseEnabled && (IsDetected(w, cfg, a) || IsAccused(w, cfg, a)) then w.nodes[a].(state := Quarantined) else w.nodes[a]
  {
    hide Sorted, IsDetected, IsAccused, DetectionStep.HitDrafts, DetectionStep.FalseDrafts;
    CaughtAre(w, cfg, a);
  }

  /** The members of a sequence that satisfy p. */
  function Filtered(p: AgentId -> bool, ids: seq<AgentId>): (r: seq<AgentId>)
    ensures forall a :: a in r <==> a in ids && p(a)
  {
    if |ids| == 0 then [] else
      var last := ids[|ids| - 1];
      assert ids == ids[..|ids| - 1] + [last];
      Filtered(p, ids[..|ids| - 1]) + if p(last) then [last] else []
  }

  lemma {:induction false} FilteredAscends(p: AgentId -> bool, ids: seq<AgentId>)
    requires Ascending(ids)
    ensures Ascending(Filtered(p, ids))
  {
    if |ids| > 0 {
      var earlier, last := ids[..|ids| - 1], ids[|ids| - 1];
      assert ids == earlier + [last];
      AscendingLast(earlier, last);
      FilteredAscends(p, earlier);
      AscendingMore(Filtered(p, earlier), last);
    }
  }

  lemma {:induction false} HitEvents(w: World, cfg: Config, ids: seq<AgentId>)
    ensures var caught := Filtered((a: AgentId) => DetectionStep.Detects(w, cfg, a), ids); var ds := DetectionStep.HitDrafts(w, cfg, ids);
      && |ds| == 2 * |caught|
      && forall i | 0 <= i < |caught| ::
           ds[2 * i] == Draft(w.tick, AnomalyDetected(caught[i])) && ds[2 * i + 1] == Draft(w.tick, AgentQuarantined(caught[i], true))
  {
    if |ids| > 0 { HitEvents(w, cfg, ids[..|ids| - 1]); }
  }

  lemma {:induction false} FalseEvents(w: World, cfg: Config, ids: seq<AgentId>)
    ensures var accused := Filtered((a: AgentId) => DetectionStep.FalselyAccuses(w, cfg, a), ids); var ds := DetectionStep.FalseDrafts(w, cfg, ids);
      && |ds| == |accused|
      && forall i | 0 <= i < |accused| :: ds[i] == Draft(w.tick, AgentQuarantined(accused[i], false))
  {
    if |ids| > 0 { FalseEvents(w, cfg, ids[..|ids| - 1]); }
  }

  /** The log of a pass: two events for every agent detected, then one for every agent accused, each
      kind in id order. */
  lemma DetectionLog(w: World, cfg: Config) returns (caught: seq<AgentId>, accused: seq<AgentId>)
    requires cfg.defenseEnabled
    ensures Ascending(caught) && forall a :: a in caught <==> IsDetected(w, cfg, a)
    ensures Ascending(accused) && forall a :: a in accused <==> IsAccused(w, cfg, a)
    ensures var ds := DetectionStep.Step(w, cfg).drafts;
      && |ds| == 2 * |caught| + |accused|
      && (forall i | 0 <= i < |caught| ::
            ds[2 * i] == Draft(w.tick, AnomalyDetected(caught[i])) && ds[2 * i + 1] == Draft(w.tick, AgentQuarantined(caught[i], true)))
      && (forall i | 0 <= i < |accused| :: ds[2 * |caught| + i] == Draft(w.tick, AgentQuarantined(accused[i], false)))
  {
    hide Sorted, IsDetected, IsAccused, DetectionStep.HitDrafts, DetectionStep.FalseDrafts, DetectionStep.Candidates, DetectionStep.Accusable, DetectionStep.Detects, DetectionStep.FalselyAccuses;
    var hits, falses := Sorted(DetectionStep.Candidates(w, cfg)), Sorted(DetectionStep.Accusable(w, cfg));
    var p, q := (a: AgentId) => DetectionStep.Detects(w, cfg, a), (a: AgentId) => DetectionStep.FalselyAccuses(w, cfg, a);
    caught, accused := Filtered(p, hits), Filtered(q, falses);
    FilteredAscends(p, hits);
    FilteredAscends(q, falses);
    HitEvents(w, cfg, hits);
    FalseEvents(w, cfg, falses);
    forall a ensures a in caught <==> IsDetected(w, cfg, a) { CaughtAre(w, cfg, a); }
    forall a ensures a in accused <==> IsAccused(w, cfg, a) { CaughtAre(w, cfg, a); }
  }

  // --- sentinel compromise -----------------------------------------------------------------------------------------

  /** Sentinel i is sound, watches a compromised agent, and its draw is below the rate. */
  ghost predicate FallsNow(w: World, cfg: Config, i: nat) {
    && cfg.sentinelCompromiseRate > 0.0 && i < cfg.sentinelCount && SentinelNode(i) !in w.compromisedGraph
    && (exists a :: a in w.nodes && w.nodes[a].state == Compromised && Before(w, a) % cfg.sentinelCount == i)
    && cfg.draw(w.tick, SentinelDraw(i)) < cfg.sentinelCompromiseRate
  }

  lemma SubvertsIs(w: World, cfg: Config, i: nat)
    requires cfg.sentinelCompromiseRate > 0.0
    ensures i < SecurityPlaneSteps.Sentinels(w, cfg) && SecurityPlaneSteps.Subverts(w, cfg, i) <==> FallsNow(w, cfg, i)
  {
    hide Before, GraphFacts.Monitor;
    if cfg.sentinelCount > 0 {
      forall a | a in w.nodes ensures GraphFacts.Monitor(w, cfg, a) == Before(w, a) % cfg.sentinelCount { MonitorIs(w, cfg, a); }
    }
  }

  /** What a pass of sentinel_compromise adds to the fallen graph nodes; nothing else changes. */
  lemma SentinelTick(w: World, cfg: Config, x: NodeId)
    ensures var v := SecurityPlaneSteps.SentinelStep(w, cfg).world;
      && v.tick == w.tick && v.nodes == w.nodes && v.edges == w.edges
      && (x in v.compromisedGraph <==> x in w.compromisedGraph || (x.SentinelNode? && FallsNow(w, cfg, x.index)))
  {
    hide FallsNow, SecurityPlaneSteps.Subverts, SecurityPlaneSteps.Sentinels;
    if cfg.sentinelCompromiseRate > 0.0 {
      SecurityPlaneSteps.SubvertedMembers(w, cfg, SecurityPlaneSteps.Sentinels(w, cfg), x);
      if x.SentinelNode? { SubvertsIs(w, cfg, x.index); }
    } else if x.SentinelNode? {
      NoneFalls(w, cfg, x.index);
    }
  }

  lemma NoneFalls(w: World, cfg: Config, i: nat)
    requires cfg.sentinelCompromiseRate <= 0.0
    ensures !FallsNow(w, cfg, i)
  {
  }

  function Numbers(n: nat): (ids: seq<nat>)
    ensures |ids| == n && forall i | 0 <= i < n :: ids[i] == i
  {
    seq(n, i => i)
  }

  lemma {:induction false} SubvertEvents(w: World, cfg: Config, n: nat)
    ensures var fallen := Filtered((i: nat) => SecurityPlaneSteps.Subverts(w, cfg, i), Numbers(n)); var ds := SecurityPlaneSteps.SubvertDrafts(w, cfg, n);
      |ds| == |fallen| && forall i | 0 <= i < |fallen| :: ds[i] == Draft(w.tick, PolicyViolation(SentinelNode(fallen[i]), None))
  {
    hide SecurityPlaneSteps.Subverts;
    if n > 0 {
      SubvertEvents(w, cfg, n - 1);
      assert Numbers(n)[..n - 1] == Numbers(n - 1);
    }
  }

  lemma {:induction false} PoisonEvents(w: World, bad: set<NodeId>, n: nat)
    ensures var fallen := Filtered((i: nat) => SentinelNode(i) in bad, Numbers(n)); var ds := SecurityPlaneSteps.PoisonDrafts(w, bad, n);
      |ds| == |fallen| && forall i | 0 <= i < |fallen| :: ds[i] == Draft(w.tick, ThreatSignaturePublished(fallen[i]))
  {
    if n > 0 {
      PoisonEvents(w, bad, n - 1);
      assert Numbers(n)[..n - 1] == Numbers(n - 1);
    }
  }

  /** Its log: a violation for every sentinel that falls now, then a poisoned signature for every one
      that has fallen by now, each kind in order. */
  lemma SentinelLog(w: World, cfg: Config) returns (now: seq<nat>, all: seq<nat>)
    requires cfg.sentinelCompromiseRate > 0.0
    ensures Ascending(now) && forall i: nat :: i in now <==> FallsNow(w, cfg, i)
    ensures Ascending(all)
    ensures forall i: nat :: i in all <==> w.nodes.Keys != {} && i < cfg.sentinelCount && (SentinelNode(i) in w.compromisedGraph || FallsNow(w, cfg, i))
    ensures var ds := SecurityPlaneSteps.SentinelStep(w, cfg).drafts;
      && |ds| == |now| + |all|
      && (forall i | 0 <= i < |now| :: ds[i] == Draft(w.tick, PolicyViolation(SentinelNode(now[i]), None)))
      && (forall i | 0 <= i < |all| :: ds[|now| + i] == Draft(w.tick, ThreatSignaturePublished(all[i])))
  {
    hide FallsNow, SecurityPlaneSteps.Subverts, SecurityPlaneSteps.SubvertDrafts, SecurityPlaneSteps.PoisonDrafts, SecurityPlaneSteps.Subverted;
    var k := SecurityPlaneSteps.Sentinels(w, cfg);
    var bad := w.compromisedGraph + SecurityPlaneSteps.Subverted(w, cfg, k);
    var p, q := (i: nat) => SecurityPlaneSteps.Subverts(w, cfg, i), (i: nat) => SentinelNode(i) in bad;
    now, all := Filtered(p, Numbers(k)), Filtered(q, Numbers(k));
    FilteredAscends(p, Numbers(k));
    FilteredAscends(q, Numbers(k));
    SubvertEvents(w, cfg, k);
    PoisonEvents(w, bad, k);
    forall i: nat ensures i in now <==> FallsNow(w, cfg, i) { NumbersHold(k, i); SubvertsIs(w, cfg, i); }
    forall i: nat ensures i in all <==> w.nodes.Keys != {} && i < cfg.sentinelCount && (SentinelNode(i) in w.compromisedGraph || FallsNow(w, cfg, i)) {
      NumbersHold(k, i);
      SubvertsIs(w, cfg, i);
      SecurityPlaneSteps.SubvertedMembers(w, cfg, k, SentinelNode(i));
    }
  }

  lemma NumbersHold(n: nat, i: nat)
    ensures i in Numbers(n) <==> i < n
  {
    if i < n { assert Numbers(n)[i] == i; }
  }

  // --- attestation ----------------------------------------------------------------------------------------------------

  lemma {:induction false} AttestationEvents(w: World, cfg: Config, ids: seq<AgentId>, i: nat)
    requires i < |ids|
    ensures var ds := SecurityPlaneSteps.AttestationDrafts(w, cfg, ids);
      var stale := cfg.draw(w.tick, AttestationDraw(ids[i])) < cfg.attestationReplayRate;
      var nonce := if stale && w.tick > 0 then w.tick - 1 else w.tick;
      && |ds| == 2 * |ids|
      && ds[2 * i] == Draft(w.tick, AttestationIssued(ids[i], nonce)) && ds[2 * i + 1] == Draft(w.tick, AttestationVerified(ids[i], nonce, stale))
  {
    var n := |ids| - 1;
    if i < n { AttestationEvents(w, cfg, ids[..n], i); } else if n > 0 { AttestationEvents(w, cfg, ids[..n], 0); }
  }

  /** Its log: every compromised agent attests, in id order, with the last tick's nonce if its draw
      is below the replay rate. */
  lemma AttestationLog(w: World, cfg: Config, i: nat)
    requires cfg.attestationReplayRate > 0.0 && cfg.sentinelCount > 0
    ensures SecurityPlaneSteps.AttestationStep(w, cfg).world == w
    ensures var ids := Sorted(CompromisedAgents(w)); var ds := SecurityPlaneSteps.AttestationStep(w, cfg).drafts;
      && |ds| == 2 * |ids|
      && (i < |ids| ==>
            var stale := cfg.draw(w.tick, AttestationDraw(ids[i])) < cfg.attestationReplayRate;
            var nonce := if stale && w.tick > 0 then w.tick - 1 else w.tick;
            ds[2 * i] == Draft(w.tick, AttestationIssued(ids[i], nonce)) && ds[2 * i + 1] == Draft(w.tick, AttestationVerified(ids[i], nonce, stale)))
  {
    hide Sorted;
    var ids := Sorted(CompromisedAgents(w));
    if |ids| > 0 { AttestationEvents(w, cfg, ids, if i < |ids| then i else 0); }
  }

  // --- collusion ------------------------------------------------------------------------------------------------------

  /** a is the holder of credential c: the one at the place drawn for it. */
  predicate HoldsCredential(w: World, cfg: Config, a: AgentId, c: nat) {
    a in w.nodes && Before(w, a) == cfg.pick(CredentialHolder(c)) % |w.nodes|
  }

  /** s and t do not hold c between them, and their draw for it is below the rate. */
  predicate Oversteps(w: World, cfg: Config, s: AgentId, t: AgentId, c: nat) {
    && c < cfg.credentialCount && !HoldsCredential(w, cfg, s, c) && !HoldsCredential(w, cfg, t, c)
    && cfg.draw(w.tick, CollusionDraw(c, s, t)) < cfg.byzantineCollusionRate
  }

  /** c is the first credential the pair oversteps. */
  ghost predicate FirstOverstepped(w: World, cfg: Config, s: AgentId, t: AgentId, c: nat) {
    Oversteps(w, cfg, s, t, c) && forall d: nat | d < c :: !Oversteps(w, cfg, s, t, d)
  }

  lemma HolderIs(w: World, cfg: Config, a: AgentId, c: nat)
    requires a in w.nodes && c < cfg.credentialCount
    ensures SecurityPlaneSteps.Holds(w, cfg, a, c) <==> HoldsCredential(w, cfg, a, c)
  {
    hide Sorted, Before;
    var ids := SecurityGraphs.AgentIds(w);
    PositionIsRank(w, a);
    assert |ids| == |w.nodes.Keys| == |w.nodes|;
    GraphFacts.PositionUnique(ids, cfg.pick(CredentialHolder(c)) % |ids|);
  }

  lemma PairIs(w: World, cfg: Config, s: AgentId, t: AgentId, c: nat)
    requires s in w.nodes && t in w.nodes
    ensures SecurityPlaneSteps.FirstCollusion(w, cfg, s, t) == Some(c) <==> FirstOverstepped(w, cfg, s, t, c)
    ensures SecurityPlaneSteps.FirstCollusion(w, cfg, s, t) == None <==> forall d: nat :: !Oversteps(w, cfg, s, t, d)
  {
    hide HoldsCredential, SecurityPlaneSteps.Holds;
    forall d: nat | d < cfg.credentialCount
      ensures SecurityPlaneSteps.Colludes(w, cfg, s, t, d) <==> Oversteps(w, cfg, s, t, d)
    {
      HolderIs(w, cfg, s, d);
      HolderIs(w, cfg, t, d);
    }
    var p := (d: nat) => SecurityPlaneSteps.Colludes(w, cfg, s, t, d);
    FirstIs(w, cfg, s, t, p, SecurityPlaneSteps.FirstIndex(p, 0, cfg.credentialCount), c);
  }

  lemma FirstIs(w: World, cfg: Config, s: AgentId, t: AgentId, p: nat -> bool, first: Option<nat>, c: nat)
    requires forall d: nat | d < cfg.credentialCount :: p(d) <==> Oversteps(w, cfg, s, t, d)
    requires first.Some? ==> first.value < cfg.credentialCount && p(first.value)
    requires forall d: nat | d < (if first.Some? then first.value else cfg.credentialCount) :: !p(d)
    ensures first == Some(c) <==> FirstOverstepped(w, cfg, s, t, c)
    ensures first == None <==> forall d: nat :: !Oversteps(w, cfg, s, t, d)
  {
    hide HoldsCredential;
    forall d: nat | d >= cfg.credentialCount ensures !Oversteps(w, cfg, s, t, d) {}
    if first.Some? {
      assert Oversteps(w, cfg, s, t, first.value) && FirstOverstepped(w, cfg, s, t, first.value);
    }
  }

  /** The p-th pair of compromised agents, in id order, and the credential they overstep. */
  ghost predicate PairOversteps(w: World, cfg: Config, p: nat, c: nat) {
    var ids := Sorted(CompromisedAgents(w));
    cfg.byzantineCollusionRate > 0.0 && 2 * p + 1 < |ids| && FirstOverstepped(w, cfg, ids[2 * p], ids[2 * p + 1], c)
  }

  /** What a pass of byzantine_collusion adds to the fallen graph nodes; nothing else changes. */
  lemma CollusionTick(w: World, cfg: Config, x: NodeId)
    ensures var v := SecurityPlaneSteps.CollusionStep(w, cfg).world;
      && v.tick == w.tick && v.nodes == w.nodes && v.edges == w.edges
      && (x in v.compromisedGraph <==> x in w.compromisedGraph || (x.CredentialNode? && exists p :: PairOversteps(w, cfg, p, x.index)))
  {
    hide Sorted, FirstOverstepped, SecurityPlaneSteps.FirstCollusion, SecurityPlaneSteps.Overstepped;
    var ids := Sorted(CompromisedAgents(w));
    if cfg.byzantineCollusionRate > 0.0 && |ids| >= 2 {
      SecurityPlaneSteps.OversteppedMembers(w, cfg, ids, |ids| / 2, x);
      forall p: nat | p < |ids| / 2 && x.CredentialNode?
        ensures SecurityPlaneSteps.PairCredential(w, cfg, ids, p) == Some(x.index) <==> PairOversteps(w, cfg, p, x.index)
      {
        CompromisedAt(w, ids, 2 * p);
        CompromisedAt(w, ids, 2 * p + 1);
        PairIs(w, cfg, ids[2 * p], ids[2 * p + 1], x.index);
      }
    }
  }

  lemma CompromisedAt(w: World, ids: seq<AgentId>, i: nat)
    requires ids == Sorted(CompromisedAgents(w)) && i < |ids|
    ensures ids[i] in w.nodes
  {
    assert ids[i] in ids;
  }

  /** The pairs that overstep, in order, each with its credential. */
  function Overstepping(w: World, cfg: Config, ids: seq<AgentId>, pairs: nat): (r: seq<(nat, nat)>)
    requires 2 * pairs <= |ids|
  {
    if pairs == 0 then [] else
      var c := SecurityPlaneSteps.PairCredential(w, cfg, ids, pairs - 1);
      Overstepping(w, cfg, ids, pairs - 1) + if c.Some? then [(pairs - 1, c.value)] else []
  }

  lemma {:induction false} CollusionEvents(w: World, cfg: Config, ids: seq<AgentId>, pairs: nat)
    requires 2 * pairs <= |ids|
    ensures var hits := Overstepping(w, cfg, ids, pairs); var ds := SecurityPlaneSteps.CollusionDrafts(w, cfg, ids, pairs);
      && |ds| == |hits|
      && (forall i | 0 <= i < |hits| :: 2 * hits[i].0 + 1 < |ids| && ds[i] ==
            Draft(w.tick, PolicyViolation(CredentialNode(hits[i].1), Some((ids[2 * hits[i].0], ids[2 * hits[i].0 + 1])))))
      && (forall i, j | 0 <= i < j < |hits| :: hits[i].0 < hits[j].0)
      && (forall p: nat, c: nat :: (p, c) in hits <==> p < pairs && SecurityPlaneSteps.PairCredential(w, cfg, ids, p) == Some(c))
  {
    hide SecurityPlaneSteps.PairCredential;
    if pairs > 0 {
      CollusionEvents(w, cfg, ids, pairs - 1);
      var earlier := Overstepping(w, cfg, ids, pairs - 1);
      forall i | 0 <= i < |earlier| ensures earlier[i].0 < pairs - 1 { assert (earlier[i].0, earlier[i].1) in earlier; }
    }
  }

  /** Its log: one violation for every pair that oversteps, in order. */
  lemma CollusionLog(w: World, cfg: Config) returns (hits: seq<(nat, nat)>)
    requires cfg.byzantineCollusionRate > 0.0
    ensures forall p: nat, c: nat :: (p, c) in hits <==> PairOversteps(w, cfg, p, c)
    ensures forall i, j | 0 <= i < j < |hits| :: hits[i].0 < hits[j].0
    ensures var ids := Sorted(CompromisedAgents(w)); var ds := SecurityPlaneSteps.CollusionStep(w, cfg).drafts;
      && |ds| == |hits|
      && (forall i | 0 <= i < |hits| :: 2 * hits[i].0 + 1 < |ids| && ds[i] ==
            Draft(w.tick, PolicyViolation(CredentialNode(hits[i].1), Some((ids[2 * hits[i].0], ids[2 * hits[i].0 + 1])))))
  {
    hide Sorted, FirstOverstepped, SecurityPlaneSteps.FirstCollusion, SecurityPlaneSteps.CollusionDrafts, Overstepping;
    var ids := Sorted(CompromisedAgents(w));
    hits := Overstepping(w, cfg, ids, |ids| / 2);
    CollusionEvents(w, cfg, ids, |ids| / 2);
    if |ids| < 2 { NoPairs(w, cfg, ids); }
    forall p: nat, c: nat ensures (p, c) in hits <==> PairOversteps(w, cfg, p, c) {
      if 2 * p + 1 < |ids| {
        CompromisedAt(w, ids, 2 * p);
        CompromisedAt(w, ids, 2 * p + 1);
        PairIs(w, cfg, ids[2 * p], ids[2 * p + 1], c);
      }
    }
  }

  lemma NoPairs(w: World, cfg: Config, ids: seq<AgentId>)
    ensures Overstepping(w, cfg, ids, 0) == []
  {
  }
}
