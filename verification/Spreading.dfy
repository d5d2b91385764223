/** One tick of each way to spread, said on the agents, links, rates and draws alone: who falls, to
    whom, and what the log says, event by event. engine/propagation.py,
    scenarios/adaptive_attacker_scenario.py and agents/runtime.py. */
module Spreading {
  import opened Wrappers
  import opened Ordering
  import opened World
  import opened Attempts
  import AdaptiveAttackerStep
  import PropagationStep
  import RealAgentStep

  // --- what a list of attempts becomes -----------------------------------------------------------------

  /** By source, then by target, no pair twice. */
  ghost predicate InOrder(attempts: seq<Attempt>) {
    forall i, j | 0 <= i < j < |attempts| ::
      attempts[i].source < attempts[j].source || (attempts[i].source == attempts[j].source && attempts[i].target < attempts[j].target)
  }

  /** Two events an attempt: the attempt, and how it ended. */
  lemma {:induction false} TwoEventsEach(tick: nat, attempts: seq<Attempt>, i: nat)
    requires i < |attempts|
    ensures |Drafts(tick, attempts)| == 2 * |attempts|
    ensures Drafts(tick, attempts)[2 * i] == Draft(tick, CompromiseAttempted(attempts[i].source, attempts[i].target, attempts[i].probability))
    ensures Drafts(tick, attempts)[2 * i + 1] == Draft(tick,
      if attempts[i].hit then CompromiseSucceeded(Some(attempts[i].source), attempts[i].target, attempts[i].target in Claims(attempts[..i]))
      else CompromiseFailed(attempts[i].source, attempts[i].target, false))
  {
    hide Claims;
    var n := |attempts| - 1;
    if i < n {
      TwoEventsEach(tick, attempts[..n], i);
      assert attempts[..n][..i] == attempts[..i];
    } else if n > 0 {
      TwoEventsEach(tick, attempts[..n], 0);
    }
  }

  lemma ClaimedBefore(attempts: seq<Attempt>, i: nat)
    requires InOrder(attempts) && i < |attempts|
    ensures attempts[i].target in Claims(attempts[..i]) <==>
      exists a :: a in attempts && a.hit && a.target == attempts[i].target && a.source < attempts[i].source
  {
    var t := attempts[i].target;
    ClaimsAreFirstHits(attempts[..i]);
    if t in Claims(attempts[..i]) {
      var j :| 0 <= j < i && attempts[..i][j].hit && attempts[..i][j].target == t;
      assert attempts[j] in attempts;
    }
    if a :| a in attempts && a.hit && a.target == t && a.source < attempts[i].source {
      var j :| 0 <= j < |attempts| && attempts[j] == a;
      assert j < i;
      assert attempts[..i][j].hit && attempts[..i][j].target == t;
    }
  }

  /** An agent after the claims, told from who hit it. */
  lemma AfterClaims(nodes: map<AgentId, Agent>, attempts: seq<Attempt>, tick: nat, t: AgentId)
    requires InOrder(attempts) && t in nodes
    ensures var after := Infect(nodes, Claims(attempts), tick)[t];
      if exists a :: a in attempts && a.hit && a.target == t then
        && after.compromisedBy.Some?
        && after == nodes[t].(state := Compromised, compromisedBy := after.compromisedBy, tickCompromised := Some(tick))
        && (exists a :: a in attempts && a.hit && a.target == t && a.source == after.compromisedBy.value)
        && (forall a | a in attempts && a.hit && a.target == t :: after.compromisedBy.value <= a.source)
      else after == nodes[t]
  {
    LowestSourceWins(attempts, t);
    forall a | a in attempts && a.hit && a.target == t ensures Hits(a, t) {}
    if t in Claims(attempts) {
      var a :| a in attempts && Hits(a, t) && a.source == Claims(attempts)[t];
      assert a.hit && a.target == t;
    }
  }

  lemma OrderedAppend(x: seq<Attempt>, y: seq<Attempt>)
    requires InOrder(x) && InOrder(y) && forall a, b | a in x && b in y :: a.source < b.source
    ensures InOrder(x + y)
  {
    var all := x + y;
    forall i, j | 0 <= i < j < |all|
      ensures all[i].source < all[j].source || (all[i].source == all[j].source && all[i].target < all[j].target)
    {
      if i < |x| && |x| <= j { assert x[i] in x && y[j - |x|] in y; }
    }
  }

  // --- propagation ---------------------------------------------------------------------------------------

  /** s can attack t: linked, s compromised, t healthy, not both model-backed. */
  predicate CanAttack(w: World, s: AgentId, t: AgentId) {
    && s in w.nodes && t in w.nodes && t in w.nodes[s].neighbors
    && w.nodes[s].state == Compromised && w.nodes[t].state == Healthy && !(w.nodes[s].isReal && w.nodes[t].isReal)
  }

  /** And its draw is below the rate for its own kind of software, or for another. */
  predicate Infects(w: World, cfg: Config, s: AgentId, t: AgentId) {
    && CanAttack(w, s, t)
    && ((w.nodes[s].softwareType == w.nodes[t].softwareType && cfg.draw(w.tick, InfectDraw(s, t)) < cfg.pSame)
        || (w.nodes[s].softwareType != w.nodes[t].softwareType && cfg.draw(w.tick, InfectDraw(s, t)) < cfg.pCross))
  }

  lemma PropagationAttempts(w: World, cfg: Config, a: Attempt)
    ensures a in PropagationStep.AllAttempts(w, cfg) <==>
      && CanAttack(w, a.source, a.target)
      && a.probability == (if w.nodes[a.source].softwareType == w.nodes[a.target].softwareType then cfg.pSame else cfg.pCross)
      && (a.hit <==> Infects(w, cfg, a.source, a.target))
  {
    PropagationStep.AttemptsAreTheFrontier(w, cfg);
    if CanAttack(w, a.source, a.target) {
      var made := PropagationStep.MakeAttempt(w, cfg, a.source, a.target);
      assert made.hit <==> Infects(w, cfg, a.source, a.target);
    }
  }

  lemma {:induction false} PropagationRowOrdered(w: World, cfg: Config, s: AgentId, targets: seq<AgentId>)
    requires s in w.nodes && Ascending(targets) && forall t | t in targets :: t in w.nodes
    ensures InOrder(PropagationStep.Row(w, cfg, s, targets))
  {
    hide Probability;
    if |targets| > 0 {
      var earlier, t := targets[..|targets| - 1], targets[|targets| - 1];
      assert targets == earlier + [t];
      AscendingLast(earlier, t);
      PropagationRowOrdered(w, cfg, s, earlier);
      PropagationStep.RowMembers(w, cfg, s, earlier);
      RowGrows(PropagationStep.Row(w, cfg, s, earlier), PropagationStep.MakeAttempt(w, cfg, s, t), s, t);
    }
  }

  lemma RowGrows(row: seq<Attempt>, a: Attempt, s: AgentId, t: AgentId)
    requires InOrder(row) && (forall b | b in row :: b.source == s && b.target < t)
    ensures a.source == s && a.target == t ==> InOrder(row + [a])
  {
    var all := row + [a];
    if a.source == s && a.target == t {
      forall i, j | 0 <= i < j < |all|
        ensures all[i].source < all[j].source || (all[i].source == all[j].source && all[i].target < all[j].target)
      {
        if j == |row| { assert row[i] in row; }
      }
    }
  }

  lemma {:induction false} PropagationOrdered(w: World, cfg: Config, sources: seq<AgentId>)
    requires Ascending(sources) && forall s | s in sources :: s in w.nodes
    ensures InOrder(PropagationStep.Rows(w, cfg, sources))
  {
    if |sources| > 0 {
      var earlier, s := sources[..|sources| - 1], sources[|sources| - 1];
      assert sources == earlier + [s];
      AscendingLast(earlier, s);
      var targets := Sorted(HealthyNeighbors(w, s));
      PropagationOrdered(w, cfg, earlier);
      PropagationRowOrdered(w, cfg, s, targets);
      PropagationStep.RowsMembers(w, cfg, earlier);
      PropagationStep.RowMembers(w, cfg, s, targets);
      OrderedAppend(PropagationStep.Rows(w, cfg, earlier), PropagationStep.Row(w, cfg, s, targets));
    }
  }

  /** Who falls in a tick of propagation, and to whom; nothing else changes but the clock. */
  lemma PropagationTick(w: World, cfg: Config, t: AgentId)
    requires t in w.nodes
    ensures var v := PropagationStep.Step(w, cfg).world;
      && v.tick == w.tick + 1 && v.edges == w.edges && v.compromisedGraph == w.compromisedGraph && v.nodes.Keys == w.nodes.Keys
      && if exists s :: Infects(w, cfg, s, t) then
           && v.nodes[t].compromisedBy.Some?
           && v.nodes[t] == w.nodes[t].(state := Compromised, compromisedBy := v.nodes[t].compromisedBy, tickCompromised := Some(w.tick))
           && Infects(w, cfg, v.nodes[t].compromisedBy.value, t)
           && (forall s | Infects(w, cfg, s, t) :: v.nodes[t].compromisedBy.value <= s)
         else v.nodes[t] == w.nodes[t]
  {
    hide Claims, Infect;
    var attempts := PropagationStep.AllAttempts(w, cfg);
    PropagationOrdered(w, cfg, Sorted(CompromisedAgents(w)));
    AfterClaims(w.nodes, attempts, w.tick, t);
    HitsAre(w, cfg, attempts, t);
  }

  lemma HitsAre(w: World, cfg: Config, attempts: seq<Attempt>, t: AgentId)
    requires attempts == PropagationStep.AllAttempts(w, cfg)
    ensures forall s :: Infects(w, cfg, s, t) <==> exists a :: a in attempts && a.hit && a.target == t && a.source == s
    ensures (exists a :: a in attempts && a.hit && a.target == t) <==> exists s :: Infects(w, cfg, s, t)
  {
    hide PropagationStep.AllAttempts, Infects, CanAttack;
    forall s ensures Infects(w, cfg, s, t) <==> exists a :: a in attempts && a.hit && a.target == t && a.source == s {
      if Infects(w, cfg, s, t) {
        CanAttackIf(w, cfg, s, t);
        var a := Attempt(s, t, if w.nodes[s].softwareType == w.nodes[t].softwareType then cfg.pSame else cfg.pCross, true);
        PropagationAttempts(w, cfg, a);
        assert a in attempts;
      }
      if a :| a in attempts && a.hit && a.target == t && a.source == s { PropagationAttempts(w, cfg, a); }
    }
    if a :| a in attempts && a.hit && a.target == t { assert Infects(w, cfg, a.source, t); }
  }

  lemma CanAttackIf(w: World, cfg: Config, s: AgentId, t: AgentId)
    requires Infects(w, cfg, s, t)
    ensures CanAttack(w, s, t) && s in w.nodes && t in w.nodes
  {
  }

  /** The log of a tick of propagation: the attackable links in order of source and target, two
      events each; the flag says whether a lower-numbered attacker got there first. */
  lemma PropagationLog(w: World, cfg: Config) returns (pairs: seq<(AgentId, AgentId)>)
    ensures forall s: AgentId, t: AgentId :: (s, t) in pairs <==> CanAttack(w, s, t)
    ensures forall i, j | 0 <= i < j < |pairs| :: pairs[i].0 < pairs[j].0 || (pairs[i].0 == pairs[j].0 && pairs[i].1 < pairs[j].1)
    ensures |PropagationStep.Step(w, cfg).drafts| == 2 * |pairs|
    ensures forall i | 0 <= i < |pairs| ::
      PropagationPair(w, cfg, pairs[i].0, pairs[i].1, PropagationStep.Step(w, cfg).drafts[2 * i], PropagationStep.Step(w, cfg).drafts[2 * i + 1])
  {
    hide Claims, Drafts, PropagationStep.AllAttempts, Infects, CanAttack;
    var attempts := PropagationStep.AllAttempts(w, cfg);
    OrderedAll(w, cfg);
    pairs := seq(|attempts|, i requires 0 <= i < |attempts| => (attempts[i].source, attempts[i].target));
    forall s: AgentId, t: AgentId ensures (s, t) in pairs <==> CanAttack(w, s, t) { PairsAre(w, cfg, attempts, pairs, s, t); }
    StepDrafts(w, cfg);
    if |attempts| > 0 { TwoEventsEach(w.tick, attempts, 0); } else { NoDrafts(w.tick); }
    forall i | 0 <= i < |pairs|
      ensures PropagationPair(w, cfg, pairs[i].0, pairs[i].1, PropagationStep.Step(w, cfg).drafts[2 * i], PropagationStep.Step(w, cfg).drafts[2 * i + 1])
    {
      PropagationPairs(w, cfg, attempts, i);
    }
  }

  /** The two events of one attackable link. */
  ghost predicate PropagationPair(w: World, cfg: Config, s: AgentId, t: AgentId, first: Draft, second: Draft) {
    && s in w.nodes && t in w.nodes
    && first == Draft(w.tick, CompromiseAttempted(s, t, if w.nodes[s].softwareType == w.nodes[t].softwareType then cfg.pSame else cfg.pCross))
    && second == Draft(w.tick,
         if Infects(w, cfg, s, t) then CompromiseSucceeded(Some(s), t, exists r: AgentId :: r < s && Infects(w, cfg, r, t)) else CompromiseFailed(s, t, false))
  }

  lemma PropagationPairs(w: World, cfg: Config, attempts: seq<Attempt>, i: nat)
    requires attempts == PropagationStep.AllAttempts(w, cfg) && InOrder(attempts) && i < |attempts|
    ensures |Drafts(w.tick, attempts)| == 2 * |attempts|
    ensures PropagationPair(w, cfg, attempts[i].source, attempts[i].target, Drafts(w.tick, attempts)[2 * i], Drafts(w.tick, attempts)[2 * i + 1])
  {
    hide Claims, Drafts, PropagationStep.AllAttempts, Infects, CanAttack, InOrder;
    var a := attempts[i];
    assert a in attempts;
    PropagationAttempts(w, cfg, a);
    LinkEnds(w, a.source, a.target);
    TwoEventsEach(w.tick, attempts, i);
    ClaimedBefore(attempts, i);
    HitsAre(w, cfg, attempts, a.target);
    if b :| b in attempts && b.hit && b.target == a.target && b.source < a.source { assert Infects(w, cfg, b.source, a.target); }
    if r: AgentId :| r < a.source && Infects(w, cfg, r, a.target) {
      assert exists b :: b in attempts && b.hit && b.target == a.target && b.source == r;
    }
  }

  lemma LinkEnds(w: World, s: AgentId, t: AgentId)
    requires CanAttack(w, s, t)
    ensures s in w.nodes && t in w.nodes
  {
  }

  lemma NoDrafts(tick: nat)
    ensures Drafts(tick, []) == []
  {
  }

  lemma StepDrafts(w: World, cfg: Config)
    ensures PropagationStep.Step(w, cfg).drafts == Drafts(w.tick, PropagationStep.AllAttempts(w, cfg))
  {
  }

  lemma OrderedAll(w: World, cfg: Config)
    ensures InOrder(PropagationStep.AllAttempts(w, cfg))
  {
    PropagationOrdered(w, cfg, Sorted(CompromisedAgents(w)));
  }

  lemma PairsAre(w: World, cfg: Config, attempts: seq<Attempt>, pairs: seq<(AgentId, AgentId)>, s: AgentId, t: AgentId)
    requires attempts == PropagationStep.AllAttempts(w, cfg) && |pairs| == |attempts|
    requires forall i | 0 <= i < |pairs| :: pairs[i] == (attempts[i].source, attempts[i].target)
    ensures (s, t) in pairs <==> CanAttack(w, s, t)
  {
    hide PropagationStep.AllAttempts, Infects, CanAttack;
    if (s, t) in pairs {
      var i :| 0 <= i < |pairs| && pairs[i] == (s, t);
      assert attempts[i] in attempts;
      PropagationAttempts(w, cfg, attempts[i]);
    }
    if CanAttack(w, s, t) {
      LinkEnds(w, s, t);
      var a := Attempt(s, t, if w.nodes[s].softwareType == w.nodes[t].softwareType then cfg.pSame else cfg.pCross, Infects(w, cfg, s, t));
      PropagationAttempts(w, cfg, a);
      var i :| 0 <= i < |attempts| && attempts[i] == a;
      assert pairs[i] == (s, t);
    }
  }

  // --- the adaptive attacker -------------------------------------------------------------------------------

  /** The agents in a state, an attacker on record. */
  function Recorded(w: World, state: SecurityState): set<AgentId> {
    set a | a in w.nodes && w.nodes[a].compromisedBy.Some? && w.nodes[a].state == state
  }

  /** Enough of those whose attacker is on record have been quarantined. */
  predicate GoesQuiet(w: World, cfg: Config) {
    var caught, free := |Recorded(w, Quarantined)|, |Recorded(w, Compromised)|;
    if caught + free > 0 then caught as real >= cfg.adaptiveDetectionThreshold * (caught + free) as real
    else cfg.adaptiveDetectionThreshold <= 0.0
  }

  predicate Exposed(w: World, s: AgentId, t: AgentId) {
    && s in w.nodes && t in w.nodes && t in w.nodes[s].neighbors
    && w.nodes[s].state == Compromised && w.nodes[t].state == Healthy
  }

  /** Of the neighbours exposed to s, the one with the fewest links when it goes quiet and with the
      most otherwise; among equals the lowest-numbered. */
  ghost predicate Chosen(w: World, cfg: Config, s: AgentId, t: AgentId) {
    && Exposed(w, s, t)
    && forall u | Exposed(w, s, u) ::
      && (if GoesQuiet(w, cfg) then |w.nodes[t].neighbors| <= |w.nodes[u].neighbors| else |w.nodes[t].neighbors| >= |w.nodes[u].neighbors|)
      && (|w.nodes[t].neighbors| == |w.nodes[u].neighbors| ==> t <= u)
  }

  ghost predicate Overcomes(w: World, cfg: Config, s: AgentId, t: AgentId) {
    && Chosen(w, cfg, s, t)
    && ((w.nodes[s].softwareType == w.nodes[t].softwareType && cfg.draw(w.tick, AdaptiveDraw(s, t)) < cfg.pSame)
        || (w.nodes[s].softwareType != w.nodes[t].softwareType && cfg.draw(w.tick, AdaptiveDraw(s, t)) < cfg.pCross))
  }

  lemma QuietExactly(w: World, cfg: Config)
    ensures AdaptiveAttackerStep.ChooseStrategy(w, cfg) == AdaptiveAttackerStep.Stealthy <==> GoesQuiet(w, cfg)
  {
    RateMeans(w);
    if |Recorded(w, Quarantined)| + |Recorded(w, Compromised)| > 0 {
      Ratio(|Recorded(w, Quarantined)|, |Recorded(w, Quarantined)| + |Recorded(w, Compromised)|, cfg.adaptiveDetectionThreshold);
    }
  }

  lemma RateMeans(w: World)
    ensures var caught, free := |Recorded(w, Quarantined)|, |Recorded(w, Compromised)|;
      AdaptiveAttackerStep.DetectionRate(w) == if caught + free == 0 then 0.0 else caught as real / (caught + free) as real
  {
    var attacked, caught, free := AdaptiveAttackerStep.Attacked(w), Recorded(w, Quarantined), Recorded(w, Compromised);
    assert caught == set a | a in attacked && w.nodes[a].state == Quarantined;
    assert attacked == caught + free && caught !! free;
    assert |attacked| == |caught| + |free|;
  }

  lemma Ratio(part: nat, total: nat, limit: real)
    requires total > 0
    ensures part as real / total as real >= limit <==> part as real >= limit * total as real
  {
    var x := part as real / total as real;
    assert part as real == x * total as real;
    if x >= limit { assert (x - limit) * total as real >= 0.0; } else { assert (limit - x) * total as real > 0.0; }
  }

  lemma ChosenOnce(w: World, cfg: Config, s: AgentId, t: AgentId, u: AgentId)
    requires Chosen(w, cfg, s, t) && Chosen(w, cfg, s, u)
    ensures t == u
  {
    hide GoesQuiet;
  }

  lemma PreferredIsChosen(w: World, cfg: Config, s: AgentId)
    requires s in w.nodes && w.nodes[s].state == Compromised && HealthyNeighbors(w, s) != {}
    ensures var candidates := Sorted(HealthyNeighbors(w, s));
      |candidates| > 0 && Chosen(w, cfg, s, AdaptiveAttackerStep.Preferred(w, AdaptiveAttackerStep.ChooseStrategy(w, cfg), candidates))
  {
    hide AdaptiveAttackerStep.ChooseStrategy, GoesQuiet, Sorted;
    QuietExactly(w, cfg);
    var candidates := Sorted(HealthyNeighbors(w, s));
    assert |candidates| > 0;
    var best := AdaptiveAttackerStep.Preferred(w, AdaptiveAttackerStep.ChooseStrategy(w, cfg), candidates);
    forall u | Exposed(w, s, u)
      ensures if GoesQuiet(w, cfg) then |w.nodes[best].neighbors| <= |w.nodes[u].neighbors| else |w.nodes[best].neighbors| >= |w.nodes[u].neighbors|
      ensures |w.nodes[best].neighbors| == |w.nodes[u].neighbors| ==> best <= u
    {
      assert u in candidates;
    }
  }

  lemma AdaptiveAttempts(w: World, cfg: Config, a: Attempt)
    ensures a in AdaptiveAttackerStep.AllAttempts(w, cfg) <==>
      && Chosen(w, cfg, a.source, a.target)
      && a.probability == (if w.nodes[a.source].softwareType == w.nodes[a.target].softwareType then cfg.pSame else cfg.pCross)
      && (a.hit <==> Overcomes(w, cfg, a.source, a.target))
  {
    hide GoesQuiet, Sorted, AdaptiveAttackerStep.ChooseStrategy, AdaptiveAttackerStep.Rows;
    var sources := Sorted(CompromisedAgents(w));
    AdaptiveAttackerStep.RowsMembers(w, cfg, sources);
    assert a in AdaptiveAttackerStep.AllAttempts(w, cfg) <==> a.source in sources && AdaptiveAttackerStep.Row(w, cfg, a.source) == [a];
    var s := a.source;
    if Chosen(w, cfg, s, a.target) { assert a.target in HealthyNeighbors(w, s); }
    if s in sources && HealthyNeighbors(w, s) != {} {
      PreferredIsChosen(w, cfg, s);
      var best := AdaptiveAttackerStep.Preferred(w, AdaptiveAttackerStep.ChooseStrategy(w, cfg), Sorted(HealthyNeighbors(w, s)));
      var made := AdaptiveAttackerStep.MakeAttempt(w, cfg, s, best);
      assert AdaptiveAttackerStep.Row(w, cfg, s) == [made];
      assert made.hit <==> Overcomes(w, cfg, s, best);
      if Chosen(w, cfg, s, a.target) { ChosenOnce(w, cfg, s, best, a.target); }
    }
  }

  lemma {:induction false} AdaptiveOrdered(w: World, cfg: Config, sources: seq<AgentId>)
    requires Ascending(sources) && forall s | s in sources :: s in w.nodes
    ensures InOrder(AdaptiveAttackerStep.Rows(w, cfg, sources))
  {
    hide AdaptiveAttackerStep.ChooseStrategy, Sorted, Probability;
    if |sources| > 0 {
      var earlier, s := sources[..|sources| - 1], sources[|sources| - 1];
      assert sources == earlier + [s];
      AscendingLast(earlier, s);
      AdaptiveOrdered(w, cfg, earlier);
      AdaptiveAttackerStep.RowsMembers(w, cfg, earlier);
      OrderedAppend(AdaptiveAttackerStep.Rows(w, cfg, earlier), AdaptiveAttackerStep.Row(w, cfg, s));
    }
  }

  lemma AdaptiveHits(w: World, cfg: Config, attempts: seq<Attempt>, t: AgentId)
    requires attempts == AdaptiveAttackerStep.AllAttempts(w, cfg)
    ensures forall s :: Overcomes(w, cfg, s, t) <==> exists a :: a in attempts && a.hit && a.target == t && a.source == s
    ensures (exists a :: a in attempts && a.hit && a.target == t) <==> exists s :: Overcomes(w, cfg, s, t)
  {
    hide AdaptiveAttackerStep.AllAttempts, Overcomes, Chosen;
    forall s ensures Overcomes(w, cfg, s, t) <==> exists a :: a in attempts && a.hit && a.target == t && a.source == s {
      if Overcomes(w, cfg, s, t) {
        ChosenIf(w, cfg, s, t);
        var a := Attempt(s, t, if w.nodes[s].softwareType == w.nodes[t].softwareType then cfg.pSame else cfg.pCross, true);
        AdaptiveAttempts(w, cfg, a);
        assert a in attempts;
      }
      if a :| a in attempts && a.hit && a.target == t && a.source == s { AdaptiveAttempts(w, cfg, a); }
    }
    if a :| a in attempts && a.hit && a.target == t { assert Overcomes(w, cfg, a.source, t); }
  }

  lemma ChosenIf(w: World, cfg: Config, s: AgentId, t: AgentId)
    requires Overcomes(w, cfg, s, t) || Chosen(w, cfg, s, t)
    ensures Chosen(w, cfg, s, t) && s in w.nodes && t in w.nodes
  {
  }

  /** Who falls in a tick of the adaptive attacker, and to whom. */
  lemma AdaptiveTick(w: World, cfg: Config, t: AgentId)
    requires t in w.nodes
    ensures var v := AdaptiveAttackerStep.Step(w, cfg).world;
      && v.tick == w.tick + 1 && v.edges == w.edges && v.compromisedGraph == w.compromisedGraph && v.nodes.Keys == w.nodes.Keys
      && if exists s :: Overcomes(w, cfg, s, t) then
           && v.nodes[t].compromisedBy.Some?
           && v.nodes[t] == w.nodes[t].(state := Compromised, compromisedBy := v.nodes[t].compromisedBy, tickCompromised := Some(w.tick))
           && Overcomes(w, cfg, v.nodes[t].compromisedBy.value, t)
           && (forall s | Overcomes(w, cfg, s, t) :: v.nodes[t].compromisedBy.value <= s)
         else v.nodes[t] == w.nodes[t]
  {
    hide Claims, Infect, Overcomes, Chosen;
    var attempts := AdaptiveAttackerStep.AllAttempts(w, cfg);
    AdaptiveOrdered(w, cfg, Sorted(CompromisedAgents(w)));
    AfterClaims(w.nodes, attempts, w.tick, t);
    AdaptiveHits(w, cfg, attempts, t);
  }

  /** The two events of one attack. */
  ghost predicate AdaptivePair(w: World, cfg: Config, s: AgentId, t: AgentId, first: Draft, second: Draft) {
    && s in w.nodes && t in w.nodes
    && first == Draft(w.tick, CompromiseAttempted(s, t, if w.nodes[s].softwareType == w.nodes[t].softwareType then cfg.pSame else cfg.pCross))
    && second == Draft(w.tick,
         if Overcomes(w, cfg, s, t) then CompromiseSucceeded(Some(s), t, exists r: AgentId :: r < s && Overcomes(w, cfg, r, t)) else CompromiseFailed(s, t, false))
  }

  lemma AdaptivePairs(w: World, cfg: Config, attempts: seq<Attempt>, i: nat)
    requires attempts == AdaptiveAttackerStep.AllAttempts(w, cfg) && InOrder(attempts) && i < |attempts|
    ensures |Drafts(w.tick, attempts)| == 2 * |attempts| && Chosen(w, cfg, attempts[i].source, attempts[i].target)
    ensures AdaptivePair(w, cfg, attempts[i].source, attempts[i].target, Drafts(w.tick, attempts)[2 * i], Drafts(w.tick, attempts)[2 * i + 1])
  {
    hide Claims, Drafts, AdaptiveAttackerStep.AllAttempts, Overcomes, Chosen, InOrder;
    var a := attempts[i];
    assert a in attempts;
    AdaptiveAttempts(w, cfg, a);
    ChosenIf(w, cfg, a.source, a.target);
    TwoEventsEach(w.tick, attempts, i);
    ClaimedBefore(attempts, i);
    AdaptiveHits(w, cfg, attempts, a.target);
    if b :| b in attempts && b.hit && b.target == a.target && b.source < a.source { assert Overcomes(w, cfg, b.source, a.target); }
    if r: AgentId :| r < a.source && Overcomes(w, cfg, r, a.target) {
      assert exists b :: b in attempts && b.hit && b.target == a.target && b.source == r;
    }
  }

  /** The log of a tick of the adaptive attacker: one attack of every agent with somebody to attack,
      in id order, two events each. */
  lemma AdaptiveLog(w: World, cfg: Config) returns (pairs: seq<(AgentId, AgentId)>)
    ensures forall s: AgentId, t: AgentId :: (s, t) in pairs <==> Chosen(w, cfg, s, t)
    ensures forall i, j | 0 <= i < j < |pairs| :: pairs[i].0 < pairs[j].0
    ensures |AdaptiveAttackerStep.Step(w, cfg).drafts| == 2 * |pairs|
    ensures forall i | 0 <= i < |pairs| :: AdaptivePair(w, cfg, pairs[i].0, pairs[i].1,
      AdaptiveAttackerStep.Step(w, cfg).drafts[2 * i], AdaptiveAttackerStep.Step(w, cfg).drafts[2 * i + 1])
  {
    hide Claims, Drafts, AdaptiveAttackerStep.AllAttempts, Overcomes, Chosen;
    var attempts := AdaptiveAttackerStep.AllAttempts(w, cfg);
    AdaptiveAllOrdered(w, cfg);
    pairs := seq(|attempts|, i requires 0 <= i < |attempts| => (attempts[i].source, attempts[i].target));
    forall s: AgentId, t: AgentId ensures (s, t) in pairs <==> Chosen(w, cfg, s, t) { AdaptivePairsAre(w, cfg, attempts, pairs, s, t); }
    if |attempts| > 0 { TwoEventsEach(w.tick, attempts, 0); } else { NoDrafts(w.tick); }
    forall i | 0 <= i < |pairs|
      ensures AdaptivePair(w, cfg, pairs[i].0, pairs[i].1,
        AdaptiveAttackerStep.Step(w, cfg).drafts[2 * i], AdaptiveAttackerStep.Step(w, cfg).drafts[2 * i + 1])
    {
      AdaptivePairs(w, cfg, attempts, i);
    }
    forall i, j | 0 <= i < j < |pairs| ensures pairs[i].0 < pairs[j].0 {
      AdaptivePairs(w, cfg, attempts, i);
      AdaptivePairs(w, cfg, attempts, j);
      if pairs[i].0 == pairs[j].0 { ChosenOnce(w, cfg, pairs[i].0, pairs[i].1, pairs[j].1); }
    }
  }

  lemma AdaptiveAllOrdered(w: World, cfg: Config)
    ensures InOrder(AdaptiveAttackerStep.AllAttempts(w, cfg))
    ensures AdaptiveAttackerStep.Step(w, cfg).drafts == Drafts(w.tick, AdaptiveAttackerStep.AllAttempts(w, cfg))
  {
    AdaptiveOrdered(w, cfg, Sorted(CompromisedAgents(w)));
  }

  lemma AdaptivePairsAre(w: World, cfg: Config, attempts: seq<Attempt>, pairs: seq<(AgentId, AgentId)>, s: AgentId, t: AgentId)
    requires attempts == AdaptiveAttackerStep.AllAttempts(w, cfg) && |pairs| == |attempts|
    requires forall i | 0 <= i < |pairs| :: pairs[i] == (attempts[i].source, attempts[i].target)
    ensures (s, t) in pairs <==> Chosen(w, cfg, s, t)
  {
    hide AdaptiveAttackerStep.AllAttempts, Overcomes, Chosen;
    if (s, t) in pairs {
      var i :| 0 <= i < |pairs| && pairs[i] == (s, t);
      assert attempts[i] in attempts;
      AdaptiveAttempts(w, cfg, attempts[i]);
    }
    if Chosen(w, cfg, s, t) {
      ChosenIf(w, cfg, s, t);
      var a := Attempt(s, t, if w.nodes[s].softwareType == w.nodes[t].softwareType then cfg.pSame else cfg.pCross, Overcomes(w, cfg, s, t));
      AdaptiveAttempts(w, cfg, a);
      var i :| 0 <= i < |attempts| && attempts[i] == a;
      assert pairs[i] == (s, t);
    }
  }

  // --- the model-driven step ---------------------------------------------------------------------------------

  /** s asks t's model: linked, both model-backed, s compromised, t healthy. */
  predicate Prompts(w: World, s: AgentId, t: AgentId) {
    && s in w.nodes && t in w.nodes && t in w.nodes[s].neighbors
    && w.nodes[s].state == Compromised && w.nodes[t].state == Healthy && w.nodes[s].isReal && w.nodes[t].isReal
  }

  predicate Leaks(w: World, answers: RealAgentStep.Answers, s: AgentId, t: AgentId) {
    Prompts(w, s, t) && answers(s, t) == RealAgentStep.Leaked
  }

  lemma ModelAttempts(w: World, cfg: Config, answers: RealAgentStep.Answers, a: Attempt)
    ensures a in RealAgentStep.AllAttempts(w, cfg, answers) <==>
      && Prompts(w, a.source, a.target)
      && a.probability == (if w.nodes[a.source].softwareType == w.nodes[a.target].softwareType then cfg.pSame else cfg.pCross)
      && (a.hit <==> Leaks(w, answers, a.source, a.target))
  {
    RealAgentStep.AttemptsAreRealEdges(w, cfg, answers);
    if Prompts(w, a.source, a.target) {
      var made := RealAgentStep.MakeAttempt(w, cfg, answers, a.source, a.target);
      assert made.hit <==> Leaks(w, answers, a.source, a.target);
    }
  }

  lemma {:induction false} ModelRowOrdered(w: World, cfg: Config, answers: RealAgentStep.Answers, s: AgentId, targets: seq<AgentId>)
    requires s in w.nodes && Ascending(targets) && forall t | t in targets :: t in w.nodes
    ensures InOrder(RealAgentStep.Row(w, cfg, answers, s, targets))
  {
    hide Probability;
    if |targets| > 0 {
      var earlier, t := targets[..|targets| - 1], targets[|targets| - 1];
      assert targets == earlier + [t];
      AscendingLast(earlier, t);
      ModelRowOrdered(w, cfg, answers, s, earlier);
      RealAgentStep.RowMembers(w, cfg, answers, s, earlier);
      RowGrows(RealAgentStep.Row(w, cfg, answers, s, earlier), RealAgentStep.MakeAttempt(w, cfg, answers, s, t), s, t);
    }
  }

  lemma {:induction false} ModelOrdered(w: World, cfg: Config, answers: RealAgentStep.Answers, sources: seq<AgentId>)
    requires Ascending(sources) && forall s | s in sources :: s in w.nodes
    ensures InOrder(RealAgentStep.Rows(w, cfg, answers, sources))
  {
    if |sources| > 0 {
      var earlier, s := sources[..|sources| - 1], sources[|sources| - 1];
      assert sources == earlier + [s];
      AscendingLast(earlier, s);
      var targets := Sorted(RealAgentStep.RealTargets(w, s));
      ModelOrdered(w, cfg, answers, earlier);
      ModelRowOrdered(w, cfg, answers, s, targets);
      RealAgentStep.RowsMembers(w, cfg, answers, earlier);
      RealAgentStep.RowMembers(w, cfg, answers, s, targets);
      OrderedAppend(RealAgentStep.Rows(w, cfg, answers, earlier), RealAgentStep.Row(w, cfg, answers, s, targets));
    }
  }

  lemma ModelAllOrdered(w: World, cfg: Config, answers: RealAgentStep.Answers)
    ensures InOrder(RealAgentStep.AllAttempts(w, cfg, answers))
  {
    ModelOrdered(w, cfg, answers, Sorted(RealAgentStep.RealSources(w)));
  }

  lemma ModelHits(w: World, cfg: Config, answers: RealAgentStep.Answers, attempts: seq<Attempt>, t: AgentId)
    requires attempts == RealAgentStep.AllAttempts(w, cfg, answers)
    ensures forall s :: Leaks(w, answers, s, t) <==> exists a :: a in attempts && a.hit && a.target == t && a.source == s
    ensures (exists a :: a in attempts && a.hit && a.target == t) <==> exists s :: Leaks(w, answers, s, t)
  {
    hide RealAgentStep.AllAttempts, Leaks, Prompts;
    forall s ensures Leaks(w, answers, s, t) <==> exists a :: a in attempts && a.hit && a.target == t && a.source == s {
      if Leaks(w, answers, s, t) {
        PromptsIf(w, answers, s, t);
        var a := Attempt(s, t, if w.nodes[s].softwareType == w.nodes[t].softwareType then cfg.pSame else cfg.pCross, true);
        ModelAttempts(w, cfg, answers, a);
        assert a in attempts;
      }
      if a :| a in attempts && a.hit && a.target == t && a.source == s { ModelAttempts(w, cfg, answers, a); }
    }
    if a :| a in attempts && a.hit && a.target == t { assert Leaks(w, answers, a.source, t); }
  }

  lemma PromptsIf(w: World, answers: RealAgentStep.Answers, s: AgentId, t: AgentId)
    requires Leaks(w, answers, s, t) || Prompts(w, s, t)
    ensures Prompts(w, s, t) && s in w.nodes && t in w.nodes
  {
  }

  /** Who falls in a round of model answers, and to whom. The clock stands still; the graph nodes
      that had fallen are forgotten as soon as anybody falls. */
  lemma ModelTick(w: World, cfg: Config, answers: RealAgentStep.Answers, t: AgentId)
    requires t in w.nodes
    ensures var v := RealAgentStep.Step(w, cfg, answers).world;
      && v.tick == w.tick && v.edges == w.edges && v.nodes.Keys == w.nodes.Keys
      && v.compromisedGraph == (if exists s, u :: Leaks(w, answers, s, u) then {} else w.compromisedGraph)
      && if exists s :: Leaks(w, answers, s, t) then
           && v.nodes[t].compromisedBy.Some?
           && v.nodes[t] == w.nodes[t].(state := Compromised, compromisedBy := v.nodes[t].compromisedBy, tickCompromised := Some(w.tick))
           && Leaks(w, answers, v.nodes[t].compromisedBy.value, t)
           && (forall s | Leaks(w, answers, s, t) :: v.nodes[t].compromisedBy.value <= s)
         else v.nodes[t] == w.nodes[t]
  {
    hide Infect, Leaks, Prompts, Claims;
    var attempts := RealAgentStep.AllAttempts(w, cfg, answers);
    ModelAllOrdered(w, cfg, answers);
    AfterClaims(w.nodes, attempts, w.tick, t);
    ModelHits(w, cfg, answers, attempts, t);
    ClaimsAreFirstHits(attempts);
    NobodyFalls(w, cfg, answers, attempts);
  }

  lemma NobodyFalls(w: World, cfg: Config, answers: RealAgentStep.Answers, attempts: seq<Attempt>)
    requires attempts == RealAgentStep.AllAttempts(w, cfg, answers)
    ensures Claims(attempts).Keys == {} <==> !exists s, u :: Leaks(w, answers, s, u)
  {
    hide RealAgentStep.AllAttempts, Leaks, Prompts, Claims;
    ClaimsAreFirstHits(attempts);
    if s, u :| Leaks(w, answers, s, u) {
      ModelHits(w, cfg, answers, attempts, u);
      var a :| a in attempts && a.hit && a.target == u;
      var i :| 0 <= i < |attempts| && attempts[i] == a;
      assert u in Claims(attempts);
    }
    if Claims(attempts).Keys != {} {
      var u :| u in Claims(attempts);
      var i :| 0 <= i < |attempts| && attempts[i].hit && attempts[i].target == u;
      assert attempts[i] in attempts;
      ModelHits(w, cfg, answers, attempts, u);
    }
  }

  function Flatten(blocks: seq<seq<Draft>>): seq<Draft> {
    if |blocks| == 0 then [] else Flatten(blocks[..|blocks| - 1]) + blocks[|blocks| - 1]
  }

  /** What the log says of one request. */
  ghost predicate ModelBlock(w: World, cfg: Config, answers: RealAgentStep.Answers, s: AgentId, t: AgentId, block: seq<Draft>) {
    && s in w.nodes && t in w.nodes
    && var p := if w.nodes[s].softwareType == w.nodes[t].softwareType then cfg.pSame else cfg.pCross;
    match answers(s, t)
    case NoResponse => block == [Draft(w.tick, CompromiseFailed(s, t, true))]
    case Held =>
      block == [Draft(w.tick, ModelRequested(s, t)), Draft(w.tick, ModelResponded(t)),
                Draft(w.tick, CompromiseAttempted(s, t, p)), Draft(w.tick, CompromiseFailed(s, t, false))]
    case Leaked =>
      block == [Draft(w.tick, ModelRequested(s, t)), Draft(w.tick, ModelResponded(t)),
                Draft(w.tick, CompromiseAttempted(s, t, p)), Draft(w.tick, ToolExecuted(t)),
                Draft(w.tick, CompromiseSucceeded(Some(s), t, exists r: AgentId :: r < s && Leaks(w, answers, r, t)))]
  }

  function Blocks(tick: nat, answers: RealAgentStep.Answers, attempts: seq<Attempt>): seq<seq<Draft>> {
    seq(|attempts|, i requires 0 <= i < |attempts| =>
      RealAgentStep.AnswerDrafts(tick, attempts[i], answers(attempts[i].source, attempts[i].target), attempts[i].target in Claims(attempts[..i])))
  }

  lemma {:induction false} ModelDraftsAreBlocks(tick: nat, answers: RealAgentStep.Answers, attempts: seq<Attempt>)
    ensures RealAgentStep.ModelDrafts(tick, answers, attempts) == Flatten(Blocks(tick, answers, attempts))
  {
    hide Claims, RealAgentStep.AnswerDrafts;
    if |attempts| > 0 {
      var n := |attempts| - 1;
      ModelDraftsAreBlocks(tick, answers, attempts[..n]);
      assert forall i | 0 <= i < n :: attempts[..n][..i] == attempts[..i];
      assert Blocks(tick, answers, attempts)[..n] == Blocks(tick, answers, attempts[..n]);
    }
  }

  lemma ModelBlockIs(w: World, cfg: Config, answers: RealAgentStep.Answers, attempts: seq<Attempt>, i: nat)
    requires attempts == RealAgentStep.AllAttempts(w, cfg, answers) && InOrder(attempts) && i < |attempts|
    ensures ModelBlock(w, cfg, answers, attempts[i].source, attempts[i].target, Blocks(w.tick, answers, attempts)[i])
  {
    hide Claims, RealAgentStep.AllAttempts, Leaks, Prompts, InOrder;
    var a := attempts[i];
    assert a in attempts;
    ModelAttempts(w, cfg, answers, a);
    PromptsIf(w, answers, a.source, a.target);
    ClaimedBefore(attempts, i);
    ModelHits(w, cfg, answers, attempts, a.target);
    if b :| b in attempts && b.hit && b.target == a.target && b.source < a.source { assert Leaks(w, answers, b.source, a.target); }
    if r: AgentId :| r < a.source && Leaks(w, answers, r, a.target) {
      assert exists b :: b in attempts && b.hit && b.target == a.target && b.source == r;
    }
  }

  /** The log of a round: one block a request, in order of source and target, whatever order the
      answers came in. */
  lemma ModelLog(w: World, cfg: Config, answers: RealAgentStep.Answers) returns (pairs: seq<(AgentId, AgentId)>, blocks: seq<seq<Draft>>)
    ensures forall s: AgentId, t: AgentId :: (s, t) in pairs <==> Prompts(w, s, t)
    ensures forall i, j | 0 <= i < j < |pairs| :: pairs[i].0 < pairs[j].0 || (pairs[i].0 == pairs[j].0 && pairs[i].1 < pairs[j].1)
    ensures |blocks| == |pairs| && RealAgentStep.Step(w, cfg, answers).drafts == Flatten(blocks)
    ensures forall i | 0 <= i < |pairs| :: ModelBlock(w, cfg, answers, pairs[i].0, pairs[i].1, blocks[i])
  {
    hide Claims, RealAgentStep.AllAttempts, Leaks, Prompts, ModelBlock;
    var attempts := RealAgentStep.AllAttempts(w, cfg, answers);
    ModelAllOrdered(w, cfg, answers);
    ModelDraftsAreBlocks(w.tick, answers, attempts);
    blocks := Blocks(w.tick, answers, attempts);
    pairs := seq(|attempts|, i requires 0 <= i < |attempts| => (attempts[i].source, attempts[i].target));
    forall s: AgentId, t: AgentId ensures (s, t) in pairs <==> Prompts(w, s, t) { ModelPairsAre(w, cfg, answers, attempts, pairs, s, t); }
    forall i | 0 <= i < |pairs| ensures ModelBlock(w, cfg, answers, pairs[i].0, pairs[i].1, blocks[i]) {
      ModelBlockIs(w, cfg, answers, attempts, i);
    }
  }

  lemma ModelPairsAre(w: World, cfg: Config, answers: RealAgentStep.Answers, attempts: seq<Attempt>, pairs: seq<(AgentId, AgentId)>, s: AgentId, t: AgentId)
    requires attempts == RealAgentStep.AllAttempts(w, cfg, answers) && |pairs| == |attempts|
    requires forall i | 0 <= i < |pairs| :: pairs[i] == (attempts[i].source, attempts[i].target)
    ensures (s, t) in pairs <==> Prompts(w, s, t)
  {
    hide RealAgentStep.AllAttempts, Leaks, Prompts;
    if (s, t) in pairs {
      var i :| 0 <= i < |pairs| && pairs[i] == (s, t);
      assert attempts[i] in attempts;
      ModelAttempts(w, cfg, answers, attempts[i]);
    }
    if Prompts(w, s, t) {
      PromptsIf(w, answers, s, t);
      var a := Attempt(s, t, if w.nodes[s].softwareType == w.nodes[t].softwareType then cfg.pSame else cfg.pCross, Leaks(w, answers, s, t));
      ModelAttempts(w, cfg, answers, a);
      var i :| 0 <= i < |attempts| && attempts[i] == a;
      assert pairs[i] == (s, t);
    }
  }
}
