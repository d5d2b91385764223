/** backend/app/scenarios/adaptive_attacker_scenario.py: one attempt per source per tick,
    on the best- or least-connected healthy neighbour depending on the quarantine rate. */
module AdaptiveAttackerStep {
  import opened Wrappers
  import opened Ordering
  import opened World
  import opened Attempts

  datatype Strategy = Stealthy | Aggressive

  function Attacked(w: World): set<AgentId> {
    set a | a in w.nodes && w.nodes[a].compromisedBy.Some? && w.nodes[a].state in {Compromised, Quarantined}
  }

  function DetectionRate(w: World): real {
    var attacked := Attacked(w);
    if attacked == {} then 0.0 else
      |set a | a in attacked && w.nodes[a].state == Quarantined| as real / |attacked| as real
  }

  function ChooseStrategy(w: World, cfg: Config): Strategy {
    if DetectionRate(w) >= cfg.adaptiveDetectionThreshold then Stealthy else Aggressive
  }

  /** Strictly preferred on degree alone; ties are left to the id order. */
  predicate Prefers(w: World, strategy: Strategy, a: AgentId, b: AgentId)
    requires a in w.nodes && b in w.nodes
  {
    if strategy == Aggressive then |w.nodes[a].neighbors| > |w.nodes[b].neighbors|
    else |w.nodes[a].neighbors| < |w.nodes[b].neighbors|
  }

  /** An optimal degree, and the lowest id among those. */
  ghost predicate First(w: World, strategy: Strategy, candidates: seq<AgentId>, best: AgentId)
    requires forall c | c in candidates :: c in w.nodes
    requires best in w.nodes
  {
    && (forall c | c in candidates :: !Prefers(w, strategy, c, best))
    && (forall c | c in candidates :: c < best ==> Prefers(w, strategy, best, c))
  }

  lemma FirstAlone(w: World, strategy: Strategy, c: AgentId)
    requires c in w.nodes
    ensures First(w, strategy, [c], c)
  {
  }

  lemma FirstNext(w: World, strategy: Strategy, earlier: seq<AgentId>, last: AgentId, best: AgentId)
    requires forall c | c in earlier + [last] :: c in w.nodes
    requires best in earlier && best in w.nodes && last in w.nodes && First(w, strategy, earlier, best)
    requires forall c | c in earlier :: c < last
    ensures First(w, strategy, earlier + [last], if Prefers(w, strategy, last, best) then last else best)
  {
  }

  /** `sorted(candidates, key=(±degree, id))[0]`: an optimal degree, lowest id on a tie. */
  function Preferred(w: World, strategy: Strategy, candidates: seq<AgentId>): (best: AgentId)
    requires |candidates| > 0 && Ascending(candidates)
    requires forall c | c in candidates :: c in w.nodes
    ensures best in candidates && First(w, strategy, candidates, best)
  {
    hide First, Prefers, Ascending;
    var last := candidates[|candidates| - 1];
    if |candidates| == 1 then
      assert candidates == [last];
      FirstAlone(w, strategy, last);
      last
    else
      var earlier := candidates[..|candidates| - 1];
      assert candidates == earlier + [last];
      AscendingLast(earlier, last);
      var best := Preferred(w, strategy, earlier);
      FirstNext(w, strategy, earlier, last, best);
      if Prefers(w, strategy, last, best) then last else best
  }

  function MakeAttempt(w: World, cfg: Config, source: AgentId, target: AgentId): Attempt
    requires source in w.nodes && target in w.nodes
  {
    var p := Probability(w, cfg, source, target);
    Attempt(source, target, p, cfg.draw(w.tick, AdaptiveDraw(source, target)) < p)
  }

  function Row(w: World, cfg: Config, source: AgentId): seq<Attempt>
    requires source in w.nodes
  {
    var candidates := Sorted(HealthyNeighbors(w, source));
    if |candidates| == 0 then [] else
      var target := Preferred(w, ChooseStrategy(w, cfg), candidates);
      [MakeAttempt(w, cfg, source, target)]
  }

  function Rows(w: World, cfg: Config, sources: seq<AgentId>): seq<Attempt>
    requires forall s | s in sources :: s in w.nodes
  {
    if |sources| == 0 then [] else
      var s := sources[|sources| - 1];
      assert s in sources;
      Rows(w, cfg, sources[..|sources| - 1]) + Row(w, cfg, s)
  }

  function AllAttempts(w: World, cfg: Config): seq<Attempt> {
    Rows(w, cfg, Sorted(CompromisedAgents(w)))
  }

  function Step(w: World, cfg: Config): StepResult {
    var attempts := AllAttempts(w, cfg);
    StepResult(
      World(w.tick + 1, Infect(w.nodes, Claims(attempts), w.tick), w.edges, w.compromisedGraph),
      Drafts(w.tick, attempts))
  }

  lemma {:induction false} RowsMembers(w: World, cfg: Config, sources: seq<AgentId>)
    requires forall s | s in sources :: s in w.nodes
    ensures forall a :: a in Rows(w, cfg, sources) <==> a.source in sources && Row(w, cfg, a.source) == [a]
  {
    if |sources| > 0 {
      RowsMembers(w, cfg, sources[..|sources| - 1]);
      assert sources == sources[..|sources| - 1] + [sources[|sources| - 1]];
    }
  }

  /** Every attempt leaves a compromised agent for one of its healthy neighbours, the one
      the current strategy ranks first, and every agent with such a neighbour attacks. */
  lemma AttemptsFollowStrategy(w: World, cfg: Config)
    ensures forall a | a in AllAttempts(w, cfg) ::
      && a.source in CompromisedAgents(w) && a.target in HealthyNeighbors(w, a.source)
      && (forall t | t in HealthyNeighbors(w, a.source) :: !Prefers(w, ChooseStrategy(w, cfg), t, a.target))
      && (forall t | t in HealthyNeighbors(w, a.source) && t < a.target :: Prefers(w, ChooseStrategy(w, cfg), a.target, t))
    ensures forall s | s in CompromisedAgents(w) && HealthyNeighbors(w, s) != {} ::
      exists a :: a in AllAttempts(w, cfg) && a.source == s
  {
    RowsMembers(w, cfg, Sorted(CompromisedAgents(w)));
    forall s | s in CompromisedAgents(w) && HealthyNeighbors(w, s) != {}
      ensures exists a :: a in AllAttempts(w, cfg) && a.source == s
    {
      assert Row(w, cfg, s)[0] in AllAttempts(w, cfg);
    }
  }

  lemma {:induction false} RowsOrdered(w: World, cfg: Config, sources: seq<AgentId>)
    requires Ascending(sources) && forall s | s in sources :: s in w.nodes
    ensures SourcesAscend(Rows(w, cfg, sources))
  {
    if |sources| > 0 {
      var earlier, s := sources[..|sources| - 1], sources[|sources| - 1];
      assert s in sources && forall x | x in earlier :: x in sources;
      RowsOrdered(w, cfg, earlier);
      RowsMembers(w, cfg, earlier);
      RowsAscend(Rows(w, cfg, earlier), Row(w, cfg, s), s);
    }
  }

  /** Of the attackers that chose an agent and succeeded, the lowest-numbered one is recorded. */
  lemma ClaimMeaning(w: World, cfg: Config, t: AgentId)
    ensures t in Claims(AllAttempts(w, cfg)) <==> exists a :: a in AllAttempts(w, cfg) && Hits(a, t)
    ensures t in Claims(AllAttempts(w, cfg)) ==>
      && (exists a :: a in AllAttempts(w, cfg) && Hits(a, t) && a.source == Claims(AllAttempts(w, cfg))[t])
      && (forall a | a in AllAttempts(w, cfg) && Hits(a, t) :: Claims(AllAttempts(w, cfg))[t] <= a.source)
  {
    RowsOrdered(w, cfg, Sorted(CompromisedAgents(w)));
    LowestSourceWins(AllAttempts(w, cfg), t);
  }

  lemma ClaimedTargets(w: World, cfg: Config)
    ensures Claims(AllAttempts(w, cfg)).Keys <= w.nodes.Keys
    ensures forall t | t in Claims(AllAttempts(w, cfg)) ::
      Claims(AllAttempts(w, cfg))[t] in CompromisedAgents(w) && t in HealthyNeighbors(w, Claims(AllAttempts(w, cfg))[t])
  {
    var attempts := AllAttempts(w, cfg);
    AttemptsFollowStrategy(w, cfg);
    ClaimsAreFirstHits(attempts);
    forall t | t in Claims(attempts)
      ensures Claims(attempts)[t] in CompromisedAgents(w) && t in HealthyNeighbors(w, Claims(attempts)[t])
    {
      var i :| 0 <= i < |attempts| && attempts[i].hit && attempts[i].target == t && attempts[i].source == Claims(attempts)[t];
      assert attempts[i] in attempts;
    }
  }

  lemma RowsExtend(w: World, cfg: Config, sources: seq<AgentId>, i: nat)
    requires forall s | s in sources :: s in w.nodes
    requires i < |sources|
    ensures Rows(w, cfg, sources[..i + 1]) == Rows(w, cfg, sources[..i]) + Row(w, cfg, sources[i])
  {
    assert sources[..i + 1][..i] == sources[..i];
  }

  /** One source's single attempt: the body of the loop of `step`. */
  method AttackOnce(w: World, cfg: Config, source: AgentId, target: AgentId,
                    drafts0: seq<Draft>, claims0: map<AgentId, AgentId>, ghost before: seq<Attempt>)
    returns (drafts: seq<Draft>, claims: map<AgentId, AgentId>)
    requires source in w.nodes && target in w.nodes
    requires drafts0 == Drafts(w.tick, before) && claims0 == Claims(before)
    ensures drafts == Drafts(w.tick, before + [MakeAttempt(w, cfg, source, target)])
    ensures claims == Claims(before + [MakeAttempt(w, cfg, source, target)])
  {
    drafts, claims := drafts0, claims0;
    var p := Probability(w, cfg, source, target);
    var draw := cfg.draw(w.tick, AdaptiveDraw(source, target));
    Extend(w.tick, before, MakeAttempt(w, cfg, source, target));
    drafts := drafts + [Draft(w.tick, CompromiseAttempted(source, target, p))];
    if draw < p {
      var alreadyClaimed := target in claims;
      if !alreadyClaimed {
        claims := claims[target := source];
      }
      drafts := drafts + [Draft(w.tick, CompromiseSucceeded(Some(source), target, alreadyClaimed))];
    } else {
      drafts := drafts + [Draft(w.tick, CompromiseFailed(source, target, false))];
    }
  }

  /** The loop of `step` over the sorted sources. */
  method AttackRows(w: World, cfg: Config, sources: seq<AgentId>)
    returns (drafts: seq<Draft>, claims: map<AgentId, AgentId>)
    requires forall s | s in sources :: s in w.nodes
    ensures drafts == Drafts(w.tick, Rows(w, cfg, sources))
    ensures claims == Claims(Rows(w, cfg, sources))
  {
    var strategy := ChooseStrategy(w, cfg);
    drafts, claims := [], map[];
    for i := 0 to |sources|
      invariant drafts == Drafts(w.tick, Rows(w, cfg, sources[..i]))
      invariant claims == Claims(Rows(w, cfg, sources[..i]))
    {
      var source := sources[i];
      var candidates := Sorted(HealthyNeighbors(w, source));
      RowsExtend(w, cfg, sources, i);
      if |candidates| == 0 {
        assert Rows(w, cfg, sources[..i + 1]) == Rows(w, cfg, sources[..i]);
        continue;
      }
      var target := Preferred(w, strategy, candidates);
      drafts, claims := AttackOnce(w, cfg, source, target, drafts, claims, Rows(w, cfg, sources[..i]));
    }
    assert sources[..|sources|] == sources;
  }

  method Advance(w: World, cfg: Config) returns (r: StepResult)
    ensures r == Step(w, cfg)
  {
    var drafts, claims := AttackRows(w, cfg, Sorted(CompromisedAgents(w)));
    ClaimedTargets(w, cfg);
    var newNodes := ApplyClaims(w.nodes, claims, w.tick);
    r := StepResult(World(w.tick + 1, newNodes, w.edges, w.compromisedGraph), drafts);
  }
}
