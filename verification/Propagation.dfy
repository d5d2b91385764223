/** backend/app/engine/propagation.py: every compromised agent tries every healthy neighbour. */
module PropagationStep {
  import opened Wrappers
  import opened Ordering
  import opened World
  import opened Attempts

  /** A real-real edge belongs to the model-driven step alone. */
  predicate Skipped(w: World, source: AgentId, target: AgentId)
    requires source in w.nodes && target in w.nodes
  {
    w.nodes[source].isReal && w.nodes[target].isReal
  }

  function MakeAttempt(w: World, cfg: Config, source: AgentId, target: AgentId): Attempt
    requires source in w.nodes && target in w.nodes
  {
    var p := Probability(w, cfg, source, target);
    Attempt(source, target, p, cfg.draw(w.tick, InfectDraw(source, target)) < p)
  }

  function Row(w: World, cfg: Config, source: AgentId, targets: seq<AgentId>): seq<Attempt>
    requires source in w.nodes && forall t | t in targets :: t in w.nodes
  {
    if |targets| == 0 then [] else
      var t := targets[|targets| - 1];
      assert t in targets;
      var earlier := Row(w, cfg, source, targets[..|targets| - 1]);
      if Skipped(w, source, t) then earlier else earlier + [MakeAttempt(w, cfg, source, t)]
  }

  function Rows(w: World, cfg: Config, sources: seq<AgentId>): seq<Attempt>
    requires forall s | s in sources :: s in w.nodes
  {
    if |sources| == 0 then [] else
      var s := sources[|sources| - 1];
      assert s in sources;
      Rows(w, cfg, sources[..|sources| - 1]) + Row(w, cfg, s, Sorted(HealthyNeighbors(w, s)))
  }

  function AllAttempts(w: World, cfg: Config): seq<Attempt> {
    Rows(w, cfg, Sorted(CompromisedAgents(w)))
  }

  function Step(w: World, cfg: Config): StepResult {
    var attempts := AllAttempts(w, cfg);
    StepResult(
      World(w.tick + 1, Infect(w.nodes, Claims(attempts), w.tick), w.edges, w.compromisedGraph),
      Drafts(w.tick, attempts))
  }

  /** An attempt runs along a topology edge from a compromised agent to a healthy one,
      at most one of the two being model-backed. */
  ghost predicate Eligible(w: World, a: Attempt) {
    && a.source in w.nodes && w.nodes[a.source].state == Compromised
    && a.target in w.nodes && w.nodes[a.target].state == Healthy
    && a.target in w.nodes[a.source].neighbors
  }

  lemma {:induction false} RowMembers(w: World, cfg: Config, source: AgentId, targets: seq<AgentId>)
    requires source in w.nodes && forall t | t in targets :: t in w.nodes
    ensures forall a :: a in Row(w, cfg, source, targets) <==>
      a.source == source && a.target in targets && !Skipped(w, source, a.target) && a == MakeAttempt(w, cfg, source, a.target)
  {
    if |targets| > 0 {
      RowMembers(w, cfg, source, targets[..|targets| - 1]);
      assert targets == targets[..|targets| - 1] + [targets[|targets| - 1]];
    }
  }

  lemma {:induction false} RowsMembers(w: World, cfg: Config, sources: seq<AgentId>)
    requires forall s | s in sources :: s in w.nodes
    ensures forall a :: a in Rows(w, cfg, sources) <==>
      && a.source in sources && a.target in HealthyNeighbors(w, a.source)
      && !Skipped(w, a.source, a.target) && a == MakeAttempt(w, cfg, a.source, a.target)
  {
    if |sources| > 0 {
      var s := sources[|sources| - 1];
      assert s in sources;
      RowsMembers(w, cfg, sources[..|sources| - 1]);
      RowMembers(w, cfg, s, Sorted(HealthyNeighbors(w, s)));
      assert sources == sources[..|sources| - 1] + [s];
    }
  }

  /** Exactly the compromised-to-healthy edges are attacked, real-real ones excepted. */
  lemma AttemptsAreTheFrontier(w: World, cfg: Config)
    ensures forall a :: a in AllAttempts(w, cfg) <==>
      Eligible(w, a) && !Skipped(w, a.source, a.target) && a == MakeAttempt(w, cfg, a.source, a.target)
  {
    RowsMembers(w, cfg, Sorted(CompromisedAgents(w)));
  }

  /** Every claim comes from an eligible attempt. */
  lemma ClaimedTargets(w: World, cfg: Config)
    ensures Claims(AllAttempts(w, cfg)).Keys <= w.nodes.Keys
    ensures forall t | t in Claims(AllAttempts(w, cfg)) ::
      Eligible(w, Attempt(Claims(AllAttempts(w, cfg))[t], t, 0.0, true))
  {
    var attempts := AllAttempts(w, cfg);
    AttemptsAreTheFrontier(w, cfg);
    ClaimsAreFirstHits(attempts);
    forall t | t in Claims(attempts)
      ensures Eligible(w, Attempt(Claims(attempts)[t], t, 0.0, true))
    {
      var i :| 0 <= i < |attempts| && attempts[i].hit && attempts[i].target == t && attempts[i].source == Claims(attempts)[t];
      assert attempts[i] in attempts;
    }
  }

  lemma {:induction false} RowsOrdered(w: World, cfg: Config, sources: seq<AgentId>)
    requires Ascending(sources) && forall s | s in sources :: s in w.nodes
    ensures SourcesAscend(Rows(w, cfg, sources))
  {
    if |sources| > 0 {
      var earlier, s := sources[..|sources| - 1], sources[|sources| - 1];
      assert s in sources && forall x | x in earlier :: x in sources;
      RowsOrdered(w, cfg, earlier);
      RowsMembers(w, cfg, earlier);
      RowMembers(w, cfg, s, Sorted(HealthyNeighbors(w, s)));
      RowsAscend(Rows(w, cfg, earlier), Row(w, cfg, s, Sorted(HealthyNeighbors(w, s))), s);
    }
  }

  /** s attacks t this tick and its draw succeeds. */
  predicate Strikes(w: World, cfg: Config, s: AgentId, t: AgentId) {
    && s in CompromisedAgents(w) && t in HealthyNeighbors(w, s) && !Skipped(w, s, t)
    && cfg.draw(w.tick, InfectDraw(s, t)) < Probability(w, cfg, s, t)
  }

  /** One tick of spreading, said without its loops: an agent is infected exactly when some
      compromised neighbour's draw succeeds, and the record names the lowest-numbered one. */
  lemma StepMeaning(w: World, cfg: Config, t: AgentId)
    ensures t in Claims(AllAttempts(w, cfg)) <==> exists s :: Strikes(w, cfg, s, t)
    ensures t in Claims(AllAttempts(w, cfg)) ==>
      var winner := Claims(AllAttempts(w, cfg))[t];
      Strikes(w, cfg, winner, t) && forall s | Strikes(w, cfg, s, t) :: winner <= s
  {
    var attempts := AllAttempts(w, cfg);
    RowsOrdered(w, cfg, Sorted(CompromisedAgents(w)));
    AttemptsAreTheFrontier(w, cfg);
    LowestSourceWins(attempts, t);
    forall s | Strikes(w, cfg, s, t)
      ensures MakeAttempt(w, cfg, s, t) in attempts && Hits(MakeAttempt(w, cfg, s, t), t)
    {
    }
    if t in Claims(attempts) {
      var a :| a in attempts && Hits(a, t);
      assert Strikes(w, cfg, a.source, t);
    }
  }

  /** The inner loop of `step`: one source against its healthy neighbours. */
  method AttackRow(w: World, cfg: Config, source: AgentId, targets: seq<AgentId>,
                   drafts0: seq<Draft>, claims0: map<AgentId, AgentId>, ghost before: seq<Attempt>)
    returns (drafts: seq<Draft>, claims: map<AgentId, AgentId>)
    requires source in w.nodes && forall t | t in targets :: t in w.nodes
    requires drafts0 == Drafts(w.tick, before) && claims0 == Claims(before)
    ensures drafts == Drafts(w.tick, before + Row(w, cfg, source, targets))
    ensures claims == Claims(before + Row(w, cfg, source, targets))
  {
    hide Claims, Drafts, Probability;
    drafts, claims := drafts0, claims0;
    ghost var attempts := before;
    for j := 0 to |targets|
      invariant attempts == before + Row(w, cfg, source, targets[..j])
      invariant drafts == Drafts(w.tick, attempts) && claims == Claims(attempts)
    {
      var target := targets[j];
      assert targets[..j + 1][..j] == targets[..j];
      if !(w.nodes[source].isReal && w.nodes[target].isReal) {
        var p := Probability(w, cfg, source, target);
        var draw := cfg.draw(w.tick, InfectDraw(source, target));
        Extend(w.tick, attempts, MakeAttempt(w, cfg, source, target));
        attempts := attempts + [MakeAttempt(w, cfg, source, target)];
        drafts := drafts + [Draft(w.tick, CompromiseAttempted(source, target, p))];
        if draw < p {
          var alreadyClaimed := target in claims;
          if !alreadyClaimed {
            claims := claims[target := source];
          }
          drafts := drafts + [Draft(w.tick, CompromiseSucceeded(Some(source), target, alreadyClaimed))];
        } else {
          drafts := drafts + [Draft(w.tick, CompromiseFailed(source, target, false))];
        }
      }
    }
    assert targets[..|targets|] == targets;
  }

  /** The outer loop of `step`, over the sorted sources. */
  method AttackRows(w: World, cfg: Config, sources: seq<AgentId>)
    returns (drafts: seq<Draft>, claims: map<AgentId, AgentId>)
    requires forall s | s in sources :: s in w.nodes
    ensures drafts == Drafts(w.tick, Rows(w, cfg, sources))
    ensures claims == Claims(Rows(w, cfg, sources))
  {
    drafts, claims := [], map[];
    for i := 0 to |sources|
      invariant drafts == Drafts(w.tick, Rows(w, cfg, sources[..i]))
      invariant claims == Claims(Rows(w, cfg, sources[..i]))
    {
      var source := sources[i];
      var targets := Sorted(HealthyNeighbors(w, source));
      drafts, claims := AttackRow(w, cfg, source, targets, drafts, claims, Rows(w, cfg, sources[..i]));
      RowsExtend(w, cfg, sources, i);
    }
    assert sources[..|sources|] == sources;
  }

  lemma RowsExtend(w: World, cfg: Config, sources: seq<AgentId>, i: nat)
    requires forall s | s in sources :: s in w.nodes
    requires i < |sources|
    ensures Rows(w, cfg, sources[..i + 1]) ==
      Rows(w, cfg, sources[..i]) + Row(w, cfg, sources[i], Sorted(HealthyNeighbors(w, sources[i])))
  {
    assert sources[..i + 1][..i] == sources[..i];
  }

  /** `step`: attack, then apply the claims and advance the clock. */
  method Advance(w: World, cfg: Config) returns (r: StepResult)
    ensures r == Step(w, cfg)
  {
    var sources := Sorted(CompromisedAgents(w));
    var drafts, claims := AttackRows(w, cfg, sources);
    ClaimedTargets(w, cfg);
    var newNodes := ApplyClaims(w.nodes, claims, w.tick);
    r := StepResult(World(w.tick + 1, newNodes, w.edges, w.compromisedGraph), drafts);
  }

  /** Whether no healthy agent borders a compromised one. */
  ghost predicate Quiet(w: World) {
    forall a, b :: a in w.nodes && w.nodes[a].state == Compromised && b in w.nodes[a].neighbors ==>
      b in w.nodes ==> w.nodes[b].state != Healthy
  }

  ghost predicate Finished(w: World, cfg: Config) {
    w.tick >= cfg.maxTicks || Quiet(w)
  }

  /** The scan with its early return. */
  method IsFinished(w: World, cfg: Config) returns (done: bool)
    ensures done <==> Finished(w, cfg)
  {
    if w.tick >= cfg.maxTicks { return true; }
    var todo := w.nodes.Keys;
    while todo != {}
      invariant todo <= w.nodes.Keys
      invariant forall a, b :: a in w.nodes && a !in todo && w.nodes[a].state == Compromised && b in w.nodes[a].neighbors ==>
        b in w.nodes ==> w.nodes[b].state != Healthy
    {
      var a :| a in todo;
      todo := todo - {a};
      if w.nodes[a].state == Compromised {
        var rest := w.nodes[a].neighbors;
        while rest != {}
          invariant rest <= w.nodes[a].neighbors
          invariant forall b | b in w.nodes[a].neighbors && b !in rest && b in w.nodes :: w.nodes[b].state != Healthy
        {
          var b :| b in rest;
          if b in w.nodes && w.nodes[b].state == Healthy { return false; }
          rest := rest - {b};
        }
      }
    }
    return true;
  }
}
