/** backend/app/agents/runtime.py: attempts between model-backed agents, decided by a model
    whose answers are arbitrary. */
module RealAgentStep {
  import opened Wrappers
  import opened Ordering
  import opened World
  import opened Attempts

  /** What came back for one request: nothing (budget, failure), a refusal, or the token. */
  datatype Answer = NoResponse | Held | Leaked

  type Answers = (AgentId, AgentId) -> Answer

  function RealSources(w: World): (s: set<AgentId>)
    ensures s <= w.nodes.Keys
  {
    set a | a in CompromisedAgents(w) && w.nodes[a].isReal
  }

  function RealTargets(w: World, source: AgentId): (s: set<AgentId>)
    requires source in w.nodes
    ensures s <= w.nodes.Keys
  {
    set t | t in HealthyNeighbors(w, source) && w.nodes[t].isReal
  }

  function MakeAttempt(w: World, cfg: Config, answers: Answers, source: AgentId, target: AgentId): Attempt
    requires source in w.nodes && target in w.nodes
  {
    Attempt(source, target, Probability(w, cfg, source, target), answers(source, target) == Leaked)
  }

  function Row(w: World, cfg: Config, answers: Answers, source: AgentId, targets: seq<AgentId>): seq<Attempt>
    requires source in w.nodes && forall t | t in targets :: t in w.nodes
  {
    if |targets| == 0 then [] else
      var t := targets[|targets| - 1];
      assert t in targets;
      Row(w, cfg, answers, source, targets[..|targets| - 1]) + [MakeAttempt(w, cfg, answers, source, t)]
  }

  function Rows(w: World, cfg: Config, answers: Answers, sources: seq<AgentId>): seq<Attempt>
    requires forall s | s in sources :: s in w.nodes
  {
    if |sources| == 0 then [] else
      var s := sources[|sources| - 1];
      assert s in sources;
      Rows(w, cfg, answers, sources[..|sources| - 1]) + Row(w, cfg, answers, s, Sorted(RealTargets(w, s)))
  }

  function AllAttempts(w: World, cfg: Config, answers: Answers): seq<Attempt> {
    Rows(w, cfg, answers, Sorted(RealSources(w)))
  }

  function AnswerDrafts(tick: nat, a: Attempt, answer: Answer, claimed: bool): seq<Draft> {
    match answer
    case NoResponse => [Draft(tick, CompromiseFailed(a.source, a.target, true))]
    case Held =>
      [Draft(tick, ModelRequested(a.source, a.target)), Draft(tick, ModelResponded(a.target)),
       Draft(tick, CompromiseAttempted(a.source, a.target, a.probability)),
       Draft(tick, CompromiseFailed(a.source, a.target, false))]
    case Leaked =>
      [Draft(tick, ModelRequested(a.source, a.target)), Draft(tick, ModelResponded(a.target)),
       Draft(tick, CompromiseAttempted(a.source, a.target, a.probability)),
       Draft(tick, ToolExecuted(a.target)),
       Draft(tick, CompromiseSucceeded(Some(a.source), a.target, claimed))]
  }

  function ModelDrafts(tick: nat, answers: Answers, attempts: seq<Attempt>): seq<Draft> {
    if |attempts| == 0 then [] else
      var earlier := attempts[..|attempts| - 1];
      var a := attempts[|attempts| - 1];
      ModelDrafts(tick, answers, earlier) + AnswerDrafts(tick, a, answers(a.source, a.target), a.target in Claims(earlier))
  }

  /** The clock stands still. A step that claims anyone rebuilds the world without the
      compromised security-graph nodes. */
  function Step(w: World, cfg: Config, answers: Answers): StepResult {
    var attempts := AllAttempts(w, cfg, answers);
    var claims := Claims(attempts);
    StepResult(
      if claims.Keys == {} then w else World(w.tick, Infect(w.nodes, claims, w.tick), w.edges, {}),
      ModelDrafts(w.tick, answers, attempts))
  }

  lemma {:induction false} RowMembers(w: World, cfg: Config, answers: Answers, source: AgentId, targets: seq<AgentId>)
    requires source in w.nodes && forall t | t in targets :: t in w.nodes
    ensures forall a :: a in Row(w, cfg, answers, source, targets) <==>
      a.source == source && a.target in targets && a == MakeAttempt(w, cfg, answers, source, a.target)
  {
    if |targets| > 0 {
      RowMembers(w, cfg, answers, source, targets[..|targets| - 1]);
      assert targets == targets[..|targets| - 1] + [targets[|targets| - 1]];
    }
  }

  lemma {:induction false} RowsMembers(w: World, cfg: Config, answers: Answers, sources: seq<AgentId>)
    requires forall s | s in sources :: s in w.nodes
    ensures forall a :: a in Rows(w, cfg, answers, sources) <==>
      a.source in sources && a.target in RealTargets(w, a.source) && a == MakeAttempt(w, cfg, answers, a.source, a.target)
  {
    if |sources| > 0 {
      var s := sources[|sources| - 1];
      assert s in sources;
      RowsMembers(w, cfg, answers, sources[..|sources| - 1]);
      RowMembers(w, cfg, answers, s, Sorted(RealTargets(w, s)));
      assert sources == sources[..|sources| - 1] + [s];
    }
  }

  /** Exactly the edges from a compromised real agent to a healthy real one are attempted. */
  lemma AttemptsAreRealEdges(w: World, cfg: Config, answers: Answers)
    ensures forall a :: a in AllAttempts(w, cfg, answers) <==>
      && a.source in CompromisedAgents(w) && a.target in HealthyNeighbors(w, a.source)
      && w.nodes[a.source].isReal && w.nodes[a.target].isReal
      && a == MakeAttempt(w, cfg, answers, a.source, a.target)
  {
    RowsMembers(w, cfg, answers, Sorted(RealSources(w)));
  }

  /** Some request goes out: the step then suspends until the answers are in. */
  predicate Asks(w: World) { exists s :: s in RealSources(w) && RealTargets(w, s) != {} }

  /** What is known before any answer is in. */
  const UNANSWERED: Answers := (s, t) => NoResponse

  lemma AsksExactly(w: World, cfg: Config, answers: Answers)
    ensures Asks(w) <==> AllAttempts(w, cfg, answers) != []
  {
    var attempts := AllAttempts(w, cfg, answers);
    AttemptsAreRealEdges(w, cfg, answers);
    if Asks(w) {
      var s :| s in RealSources(w) && RealTargets(w, s) != {};
      var t :| t in RealTargets(w, s);
      assert MakeAttempt(w, cfg, answers, s, t) in attempts;
    }
    if attempts != [] {
      assert attempts[0] in attempts;
      assert attempts[0].target in RealTargets(w, attempts[0].source);
    }
  }

  /** A step that sends no request changes nothing; one that does reports every answer. */
  lemma QuietStep(w: World, cfg: Config, answers: Answers)
    ensures !Asks(w) ==> Step(w, cfg, answers) == StepResult(w, [])
    ensures Asks(w) ==> |Step(w, cfg, answers).drafts| > 0
  {
    hide Asks, AllAttempts;
    AsksExactly(w, cfg, answers);
  }

  lemma {:induction false} RowsOrdered(w: World, cfg: Config, answers: Answers, sources: seq<AgentId>)
    requires Ascending(sources) && forall s | s in sources :: s in w.nodes
    ensures SourcesAscend(Rows(w, cfg, answers, sources))
  {
    if |sources| > 0 {
      var earlier, s := sources[..|sources| - 1], sources[|sources| - 1];
      assert s in sources && forall x | x in earlier :: x in sources;
      RowsOrdered(w, cfg, answers, earlier);
      RowsMembers(w, cfg, answers, earlier);
      RowMembers(w, cfg, answers, s, Sorted(RealTargets(w, s)));
      RowsAscend(Rows(w, cfg, answers, earlier), Row(w, cfg, answers, s, Sorted(RealTargets(w, s))), s);
    }
  }

  /** Some model-backed neighbour of s leaked its token to s. */
  predicate LeaksTo(w: World, answers: Answers, s: AgentId, t: AgentId) {
    && s in CompromisedAgents(w) && t in HealthyNeighbors(w, s) && w.nodes[s].isReal && w.nodes[t].isReal
    && answers(s, t) == Leaked
  }

  /** Whatever order the answers came in: an agent falls exactly when it leaks its token to some
      compromised neighbour, and the record names the lowest-numbered one. */
  lemma StepMeaning(w: World, cfg: Config, answers: Answers, t: AgentId)
    ensures t in Claims(AllAttempts(w, cfg, answers)) <==> exists s :: LeaksTo(w, answers, s, t)
    ensures t in Claims(AllAttempts(w, cfg, answers)) ==>
      var winner := Claims(AllAttempts(w, cfg, answers))[t];
      LeaksTo(w, answers, winner, t) && forall s | LeaksTo(w, answers, s, t) :: winner <= s
  {
    var attempts := AllAttempts(w, cfg, answers);
    RowsOrdered(w, cfg, answers, Sorted(RealSources(w)));
    AttemptsAreRealEdges(w, cfg, answers);
    LowestSourceWins(attempts, t);
    forall s | LeaksTo(w, answers, s, t)
      ensures MakeAttempt(w, cfg, answers, s, t) in attempts && Hits(MakeAttempt(w, cfg, answers, s, t), t)
    {
    }
    if t in Claims(attempts) {
      var a :| a in attempts && Hits(a, t);
      assert LeaksTo(w, answers, a.source, t);
    }
  }

  lemma HitsAreLeaks(w: World, cfg: Config, answers: Answers)
    ensures forall a | a in AllAttempts(w, cfg, answers) :: a.target in w.nodes && (a.hit <==> answers(a.source, a.target) == Leaked)
  {
    AttemptsAreRealEdges(w, cfg, answers);
  }

  lemma ClaimedTargets(w: World, cfg: Config, answers: Answers)
    ensures Claims(AllAttempts(w, cfg, answers)).Keys <= w.nodes.Keys
    ensures forall t | t in Claims(AllAttempts(w, cfg, answers)) ::
      && Claims(AllAttempts(w, cfg, answers))[t] in CompromisedAgents(w)
      && t in HealthyNeighbors(w, Claims(AllAttempts(w, cfg, answers))[t])
  {
    var attempts := AllAttempts(w, cfg, answers);
    AttemptsAreRealEdges(w, cfg, answers);
    ClaimsAreFirstHits(attempts);
    forall t | t in Claims(attempts)
      ensures Claims(attempts)[t] in CompromisedAgents(w) && t in HealthyNeighbors(w, Claims(attempts)[t])
    {
      var i :| 0 <= i < |attempts| && attempts[i].hit && attempts[i].target == t && attempts[i].source == Claims(attempts)[t];
      assert attempts[i] in attempts;
    }
  }

  lemma RowsExtend(w: World, cfg: Config, answers: Answers, sources: seq<AgentId>, i: nat)
    requires forall s | s in sources :: s in w.nodes
    requires i < |sources|
    ensures Rows(w, cfg, answers, sources[..i + 1]) ==
      Rows(w, cfg, answers, sources[..i]) + Row(w, cfg, answers, sources[i], Sorted(RealTargets(w, sources[i])))
  {
    assert sources[..i + 1][..i] == sources[..i];
  }

  /** One source's requests, in id order. */
  method CollectRow(w: World, cfg: Config, answers: Answers, source: AgentId) returns (row: seq<Attempt>)
    requires source in w.nodes
    ensures row == Row(w, cfg, answers, source, Sorted(RealTargets(w, source)))
  {
    hide MakeAttempt, HealthyNeighbors, RealTargets;
    var targets := Sorted(RealTargets(w, source));
    assert forall t | t in targets :: t in w.nodes;
    row := [];
    for j := 0 to |targets|
      invariant row == Row(w, cfg, answers, source, targets[..j])
    {
      assert targets[..j + 1][..j] == targets[..j];
      assert targets[j] in targets;
      row := row + [MakeAttempt(w, cfg, answers, source, targets[j])];
    }
    assert targets[..|targets|] == targets;
  }

  /** The list of attempts, fixed before any request is sent. */
  method Collect(w: World, cfg: Config, answers: Answers) returns (attempts: seq<Attempt>)
    ensures attempts == AllAttempts(w, cfg, answers)
  {
    var sources := Sorted(RealSources(w));
    assert forall s | s in sources :: s in w.nodes;
    attempts := [];
    for i := 0 to |sources|
      invariant attempts == Rows(w, cfg, answers, sources[..i])
    {
      assert sources[i] in sources;
      var row := CollectRow(w, cfg, answers, sources[i]);
      RowsExtend(w, cfg, answers, sources, i);
      attempts := attempts + row;
    }
    assert sources[..|sources|] == sources;
  }

  /** The loop over attempts and responses, in attempt order whatever the network order was. */
  method Settle(tick: nat, answers: Answers, attempts: seq<Attempt>)
    returns (drafts: seq<Draft>, claims: map<AgentId, AgentId>)
    requires forall a | a in attempts :: a.hit <==> answers(a.source, a.target) == Leaked
    ensures drafts == ModelDrafts(tick, answers, attempts) && claims == Claims(attempts)
  {
    drafts, claims := [], map[];
    for i := 0 to |attempts|
      invariant drafts == ModelDrafts(tick, answers, attempts[..i]) && claims == Claims(attempts[..i])
    {
      var a := attempts[i];
      assert a in attempts;
      assert attempts[..i + 1][..i] == attempts[..i];
      match answers(a.source, a.target)
      case NoResponse =>
        drafts := drafts + [Draft(tick, CompromiseFailed(a.source, a.target, true))];
      case Held =>
        drafts := drafts + AnswerDrafts(tick, a, Held, a.target in claims);
      case Leaked =>
        var alreadyClaimed := a.target in claims;
        if !alreadyClaimed { claims := claims[a.target := a.source]; }
        drafts := drafts + AnswerDrafts(tick, a, Leaked, alreadyClaimed);
    }
    assert attempts[..|attempts|] == attempts;
  }

  method Advance(w: World, cfg: Config, answers: Answers) returns (r: StepResult)
    ensures r == Step(w, cfg, answers)
  {
    var attempts := Collect(w, cfg, answers);
    if |attempts| == 0 { return StepResult(w, []); }
    AttemptsAreRealEdges(w, cfg, answers);
    var drafts, claims := Settle(w.tick, answers, attempts);
    if claims == map[] { return StepResult(w, drafts); }
    ClaimedTargets(w, cfg, answers);
    var newNodes := ApplyClaims(w.nodes, claims, w.tick);
    r := StepResult(World(w.tick, newNodes, w.edges, {}), drafts);
  }
}
