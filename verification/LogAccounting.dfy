/** The counts and latencies of the log against the final world, over whole synchronous runs. */
module LogAccounting {
  import opened Wrappers
  import opened Ordering
  import opened World
  import opened Attempts
  import opened Engine
  import opened Effects
  import opened Metrics
  import DetectionStep
  import PropagationStep
  import AdaptiveAttackerStep
  import SecurityPlaneSteps

  /** How many AGENT_QUARANTINED events name an agent. */
  function QuarantinesOf(ds: seq<Draft>, a: AgentId): nat {
    if |ds| == 0 then 0 else
      var k := ds[|ds| - 1].kind;
      QuarantinesOf(ds[..|ds| - 1], a) + (if k.AgentQuarantined? && k.agent == a then 1 else 0)
  }

  /** Everything the accounts say about one agent and in total, as one summable record. */
  datatype Book = Book(tally: Tally, quarantines: nat, detected: Option<nat>, contained: Option<nat>) {
    function Plus(b: Book): Book {
      Book(tally.Plus(b.tally), quarantines + b.quarantines,
           if detected.Some? then detected else b.detected, if contained.Some? then contained else b.contained)
    }
  }

  const BLANK: Book := Book(ZERO, 0, None, None)

  /** What the log says in total and of one agent. */
  function BookOf(ds: seq<Draft>, a: AgentId): Book {
    Book(Count(ds), QuarantinesOf(ds, a), FirstDetected(ds, a), FirstQuarantined(ds, a))
  }

  /** One event's share of it. */
  function Entry(d: Draft, a: AgentId): Book {
    Book(One(d.kind), if d.kind.AgentQuarantined? && d.kind.agent == a then 1 else 0,
         if d.kind == AnomalyDetected(a) then Some(d.tick) else None,
         if d.kind == AgentQuarantined(a, true) then Some(d.tick) else None)
  }

  lemma BookMeans(ds: seq<Draft>, a: AgentId)
    ensures BookOf(ds, a) == Book(Count(ds), QuarantinesOf(ds, a), FirstDetected(ds, a), FirstQuarantined(ds, a))
  {
  }

  lemma BookNext(ds: seq<Draft>, a: AgentId)
    requires |ds| > 0
    ensures BookOf(ds, a) == BookOf(ds[..|ds| - 1], a).Plus(Entry(ds[|ds| - 1], a))
  {
    hide One, Tally.Plus;
  }

  lemma PlusAssociates(x: Book, y: Book, z: Book)
    ensures x.Plus(y).Plus(z) == x.Plus(y.Plus(z)) && x.Plus(BLANK) == x && BLANK.Plus(x) == x
  {
  }

  lemma {:induction false} BookAppend(x: seq<Draft>, y: seq<Draft>, a: AgentId)
    ensures BookOf(x + y, a) == BookOf(x, a).Plus(BookOf(y, a))
  {
    hide Entry, Book.Plus, BookOf;
    if |y| == 0 {
      assert x + y == x;
      BookEmpty(a);
      PlusAssociates(BookOf(x, a), BLANK, BLANK);
    } else {
      BookAppend(x, y[..|y| - 1], a);
      assert (x + y)[..|x + y| - 1] == x + y[..|y| - 1];
      BookNext(y, a);
      BookNext(x + y, a);
      PlusAssociates(BookOf(x, a), BookOf(y[..|y| - 1], a), Entry(y[|y| - 1], a));
    }
  }

  lemma BookTwo(d: Draft, e: Draft, a: AgentId)
    ensures BookOf([d], a) == Entry(d, a)
    ensures BookOf([d, e], a) == Entry(d, a).Plus(Entry(e, a))
  {
    hide Entry, Book.Plus, BookOf;
    BookEmpty(a);
    BookNext([d], a);
    BookNext([d, e], a);
    assert [d, e][..1] == [d] && [d][..0] == [];
    PlusAssociates(Entry(d, a), BLANK, BLANK);
  }

  // --- the sources of drafts ------------------------------------------------------------------

  /** Nothing that names an agent's detection or counts in total. */
  predicate Uncounted(d: Draft) {
    match d.kind
    case CompromiseAttempted(_, _, _) => false
    case CompromiseSucceeded(_, _, _) => false
    case CompromiseFailed(_, _, _) => false
    case AnomalyDetected(_) => false
    case AgentQuarantined(_, _) => false
    case _ => true
  }

  lemma UncountedEntry(d: Draft, a: AgentId)
    requires Uncounted(d)
    ensures Entry(d, a) == BLANK
  {
  }

  lemma {:induction false} UncountedDrafts(ds: seq<Draft>, a: AgentId)
    requires forall d | d in ds :: Uncounted(d)
    ensures BookOf(ds, a) == BLANK
  {
    hide Entry, Uncounted, Book.Plus, BookOf;
    BookEmpty(a);
    PlusAssociates(BLANK, BLANK, BLANK);
    if |ds| > 0 {
      BookNext(ds, a);
      assert ds[|ds| - 1] in ds;
      UncountedEntry(ds[|ds| - 1], a);
      UncountedDrafts(ds[..|ds| - 1], a);
    }
  }

  /** An attempt's entry, its outcome's, and the two together: field by field. */
  predicate AttemptEntry(d: Book) {
    && Quiet(d) && d.tally.attempted == 1 && d.tally.succeeded == d.tally.failed == d.tally.landed == 0
  }

  predicate ResultEntry(e: Book, hit: bool, claimed: bool) {
    && Quiet(e) && e.tally.attempted == 0
    && e.tally.succeeded == (if hit then 1 else 0) && e.tally.failed == (if hit then 0 else 1)
    && e.tally.landed == (if hit && !claimed then 1 else 0)
  }

  predicate OutcomeEntry(b: Book, hit: bool, claimed: bool) {
    && Quiet(b) && b.tally.attempted == 1
    && b.tally.succeeded == (if hit then 1 else 0) && b.tally.failed == (if hit then 0 else 1)
    && b.tally.landed == (if hit && !claimed then 1 else 0)
  }

  /** Nothing about quarantine or detection. */
  predicate Quiet(b: Book) {
    b.tally.quarantined == b.tally.falsely == b.quarantines == 0 && b.detected == None && b.contained == None
  }

  lemma SumOutcome(d: Book, e: Book, hit: bool, claimed: bool)
    requires AttemptEntry(d) && ResultEntry(e, hit, claimed)
    ensures OutcomeEntry(d.Plus(e), hit, claimed)
  {
    hide Book.Plus;
    PlusFields(d, e);
  }

  lemma PlusFields(d: Book, e: Book)
    ensures var b := d.Plus(e);
      && b.tally.attempted == d.tally.attempted + e.tally.attempted && b.tally.succeeded == d.tally.succeeded + e.tally.succeeded
      && b.tally.failed == d.tally.failed + e.tally.failed && b.tally.landed == d.tally.landed + e.tally.landed
      && b.tally.quarantined == d.tally.quarantined + e.tally.quarantined && b.tally.falsely == d.tally.falsely + e.tally.falsely
      && b.quarantines == d.quarantines + e.quarantines
      && b.detected == (if d.detected.Some? then d.detected else e.detected)
      && b.contained == (if d.contained.Some? then d.contained else e.contained)
  {
  }

  lemma OutcomeEntries(tick: nat, x: Attempt, claimed: bool, a: AgentId)
    ensures var out := OutcomeDrafts(tick, x, claimed);
      AttemptEntry(Entry(out[0], a)) && ResultEntry(Entry(out[1], a), x.hit, claimed)
  {
  }

  lemma OutcomeBook(tick: nat, x: Attempt, claimed: bool, a: AgentId)
    ensures OutcomeEntry(BookOf(OutcomeDrafts(tick, x, claimed), a), x.hit, claimed)
  {
    hide BookOf, Entry, Book.Plus, OutcomeEntry, AttemptEntry, ResultEntry;
    var out := OutcomeDrafts(tick, x, claimed);
    assert out == [out[0], out[1]];
    BookTwo(out[0], out[1], a);
    OutcomeEntries(tick, x, claimed, a);
    SumOutcome(Entry(out[0], a), Entry(out[1], a), x.hit, claimed);
  }

  ghost predicate AttackBook(b: Book, landed: nat) {
    && b == Book(b.tally, 0, None, None) && b.tally.quarantined == b.tally.falsely == 0
    && b.tally.attempted == b.tally.succeeded + b.tally.failed && b.tally.landed == landed
  }

  lemma {:induction false} AttemptsBook(tick: nat, attempts: seq<Attempt>, a: AgentId)
    ensures AttackBook(BookOf(Drafts(tick, attempts), a), |Claims(attempts)|)
  {
    hide BookOf;
    if |attempts| == 0 {
      BookEmpty(a);
    } else {
      var earlier := attempts[..|attempts| - 1];
      var x := attempts[|attempts| - 1];
      AttemptsBook(tick, earlier, a);
      var out := OutcomeDrafts(tick, x, x.target in Claims(earlier));
      BookAppend(Drafts(tick, earlier), out, a);
      OutcomeBook(tick, x, x.target in Claims(earlier), a);
    }
  }

  lemma BookEmpty(a: AgentId)
    ensures BookOf([], a) == BLANK
  {
  }

  /** A detection with its quarantine, and a false quarantine: field by field. */
  predicate HitEntry(b: Book, tick: nat, own: bool) {
    && Unattempted(b) && b.tally.quarantined == 1 && b.tally.falsely == 0 && b.quarantines == (if own then 1 else 0)
    && b.detected == b.contained == (if own then Some(tick) else None)
  }

  predicate FalseEntry(b: Book, own: bool) {
    && Unattempted(b) && b.tally.quarantined == b.tally.falsely == 1 && b.quarantines == (if own then 1 else 0)
    && b.detected == b.contained == None
  }

  predicate Unattempted(b: Book) { b.tally.attempted == b.tally.succeeded == b.tally.failed == b.tally.landed == 0 }

  predicate AnomalyEntry(d: Book, tick: nat, own: bool) {
    && Unattempted(d) && d.tally.quarantined == d.tally.falsely == d.quarantines == 0
    && d.detected == (if own then Some(tick) else None) && d.contained == None
  }

  predicate ConfinedEntry(q: Book, tick: nat, own: bool) {
    && Unattempted(q) && q.tally.quarantined == 1 && q.tally.falsely == 0 && q.quarantines == (if own then 1 else 0)
    && q.detected == None && q.contained == (if own then Some(tick) else None)
  }

  lemma SumHit(d: Book, q: Book, tick: nat, own: bool)
    requires AnomalyEntry(d, tick, own) && ConfinedEntry(q, tick, own)
    ensures HitEntry(d.Plus(q), tick, own)
  {
    hide Book.Plus;
    PlusFields(d, q);
  }

  lemma HitEntries(tick: nat, x: AgentId, a: AgentId)
    ensures AnomalyEntry(Entry(Draft(tick, AnomalyDetected(x)), a), tick, x == a)
    ensures ConfinedEntry(Entry(Draft(tick, AgentQuarantined(x, true)), a), tick, x == a)
    ensures FalseEntry(Entry(Draft(tick, AgentQuarantined(x, false)), a), x == a)
  {
  }

  lemma HitBook(tick: nat, x: AgentId, a: AgentId)
    ensures HitEntry(BookOf([Draft(tick, AnomalyDetected(x)), Draft(tick, AgentQuarantined(x, true))], a), tick, x == a)
    ensures FalseEntry(BookOf([Draft(tick, AgentQuarantined(x, false))], a), x == a)
  {
    hide BookOf, Entry, Book.Plus, HitEntry, FalseEntry, AnomalyEntry, ConfinedEntry;
    var d, q, f := Draft(tick, AnomalyDetected(x)), Draft(tick, AgentQuarantined(x, true)), Draft(tick, AgentQuarantined(x, false));
    BookTwo(d, q, a);
    BookTwo(f, f, a);
    HitEntries(tick, x, a);
    SumHit(Entry(d, a), Entry(q, a), tick, x == a);
  }

  function HitsBook(w: World, caught: set<AgentId>, a: AgentId): Book {
    var t := if a in caught then Some(w.tick) else None;
    Book(Tally(0, 0, 0, 0, |caught|, 0), if a in caught then 1 else 0, t, t)
  }

  function FalseBook(caught: set<AgentId>, a: AgentId): Book {
    Book(Tally(0, 0, 0, 0, |caught|, |caught|), if a in caught then 1 else 0, None, None)
  }

  lemma HitsBookGrows(w: World, caught: set<AgentId>, x: AgentId, a: AgentId, e: Book)
    requires x !in caught && HitEntry(e, w.tick, x == a)
    ensures HitsBook(w, caught + {x}, a) == HitsBook(w, caught, a).Plus(e)
  {
    hide Book.Plus;
    PlusFields(HitsBook(w, caught, a), e);
  }

  lemma FalseBookGrows(caught: set<AgentId>, x: AgentId, a: AgentId, e: Book)
    requires x !in caught && FalseEntry(e, x == a)
    ensures FalseBook(caught + {x}, a) == FalseBook(caught, a).Plus(e)
  {
    hide Book.Plus;
    PlusFields(FalseBook(caught, a), e);
  }

  lemma {:induction false} HitsBooked(w: World, cfg: Config, ids: seq<AgentId>, a: AgentId)
    requires Ascending(ids)
    ensures BookOf(DetectionStep.HitDrafts(w, cfg, ids), a) == HitsBook(w, DetectionStep.Hits(w, cfg, ids), a)
  {
    hide BookOf, Book.Plus, HitsBook, HitEntry;
    if |ids| == 0 {
      BookEmpty(a);
      NobodyBook(w, a);
      assert DetectionStep.Hits(w, cfg, ids) == {} && DetectionStep.FalseHits(w, cfg, ids) == {};
    } else {
      var earlier, x := ids[..|ids| - 1], ids[|ids| - 1];
      assert ids == earlier + [x];
      AscendingLast(earlier, x);
      HitsBooked(w, cfg, earlier, a);
      var hits := DetectionStep.Hits(w, cfg, earlier);
      if DetectionStep.Detects(w, cfg, x) {
        var out := [Draft(w.tick, AnomalyDetected(x)), Draft(w.tick, AgentQuarantined(x, true))];
        BookAppend(DetectionStep.HitDrafts(w, cfg, earlier), out, a);
        HitBook(w.tick, x, a);
        assert DetectionStep.Hits(w, cfg, ids) == hits + {x};
        HitsBookGrows(w, hits, x, a, BookOf(out, a));
      } else {
        assert DetectionStep.HitDrafts(w, cfg, ids) == DetectionStep.HitDrafts(w, cfg, earlier);
        assert DetectionStep.Hits(w, cfg, ids) == hits;
      }
    }
  }

  lemma NobodyBook(w: World, a: AgentId)
    ensures HitsBook(w, {}, a) == BLANK && FalseBook({}, a) == BLANK
  {
  }

  lemma {:induction false} FalseBooked(w: World, cfg: Config, ids: seq<AgentId>, a: AgentId)
    requires Ascending(ids)
    ensures BookOf(DetectionStep.FalseDrafts(w, cfg, ids), a) == FalseBook(DetectionStep.FalseHits(w, cfg, ids), a)
  {
    hide BookOf, Book.Plus, FalseBook, FalseEntry;
    if |ids| == 0 {
      BookEmpty(a);
      NobodyBook(w, a);
      assert DetectionStep.Hits(w, cfg, ids) == {} && DetectionStep.FalseHits(w, cfg, ids) == {};
    } else {
      var earlier, x := ids[..|ids| - 1], ids[|ids| - 1];
      assert ids == earlier + [x];
      AscendingLast(earlier, x);
      FalseBooked(w, cfg, earlier, a);
      var hits := DetectionStep.FalseHits(w, cfg, earlier);
      if DetectionStep.FalselyAccuses(w, cfg, x) {
        var out := [Draft(w.tick, AgentQuarantined(x, false))];
        BookAppend(DetectionStep.FalseDrafts(w, cfg, earlier), out, a);
        HitBook(w.tick, x, a);
        assert DetectionStep.FalseHits(w, cfg, ids) == hits + {x};
        FalseBookGrows(hits, x, a, BookOf(out, a));
      } else {
        assert DetectionStep.FalseDrafts(w, cfg, ids) == DetectionStep.FalseDrafts(w, cfg, earlier);
        assert DetectionStep.FalseHits(w, cfg, ids) == hits;
      }
    }
  }

  lemma {:induction false} SubvertUncounted(w: World, cfg: Config, n: nat)
    ensures forall d | d in SecurityPlaneSteps.SubvertDrafts(w, cfg, n) :: Uncounted(d)
  {
    if n > 0 { SubvertUncounted(w, cfg, n - 1); }
  }

  lemma {:induction false} PoisonUncounted(w: World, bad: set<NodeId>, n: nat)
    ensures forall d | d in SecurityPlaneSteps.PoisonDrafts(w, bad, n) :: Uncounted(d)
  {
    if n > 0 { PoisonUncounted(w, bad, n - 1); }
  }

  lemma {:induction false} AttestationUncounted(w: World, cfg: Config, ids: seq<AgentId>)
    ensures forall d | d in SecurityPlaneSteps.AttestationDrafts(w, cfg, ids) :: Uncounted(d)
  {
    if |ids| > 0 { AttestationUncounted(w, cfg, ids[..|ids| - 1]); }
  }

  lemma {:induction false} CollusionUncounted(w: World, cfg: Config, ids: seq<AgentId>, pairs: nat)
    requires 2 * pairs <= |ids|
    ensures forall d | d in SecurityPlaneSteps.CollusionDrafts(w, cfg, ids, pairs) :: Uncounted(d)
  {
    if pairs > 0 { CollusionUncounted(w, cfg, ids, pairs - 1); }
  }

  lemma SentinelUncounted(w: World, cfg: Config)
    ensures forall d | d in SecurityPlaneSteps.SentinelStep(w, cfg).drafts :: Uncounted(d)
  {
    var k := SecurityPlaneSteps.Sentinels(w, cfg);
    SubvertUncounted(w, cfg, k);
    PoisonUncounted(w, w.compromisedGraph + SecurityPlaneSteps.Subverted(w, cfg, k), k);
  }

  lemma PlaneBook(w: World, cfg: Config, name: ScenarioName, a: AgentId)
    requires !OwnsTick(name)
    ensures BookOf(Scenario(w, cfg, name).drafts, a) == BLANK
  {
    hide Sorted, BookOf;
    var ids := Sorted(CompromisedAgents(w));
    match name {
      case SentinelCompromise => SentinelUncounted(w, cfg);
      case ByzantineCollusion => CollusionUncounted(w, cfg, ids, |ids| / 2);
      case Attestation => AttestationUncounted(w, cfg, ids);
      case _ =>
    }
    UncountedDrafts(Scenario(w, cfg, name).drafts, a);
  }

  lemma AttackerBook(w: World, cfg: Config, name: ScenarioName, a: AgentId)
    requires OwnsTick(name)
    ensures EffectOf(w, cfg, RunScenario(name)).Spread?
    ensures AttackBook(BookOf(Scenario(w, cfg, name).drafts, a), |EffectOf(w, cfg, RunScenario(name)).claims|)
  {
    hide Sorted, BookOf;
    AttemptsBook(w.tick, PropagationStep.AllAttempts(w, cfg), a);
    AttemptsBook(w.tick, AdaptiveAttackerStep.AllAttempts(w, cfg), a);
  }

  lemma DetectBook(w: World, cfg: Config, a: AgentId)
    requires cfg.defenseEnabled
    ensures BookOf(DetectionStep.Step(w, cfg).drafts, a) ==
      HitsBook(w, DetectionStep.Hits(w, cfg, Sorted(DetectionStep.Candidates(w, cfg))), a).Plus(
      FalseBook(DetectionStep.FalseHits(w, cfg, Sorted(DetectionStep.Accusable(w, cfg))), a))
  {
    hide Sorted, BookOf;
    var ids, accused := Sorted(DetectionStep.Candidates(w, cfg)), Sorted(DetectionStep.Accusable(w, cfg));
    HitsBooked(w, cfg, ids, a);
    FalseBooked(w, cfg, accused, a);
    BookAppend(DetectionStep.HitDrafts(w, cfg, ids), DetectionStep.FalseDrafts(w, cfg, accused), a);
  }
}
