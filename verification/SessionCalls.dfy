/** What each call of a live session must do, field by field and event by event: the worker it is
    about, everybody else, the artifacts, the flags and the log. runtime/session.py:176-633. */
module SessionCalls {
  import opened Wrappers
  import opened SessionModel
  import Policy
  import PolicyDecision
  import World

  // --- what a call leaves alone ------------------------------------------------------------------------------

  /** The log grows by exactly these events, stamped with the new step. */
  ghost predicate Logged(s: Session, t: Session, kinds: seq<Kind>) {
    && |t.log| == |s.log| + |kinds| && t.log[..|s.log|] == s.log
    && forall i | 0 <= i < |kinds| :: t.log[|s.log| + i] == Draft(t.step, kinds[i])
  }

  /** Nobody else's entry changes, and a new key goes to the end. */
  ghost predicate OthersKept(s: Session, t: Session, id: WorkerId) {
    && t.workers.Keys == s.workers.Keys + {id}
    && (forall x | x in s.workers && x != id :: t.workers[x] == s.workers[x])
    && t.order == (if id in s.order then s.order else s.order + [id])
  }

  ghost predicate WorkersKept(s: Session, t: Session) { t.workers == s.workers && t.order == s.order }

  ghost predicate ArtifactsKept(s: Session, t: Session) { t.artifacts == s.artifacts && t.artifactOrder == s.artifactOrder }

  ghost predicate FlagsKept(s: Session, t: Session) {
    t.workflow == s.workflow && t.attackDetected == s.attackDetected && t.recoveryRequired == s.recoveryRequired
  }

  ghost predicate TestsKept(s: Session, t: Session) { t.testSummary == s.testSummary && t.testsPassed == s.testsPassed }

  lemma Emitting(s: Session, t: Session, kinds: seq<Kind>)
    requires t.log == s.log
    ensures Logged(s, Emit(t, kinds), kinds)
  {
  }

  ghost predicate Precedes<K(!new)>(all: seq<K>, x: K, y: K) {
    exists k, l :: 0 <= k < l < |all| && all[k] == x && all[l] == y
  }

  /** The members of one sequence in the order of another. */
  ghost predicate InOrderOf<K(!new)>(some: seq<K>, all: seq<K>) {
    forall i, j | 0 <= i < j < |some| :: Precedes(all, some[i], some[j])
  }

  lemma PrecedesMore<K(!new)>(all: seq<K>, last: K, x: K, y: K)
    ensures Precedes(all, x, y) ==> Precedes(all + [last], x, y)
    ensures x in all ==> Precedes(all + [last], x, last)
  {
    var more := all + [last];
    if Precedes(all, x, y) {
      var k, l :| 0 <= k < l < |all| && all[k] == x && all[l] == y;
      assert more[k] == x && more[l] == y;
    }
    if x in all {
      var k :| 0 <= k < |all| && all[k] == x;
      assert more[k] == x && more[|all|] == last;
    }
  }

  // --- the decision ---------------------------------------------------------------------------------------------

  /** The path policy's own terms: acceptable text whose normal form is strictly under the sandbox
      root, unprotected and unambiguous. */
  ghost predicate Grantable(path: string) {
    && PolicyDecision.Acceptable(path)
    && Policy.Normalize(Policy.Strip(path)).Some? && PolicyDecision.Servable(Policy.Normalize(Policy.Strip(path)).value)
  }

  function Rule(path: string): PolicyDecision.Rule { PolicyDecision.Evaluate(PolicyDecision.Text(path)).rule }

  /** The worker is shut off: quarantined at this step, for this reason, with nothing left to do. */
  ghost predicate ShutOff(s: Session, t: Session, id: WorkerId, why: Violation, source: Option<string>)
    requires id in s.workers
  {
    && OthersKept(s, t, id)
    && var before, after := s.workers[id], t.workers[id];
    && after.state == World.Quarantined && after.task == None && after.why == Some(why)
    && after.stepQuarantined == Some(s.step + 1) && after.compromisedBy == source
    && after.role == before.role && after.upstream == before.upstream && after.takesOver == before.takesOver
    && after.modelBacked == before.modelBacked && after.stepRegistered == before.stepRegistered
  }

  /** What it had produced loses its trust, and only that. */
  ghost predicate Discredited(s: Session, t: Session, id: WorkerId, why: Violation) {
    && t.artifacts.Keys == s.artifacts.Keys && t.artifactOrder == s.artifactOrder
    && forall a | a in s.artifacts ::
         if s.artifacts[a].worker == id && s.artifacts[a].trusted
         then t.artifacts[a] == s.artifacts[a].(trusted := false, taint := Some(why)) else t.artifacts[a] == s.artifacts[a]
  }

  ghost predicate Alarmed(t: Session) { t.attackDetected && t.recoveryRequired && t.workflow == UnderAttack }

  /** The artifacts a quarantine names: those of the worker that were still trusted, in their order. */
  ghost predicate NamesTainted(s: Session, id: WorkerId, tainted: seq<ArtifactId>) {
    && (forall a :: a in tainted <==> a in s.artifactOrder && a in s.artifacts && s.artifacts[a].worker == id && s.artifacts[a].trusted)
    && InOrderOf(tainted, s.artifactOrder)
  }

  lemma {:induction false} TaintedAre(artifacts: map<ArtifactId, Artifact>, ids: seq<ArtifactId>, id: WorkerId)
    ensures var some := TrustedOf(artifacts, ids, id);
      && (forall a :: a in some <==> a in ids && a in artifacts && artifacts[a].worker == id && artifacts[a].trusted)
      && InOrderOf(some, ids)
  {
    if |ids| > 0 {
      var earlier, last := ids[..|ids| - 1], ids[|ids| - 1];
      assert ids == earlier + [last];
      TaintedAre(artifacts, earlier, id);
      OrderGrows(TrustedOf(artifacts, earlier, id), earlier, last);
    }
  }

  lemma OrderGrows<K(!new)>(some: seq<K>, all: seq<K>, last: K)
    requires InOrderOf(some, all) && forall k | k in some :: k in all
    ensures InOrderOf(some, all + [last]) && InOrderOf(some + [last], all + [last])
  {
    hide Precedes;
    var more, longer := all + [last], some + [last];
    forall i, j | 0 <= i < j < |some| ensures Precedes(more, some[i], some[j]) { PrecedesMore(all, last, some[i], some[j]); }
    forall i, j | 0 <= i < j < |longer| ensures Precedes(more, longer[i], longer[j]) {
      assert some[i] in some;
      PrecedesMore(all, last, longer[i], longer[j]);
    }
  }

  lemma QuarantiningMeans(s: Session, id: WorkerId, why: Violation, source: Option<string>)
    requires id in s.workers
    ensures var (t, last) := Quarantining(Bump(s), id, why, source);
      && ShutOff(s, t, id, why, source) && Discredited(s, t, id, why) && Alarmed(t) && TestsKept(s, t)
      && t.step == s.step + 1 && t.modelCalls == s.modelCalls && t.log == s.log
      && last.AgentQuarantined? && last.worker == id && last.violation == why && NamesTainted(s, id, last.tainted)
  {
    hide TrustedOf, InOrderOf;
    TaintedAre(s.artifacts, s.artifactOrder, id);
  }

  /** A worker already quarantined is refused, and that is all. */
  lemma RefusedRequest(s: Session, id: WorkerId, path: string)
    requires QuarantinedIn(s, id)
    ensures RequestResource(s, id, path).Ok?
    ensures var (t, grant) := RequestResource(s, id, path).value;
      && !grant.allowed && grant.normalized == None && grant.quarantined
      && t.step == s.step + 1 && WorkersKept(s, t) && ArtifactsKept(s, t) && FlagsKept(s, t) && TestsKept(s, t) && t.modelCalls == s.modelCalls
      && Logged(s, t, [ToolRequested(id, path), ToolDenied(id, path, AlreadyQuarantined)])
  {
    Emitting(s, Bump(s), [ToolRequested(id, path), ToolDenied(id, path, AlreadyQuarantined)]);
  }

  /** A grantable path is granted to an active worker, under its normal form, and nobody is touched. */
  lemma GrantedRequest(s: Session, id: WorkerId, path: string)
    requires ActiveIn(s, id) && Grantable(path)
    ensures RequestResource(s, id, path).Ok?
    ensures var (t, grant) := RequestResource(s, id, path).value; var normal := Policy.Join(Policy.Normalize(Policy.Strip(path)).value);
      && grant.allowed && grant.normalized == Some(normal) && !grant.quarantined
      && t.step == s.step + 1 && WorkersKept(s, t) && ArtifactsKept(s, t) && FlagsKept(s, t) && TestsKept(s, t) && t.modelCalls == s.modelCalls
      && Logged(s, t, [ToolRequested(id, path), ToolExecuted(id, normal)])
  {
    hide PolicyDecision.Evaluate, PolicyDecision.Acceptable, PolicyDecision.Servable, Policy.Normalize, Policy.Strip, Policy.Join;
    PolicyDecision.AllowedExactly(path);
    Emitting(s, Bump(s), [ToolRequested(id, path), ToolExecuted(id, Policy.Join(Policy.Normalize(Policy.Strip(path)).value))]);
  }

  /** Any other path costs an active worker its place: it is shut off at the new step, what it had
      produced loses its trust, the alarm is raised, and the log grows by the five events. */
  lemma DeniedRequest(s: Session, id: WorkerId, path: string)
    requires ActiveIn(s, id) && !Grantable(path)
    ensures RequestResource(s, id, path).Ok?
    ensures var (t, grant) := RequestResource(s, id, path).value; var why := ByPolicy(Rule(path));
      && !grant.allowed && grant.quarantined
      && ShutOff(s, t, id, why, Some("demo_target/docs/auth_notes.md")) && Discredited(s, t, id, why) && Alarmed(t) && TestsKept(s, t)
      && t.step == s.step + 1 && t.modelCalls == s.modelCalls
      && exists tainted :: NamesTainted(s, id, tainted) && Logged(s, t,
           [ToolRequested(id, path), ToolDenied(id, path, why), PolicyViolation(id, path, why), AnomalyDetected(id, why), AgentQuarantined(id, why, tainted)])
  {
    hide PolicyDecision.Evaluate, PolicyDecision.Acceptable, PolicyDecision.Servable, Policy.Normalize, Policy.Strip, Policy.Join;
    hide Quarantining, NamesTainted, ShutOff, Discredited;
    PolicyDecision.AllowedExactly(path);
    var why := ByPolicy(Rule(path));
    QuarantiningMeans(s, id, why, Some(POISONED_NOTES));
    var (u, last) := Quarantining(Bump(s), id, why, Some(POISONED_NOTES));
    var kinds := [ToolRequested(id, path), ToolDenied(id, path, why), PolicyViolation(id, path, why), AnomalyDetected(id, why), last];
    var t := RequestResource(s, id, path).value.0;
    assert t == Emit(u, kinds);
    Emitting(s, u, kinds);
    AfterEmit(s, id, why, u, kinds);
    assert last == AgentQuarantined(id, why, last.tainted);
  }

  lemma AfterEmit(s: Session, id: WorkerId, why: Violation, u: Session, kinds: seq<Kind>)
    requires id in s.workers
    ensures forall source :: ShutOff(s, u, id, why, source) ==> ShutOff(s, Emit(u, kinds), id, why, source)
    ensures Discredited(s, u, id, why) ==> Discredited(s, Emit(u, kinds), id, why)
  {
  }

  /** A quarantine from outside does the same to an active worker, with its one event, and nothing to
      one already quarantined. */
  lemma QuarantineMeans(s: Session, id: WorkerId, why: Violation)
    requires id in s.workers
    ensures QuarantineWorker(s, id, why).Ok?
    ensures var t := QuarantineWorker(s, id, why).value;
      if !ActiveIn(s, id) then t == s else
        && ShutOff(s, t, id, why, None) && Discredited(s, t, id, why) && Alarmed(t) && TestsKept(s, t)
        && t.step == s.step + 1 && t.modelCalls == s.modelCalls
        && exists tainted :: NamesTainted(s, id, tainted) && Logged(s, t, [AgentQuarantined(id, why, tainted)])
  {
    hide Quarantining, NamesTainted, ShutOff, Discredited;
    if ActiveIn(s, id) {
      QuarantiningMeans(s, id, why, None);
      var (u, last) := Quarantining(Bump(s), id, why, None);
      Emitting(s, u, [last]);
      AfterEmit(s, id, why, u, [last]);
      assert last == AgentQuarantined(id, why, last.tainted);
    }
  }

  /** A call about an unknown worker is refused, and for a start or a completion so is one about a
      quarantined worker; a refused call changes nothing but the test fields of a test run. */
  lemma RefusedCalls(s: Session, c: Call)
    requires match c
      case CallStart(id, _) => !ActiveIn(s, id)
      case CallComplete(id, _) => !ActiveIn(s, id)
      case CallModel(id) => id !in s.workers
      case CallArtifact(_, id, _) => id !in s.workers
      case CallRequest(id, _) => id !in s.workers
      case CallQuarantine(id, _) => id !in s.workers
      case CallReassign(from, _, _, _, _, _) => from !in s.workers
      case CallTestRun(id, _, _) => !ActiveIn(s, id)
      case _ => false
    ensures match c
      case CallTestRun(_, passed, summary) => After(s, c) == s.(testsPassed := Some(passed), testSummary := Some(summary))
      case _ => After(s, c) == s
  {
  }

  /** Which calls raise, and what: an unknown worker, and a quarantined one for a start, a completion or
      a test run. */
  lemma ErrorsAre(s: Session, id: WorkerId, other: WorkerId, text: string, name: ArtifactId, why: Violation, passed: bool, upstream: seq<WorkerId>, modelBacked: bool)
    ensures var raised := if ActiveIn(s, id) then None else Some(UnknownWorker(id));
      ErrorOf(Start(s, id, text)) == raised && ErrorOf(Complete(s, id, text)) == raised && RecordTestRun(s, id, passed, text).1 == raised
    ensures var raised := if id in s.workers then None else Some(UnknownWorker(id));
      && ErrorOf(RecordModelCall(s, id)) == raised && ErrorOf(RecordArtifact(s, name, id, text)) == raised
      && ErrorOf(RequestResource(s, id, text)) == raised && ErrorOf(QuarantineWorker(s, id, why)) == raised
      && ErrorOf(Reassign(s, id, other, text, text, upstream, modelBacked)) == raised
  {
    hide PolicyDecision.Evaluate, Quarantining;
  }

  function ErrorOf<T>(r: Result<T, Error>): Option<Error> { if r.Ok? then None else Some(r.error) }

  // --- registration and lifecycle ---------------------------------------------------------------------------------

  /** A worker as it is first recorded. */
  ghost predicate IsNew(w: Worker, role: string, upstream: seq<WorkerId>, takesOver: Option<WorkerId>, modelBacked: bool, step: nat, task: Option<string>) {
    && w.role == role && w.state == World.Healthy && w.task == task && w.upstream == upstream && w.takesOver == takesOver
    && w.modelBacked == modelBacked && w.stepRegistered == step && w.stepQuarantined == None && w.why == None && w.compromisedBy == None
  }

  lemma RegisterMeans(s: Session, id: WorkerId, role: string, upstream: seq<WorkerId>, takesOver: Option<WorkerId>, modelBacked: bool)
    ensures var t := After(s, CallRegister(id, role, upstream, takesOver, modelBacked));
      && t.step == s.step + 1 && OthersKept(s, t, id) && IsNew(t.workers[id], role, upstream, takesOver, modelBacked, t.step, None)
      && ArtifactsKept(s, t) && FlagsKept(s, t) && TestsKept(s, t) && t.modelCalls == s.modelCalls
      && Logged(s, t, [AgentCreated(id, role, takesOver, modelBacked, None)])
  {
  }

  /** The worker has the task; a session that was idle is running. */
  lemma StartMeans(s: Session, id: WorkerId, task: string)
    requires ActiveIn(s, id)
    ensures var t := After(s, CallStart(id, task));
      && t.step == s.step + 1 && OthersKept(s, t, id) && t.workers[id] == s.workers[id].(task := Some(task))
      && t.workflow == (if s.workflow == Idle then Running else s.workflow)
      && t.attackDetected == s.attackDetected && t.recoveryRequired == s.recoveryRequired
      && ArtifactsKept(s, t) && TestsKept(s, t) && t.modelCalls == s.modelCalls
      && Logged(s, t, [TaskAssigned(id, task), AgentStarted(id, task)])
  {
  }

  lemma CompleteMeans(s: Session, id: WorkerId, stepName: string)
    requires ActiveIn(s, id)
    ensures var t := After(s, CallComplete(id, stepName));
      && t.step == s.step + 1 && OthersKept(s, t, id) && t.workers[id] == s.workers[id].(task := None)
      && ArtifactsKept(s, t) && FlagsKept(s, t) && TestsKept(s, t) && t.modelCalls == s.modelCalls
      && Logged(s, t, [TaskCompleted(id, stepName)])
  {
  }

  lemma TestRunMeans(s: Session, id: WorkerId, passed: bool, summary: string)
    requires ActiveIn(s, id)
    ensures var t := After(s, CallTestRun(id, passed, summary));
      && t.testsPassed == Some(passed) && t.testSummary == Some(summary)
      && t.step == s.step + 1 && OthersKept(s, t, id) && t.workers[id] == s.workers[id].(task := None)
      && ArtifactsKept(s, t) && FlagsKept(s, t) && t.modelCalls == s.modelCalls
      && Logged(s, t, [TaskCompleted(id, "pytest")])
  {
  }

  lemma ModelCallMeans(s: Session, id: WorkerId)
    requires id in s.workers
    ensures var t := After(s, CallModel(id));
      && t.modelCalls == s.modelCalls + 1
      && t.step == s.step + 1 && OthersKept(s, t, id) && t.workers[id] == s.workers[id].(modelBacked := true)
      && ArtifactsKept(s, t) && FlagsKept(s, t) && TestsKept(s, t)
      && Logged(s, t, [ModelRequested(id), ModelResponded(id)])
  {
  }

  /** An artifact is trusted exactly when its author is active; recording it is no event. */
  lemma ArtifactMeans(s: Session, artifact: ArtifactId, id: WorkerId, kind: string)
    requires id in s.workers
    ensures var t := After(s, CallArtifact(artifact, id, kind));
      && t.artifacts.Keys == s.artifacts.Keys + {artifact}
      && (forall a | a in s.artifacts && a != artifact :: t.artifacts[a] == s.artifacts[a])
      && t.artifactOrder == (if artifact in s.artifactOrder then s.artifactOrder else s.artifactOrder + [artifact])
      && t.artifacts[artifact].worker == id && t.artifacts[artifact].kind == kind && t.artifacts[artifact].step == s.step
      && (t.artifacts[artifact].trusted <==> s.workers[id].state != World.Quarantined)
      && t.artifacts[artifact].taint == (if s.workers[id].state == World.Quarantined then s.workers[id].why else None)
      && t.step == s.step && WorkersKept(s, t) && FlagsKept(s, t) && TestsKept(s, t) && t.modelCalls == s.modelCalls && t.log == s.log
  {
  }

  // --- recovery -----------------------------------------------------------------------------------------------------

  /** What a replacement is told: every trusted artifact of anybody else, in order. */
  ghost predicate OffersTrusted(s: Session, to: WorkerId, context: seq<ArtifactId>) {
    && (forall a :: a in context <==> a in s.artifactOrder && a in s.artifacts && s.artifacts[a].trusted && s.artifacts[a].worker != to)
    && InOrderOf(context, s.artifactOrder)
  }

  lemma {:induction false} ContextIs(artifacts: map<ArtifactId, Artifact>, ids: seq<ArtifactId>, id: WorkerId)
    ensures var some := TrustedContext(artifacts, ids, id);
      && (forall a :: a in some <==> a in ids && a in artifacts && artifacts[a].trusted && artifacts[a].worker != id)
      && InOrderOf(some, ids)
  {
    if |ids| > 0 {
      var earlier, last := ids[..|ids| - 1], ids[|ids| - 1];
      assert ids == earlier + [last];
      ContextIs(artifacts, earlier, id);
      OrderGrows(TrustedContext(artifacts, earlier, id), earlier, last);
    }
  }

  /** The task moves to a new worker that takes over from the old one, and recovery is under way. */
  lemma ReassignMeans(s: Session, from: WorkerId, to: WorkerId, role: string, task: string, upstream: seq<WorkerId>, modelBacked: bool)
    requires from in s.workers
    ensures var t := After(s, CallReassign(from, to, role, task, upstream, modelBacked));
      && t.step == s.step + 1 && OthersKept(s, t, to) && IsNew(t.workers[to], role, upstream, Some(from), modelBacked, t.step, Some(task))
      && t.workflow == Recovering && !t.recoveryRequired && t.attackDetected == s.attackDetected
      && ArtifactsKept(s, t) && TestsKept(s, t) && t.modelCalls == s.modelCalls
      && exists context :: OffersTrusted(s, to, context) && Logged(s, t,
           [TaskReassigned(from, to, task), AgentCreated(to, role, Some(from), modelBacked, Some(context)), AgentStarted(to, task)])
  {
    hide TrustedContext, InOrderOf;
    ContextIs(s.artifacts, s.artifactOrder, to);
    var context := TrustedContext(s.artifacts, s.artifactOrder, to);
    var u := After(s, CallReassign(from, to, role, task, upstream, modelBacked));
    var kinds := [TaskReassigned(from, to, task), AgentCreated(to, role, Some(from), modelBacked, Some(context)), AgentStarted(to, task)];
    Emitting(s, u.(log := s.log), kinds);
    assert OffersTrusted(s, to, context) && Logged(s, u, kinds);
  }

  /** The workers that took over from somebody and are active. */
  ghost predicate Replaces(s: Session, id: WorkerId) {
    id in s.workers && s.workers[id].takesOver.Some? && s.workers[id].state != World.Quarantined
  }

  lemma {:induction false} RecoveredAre(s: Session, ids: seq<WorkerId>) returns (names: seq<WorkerId>)
    ensures (forall x :: x in names <==> x in ids && Replaces(s, x)) && InOrderOf(names, ids)
    ensures AllRecovered(s, names, RecoveredKinds(s, ids))
  {
    hide InOrderOf;
    names := [];
    if |ids| == 0 {
      OrderNone(ids);
    } else {
      var earlier, last := ids[..|ids| - 1], ids[|ids| - 1];
      assert ids == earlier + [last];
      names := RecoveredAre(s, earlier);
      OrderGrows(names, earlier, last);
      if Replaces(s, last) { names := names + [last]; }
    }
  }

  lemma OrderNone<K(!new)>(all: seq<K>)
    ensures InOrderOf([], all)
  {
  }

  /** One AGENT_RECOVERED for each. */
  ghost predicate AllRecovered(s: Session, names: seq<WorkerId>, kinds: seq<Kind>) {
    |kinds| == |names| && forall i | 0 <= i < |names| :: Replaces(s, names[i]) && kinds[i] == AgentRecovered(names[i], s.workers[names[i]].takesOver.value)
  }

  lemma {:induction false} QuarantinedAre(workers: map<WorkerId, Worker>, ids: seq<WorkerId>)
    ensures var some := QuarantinedIds(workers, ids);
      (forall x :: x in some <==> x in ids && x in workers && workers[x].state == World.Quarantined) && InOrderOf(some, ids)
  {
    if |ids| > 0 {
      var earlier, last := ids[..|ids| - 1], ids[|ids| - 1];
      assert ids == earlier + [last];
      QuarantinedAre(workers, earlier);
      OrderGrows(QuarantinedIds(workers, earlier), earlier, last);
    }
  }

  /** Every active replacement is recovered, nobody else is touched, and the workflow is recovered; one
      event for each replacement, in order, then the workflow's, which names the quarantined. */
  lemma RecoverMeans(s: Session)
    ensures var t := After(s, CallRecover);
      && t.step == s.step + 1 && t.workflow == Recovered && !t.recoveryRequired && t.attackDetected == s.attackDetected
      && t.workers.Keys == s.workers.Keys && t.order == s.order
      && (forall id | id in s.workers ::
            t.workers[id] == if id in s.order && Replaces(s, id) then s.workers[id].(state := World.Recovered) else s.workers[id])
      && ArtifactsKept(s, t) && TestsKept(s, t) && t.modelCalls == s.modelCalls
      && exists names, kinds, shut ::
           && (forall x :: x in names <==> x in s.order && Replaces(s, x)) && InOrderOf(names, s.order) && AllRecovered(s, names, kinds)
           && (forall x :: x in shut <==> x in s.order && x in s.workers && s.workers[x].state == World.Quarantined) && InOrderOf(shut, s.order)
           && Logged(s, t, kinds + [WorkflowRecovered(s.attackDetected, shut)])
  {
    hide RecoveredKinds, QuarantinedIds, InOrderOf, AllRecovered;
    var t := After(s, CallRecover);
    var v := Bump(s).(workflow := Recovered, recoveryRequired := false);
    var names := RecoveredAre(v, v.order);
    SameReplacements(s, v);
    var kinds := RecoveredKinds(v, v.order);
    QuarantinedAre(t.workers, s.order);
    var shut := QuarantinedIds(t.workers, s.order);
    Emitting(s, t.(log := s.log), kinds + [WorkflowRecovered(s.attackDetected, shut)]);
    assert AllRecovered(s, names, kinds);
    assert Logged(s, t, kinds + [WorkflowRecovered(s.attackDetected, shut)]);
  }

  lemma SameReplacements(s: Session, v: Session)
    requires v.workers == s.workers
    ensures forall x :: Replaces(v, x) <==> Replaces(s, x)
    ensures forall names, kinds :: AllRecovered(v, names, kinds) <==> AllRecovered(s, names, kinds)
  {
  }

  lemma FailMeans(s: Session, reason: string)
    ensures var t := After(s, CallFail(reason));
      && t.step == s.step + 1 && t.workflow == Failed && t.attackDetected == s.attackDetected && t.recoveryRequired == s.recoveryRequired
      && WorkersKept(s, t) && ArtifactsKept(s, t) && TestsKept(s, t) && t.modelCalls == s.modelCalls
      && Logged(s, t, [WorkflowStopped(reason)])
  {
  }
}
