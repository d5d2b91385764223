/** Taint containment, and the routes that hand out context and content.
    runtime/session.py:299-335, 503-576; api/routes_runtime.py:223-275, 432-496. */
module SessionTrust {
  import opened Wrappers
  import opened SessionModel
  import Policy
  import PolicyDecision
  import PolicyTerms
  import Rereading
  import Resources

  /** Every artifact has a registered author, keys and order agree, and no artifact of a
      quarantined worker is trusted. */
  ghost predicate Contained(s: Session) {
    && (forall a :: a in s.artifacts <==> a in s.artifactOrder)
    && (forall a | a in s.artifacts :: s.artifacts[a].worker in s.workers)
    && (forall a | a in s.artifacts && QuarantinedIn(s, s.artifacts[a].worker) :: !s.artifacts[a].trusted)
  }

  /** t has s's artifacts, its workers or more, and nobody newly quarantined. */
  ghost predicate NoNewQuarantine(s: Session, t: Session) {
    && t.artifacts == s.artifacts && t.artifactOrder == s.artifactOrder
    && (forall id | id in s.workers :: id in t.workers)
    && (forall id | QuarantinedIn(t, id) :: QuarantinedIn(s, id))
  }

  lemma StillContained(s: Session, t: Session)
    requires Contained(s) && NoNewQuarantine(s, t)
    ensures Contained(t)
  {
  }

  lemma QuarantiningContained(s: Session, id: WorkerId, why: Violation, source: Option<string>)
    requires Contained(s) && id in s.workers
    ensures Contained(Quarantining(s, id, why, source).0)
  {
    hide TrustedOf;
  }

  lemma RequestContained(s: Session, id: WorkerId, path: string)
    requires Contained(s) && RequestResource(s, id, path).Ok?
    ensures Contained(RequestResource(s, id, path).value.0)
  {
    hide PolicyDecision.Evaluate, Quarantining, Contained, Emit;
    var t := Bump(s);
    StillContained(s, t);
    QuarantiningContained(t, id, ByPolicy(PolicyDecision.Evaluate(PolicyDecision.Text(path)).rule), Some(POISONED_NOTES));
    EmitContained(t, RequestResource(s, id, path).value.0);
    EmitContained(Quarantining(t, id, ByPolicy(PolicyDecision.Evaluate(PolicyDecision.Text(path)).rule), Some(POISONED_NOTES)).0,
                  RequestResource(s, id, path).value.0);
    EmitState(t);
  }

  /** Containment does not look at the log. */
  lemma EmitContained(s: Session, t: Session)
    requires Contained(s)
    ensures t == s.(log := t.log) ==> Contained(t)
  {
  }

  lemma EmitState(s: Session)
    ensures forall u: Session, kinds :: Emit(u, kinds) == u.(log := Emit(u, kinds).log)
  {
  }

  lemma ArtifactContained(s: Session, artifact: ArtifactId, id: WorkerId, kind: string)
    requires Contained(s) && RecordArtifact(s, artifact, id, kind).Ok?
    ensures Contained(RecordArtifact(s, artifact, id, kind).value)
  {
  }

  lemma QuarantineContained(s: Session, id: WorkerId, why: Violation)
    requires Contained(s) && QuarantineWorker(s, id, why).Ok?
    ensures Contained(QuarantineWorker(s, id, why).value)
  {
    hide Quarantining, Contained, Emit;
    StillContained(s, Bump(s));
    QuarantiningContained(Bump(s), id, why, None);
    EmitContained(Quarantining(Bump(s), id, why, None).0, QuarantineWorker(s, id, why).value);
    EmitState(s);
  }

  lemma EmitQuarantines(s: Session, t: Session, kinds: seq<Kind>)
    requires NoNewQuarantine(s, t)
    ensures NoNewQuarantine(s, Emit(t, kinds))
  {
  }

  /** Storing a worker that is active quarantines nobody. */
  lemma PutQuarantines(s: Session, t: Session, id: WorkerId, w: Worker)
    requires t.workers == s.workers && t.artifacts == s.artifacts && t.artifactOrder == s.artifactOrder
    requires Active(w) || (id in s.workers && !Active(s.workers[id]))
    ensures NoNewQuarantine(s, PutWorker(t, id, w))
  {
  }

  lemma RecoveredQuarantines(s: Session, t: Session, ids: seq<WorkerId>)
    requires t.workers == s.workers && t.artifacts == s.artifacts && t.artifactOrder == s.artifactOrder
    ensures NoNewQuarantine(s, t.(workers := RecoveredWorkers(t, ids)))
  {
  }

  lemma CompleteQuarantines(s: Session, id: WorkerId, stepName: string)
    requires ActiveIn(s, id)
    ensures NoNewQuarantine(s, Complete(s, id, stepName).value)
  {
    hide NoNewQuarantine, Emit;
    var t := PutWorker(Bump(s), id, s.workers[id].(task := None));
    PutQuarantines(s, Bump(s), id, s.workers[id].(task := None));
    EmitQuarantines(s, t, [TaskCompleted(id, stepName)]);
  }

  lemma RecoverQuarantines(s: Session)
    ensures NoNewQuarantine(s, Recover(s))
  {
    hide NoNewQuarantine, Emit, RecoveredKinds, QuarantinedIds, RecoveredWorkers;
    var t := Bump(s).(workflow := Recovered, recoveryRequired := false);
    var u := t.(workers := RecoveredWorkers(t, t.order));
    RecoveredQuarantines(s, t, t.order);
    EmitQuarantines(s, u, RecoveredKinds(t, t.order) + [WorkflowRecovered(u.attackDetected, QuarantinedIds(u.workers, u.order))]);
  }

  lemma ReassignQuarantines(s: Session, from: WorkerId, to: WorkerId, role: string, task: string, upstream: seq<WorkerId>, modelBacked: bool)
    requires from in s.workers
    ensures NoNewQuarantine(s, Reassign(s, from, to, role, task, upstream, modelBacked).value)
  {
    hide NoNewQuarantine, Emit, TrustedContext;
    var t := Bump(s);
    var w := NewWorker(role, upstream, Some(from), modelBacked, t.step, Some(task));
    var v := t.(workflow := Recovering, recoveryRequired := false);
    PutQuarantines(s, v, to, w);
    var u := PutWorker(t, to, w).(workflow := Recovering, recoveryRequired := false);
    assert u == PutWorker(v, to, w);
    EmitQuarantines(s, u, [TaskReassigned(from, to, task),
      AgentCreated(to, role, Some(from), modelBacked, Some(TrustedContext(u.artifacts, u.artifactOrder, to))), AgentStarted(to, task)]);
  }

  lemma Unmoved(s: Session)
    ensures NoNewQuarantine(s, s)
  {
  }

  /** Every other call leaves the artifacts alone and quarantines nobody. */
  lemma OthersQuarantine(s: Session, c: Call)
    requires !c.CallRequest? && !c.CallQuarantine? && !c.CallArtifact?
    ensures NoNewQuarantine(s, After(s, c))
  {
    hide NoNewQuarantine, Emit, Complete, Recover, Reassign, PutWorker;
    Unmoved(s);
    match c
    case CallRegister(id, role, upstream, takesOver, modelBacked) =>
      var w := NewWorker(role, upstream, takesOver, modelBacked, s.step + 1, None);
      PutQuarantines(s, Bump(s), id, w);
      EmitQuarantines(s, PutWorker(Bump(s), id, w), [AgentCreated(id, role, takesOver, modelBacked, None)]);
    case CallStart(id, task) =>
      if ActiveIn(s, id) { StartQuarantines(s, id, task); }
    case CallComplete(id, stepName) => if ActiveIn(s, id) { CompleteQuarantines(s, id, stepName); } else { FailedComplete(s, id, stepName); }
    case CallModel(id) => if id in s.workers { ModelQuarantines(s, id); }
    case CallTestRun(id, passed, summary) => TestRunQuarantines(s, id, passed, summary);
    case CallReassign(from, to, role, task, upstream, modelBacked) =>
      if from in s.workers { ReassignQuarantines(s, from, to, role, task, upstream, modelBacked); }
      ReassignFails(s, from, to, role, task, upstream, modelBacked);
    case CallRecover => RecoverQuarantines(s);
    case CallFail(reason) => FailQuarantines(s, reason);
  }

  lemma FailedComplete(s: Session, id: WorkerId, stepName: string)
    requires !ActiveIn(s, id)
    ensures Complete(s, id, stepName).Err?
  {
  }

  lemma ReassignFails(s: Session, from: WorkerId, to: WorkerId, role: string, task: string, upstream: seq<WorkerId>, modelBacked: bool)
    ensures Reassign(s, from, to, role, task, upstream, modelBacked).Ok? <==> from in s.workers
  {
    hide Emit, TrustedContext;
  }

  lemma StartQuarantines(s: Session, id: WorkerId, task: string)
    requires ActiveIn(s, id)
    ensures NoNewQuarantine(s, Start(s, id, task).value)
  {
    hide NoNewQuarantine, Emit;
    var w := s.workers[id].(task := Some(task));
    var running := Bump(s).(workflow := if s.workflow == Idle then Running else s.workflow);
    var t := PutWorker(Bump(s), id, w).(workflow := if s.workflow == Idle then Running else s.workflow);
    PutQuarantines(s, running, id, w);
    assert t == PutWorker(running, id, w);
    EmitQuarantines(s, t, [TaskAssigned(id, task), AgentStarted(id, task)]);
  }

  lemma ModelQuarantines(s: Session, id: WorkerId)
    requires id in s.workers
    ensures NoNewQuarantine(s, RecordModelCall(s, id).value)
  {
    hide NoNewQuarantine, Emit;
    var w := s.workers[id].(modelBacked := true);
    var counted := Bump(s).(modelCalls := s.modelCalls + 1);
    var t := PutWorker(Bump(s), id, w).(modelCalls := s.modelCalls + 1);
    PutQuarantines(s, counted, id, w);
    assert t == PutWorker(counted, id, w);
    EmitQuarantines(s, t, [ModelRequested(id), ModelResponded(id)]);
  }

  lemma TestRunQuarantines(s: Session, id: WorkerId, passed: bool, summary: string)
    ensures NoNewQuarantine(s, RecordTestRun(s, id, passed, summary).0)
  {
    hide Complete;
    var t := WithTestRun(s, passed, summary);
    if ActiveIn(t, id) { CompleteQuarantines(t, id, "pytest"); } else { FailedComplete(t, id, "pytest"); }
  }

  lemma FailQuarantines(s: Session, reason: string)
    ensures NoNewQuarantine(s, Fail(s, reason))
  {
  }

  lemma OthersContained(s: Session, c: Call)
    requires Contained(s) && !c.CallRequest? && !c.CallQuarantine? && !c.CallArtifact?
    ensures NoNewQuarantine(s, After(s, c)) && Contained(After(s, c))
  {
    hide After, Contained, NoNewQuarantine;
    OthersQuarantine(s, c);
    StillContained(s, After(s, c));
  }

  lemma CallContained(s: Session, c: Call)
    requires Contained(s)
    ensures Contained(After(s, c))
  {
    hide Contained, RequestResource, QuarantineWorker, RecordArtifact;
    match c
    case CallRequest(id, path) => if RequestResource(s, id, path).Ok? { RequestContained(s, id, path); }
    case CallQuarantine(id, why) => if QuarantineWorker(s, id, why).Ok? { QuarantineContained(s, id, why); }
    case CallArtifact(artifact, id, kind) => if RecordArtifact(s, artifact, id, kind).Ok? { ArtifactContained(s, artifact, id, kind); }
    case _ => OthersContained(s, c);
  }

  /** In every reachable session state each artifact of a quarantined worker is untrusted. */
  lemma {:induction false} QuarantineTaints(calls: seq<Call>)
    ensures Contained(Run(calls))
  {
    hide After;
    if |calls| > 0 {
      QuarantineTaints(calls[..|calls| - 1]);
      hide Contained;
      CallContained(Run(calls[..|calls| - 1]), calls[|calls| - 1]);
    }
  }

  predicate Tainted(s: Session, a: ArtifactId) { a in s.artifacts && !s.artifacts[a].trusted }

  lemma TaintStaysOneCall(s: Session, c: Call, a: ArtifactId)
    requires Tainted(s, a) && !(c.CallArtifact? && c.artifact == a)
    ensures Tainted(After(s, c), a)
  {
    hide PolicyDecision.Evaluate, TrustedOf, TrustedContext, RecoveredKinds, QuarantinedIds, RecoveredWorkers;
  }

  /** A tainted artifact never becomes trusted again, as long as its id is not recorded again. */
  lemma {:induction false} TaintStays(earlier: seq<Call>, later: seq<Call>, a: ArtifactId)
    requires Tainted(Run(earlier), a)
    requires forall i | 0 <= i < |later| :: !(later[i].CallArtifact? && later[i].artifact == a)
    ensures Tainted(Run(earlier + later), a)
  {
    hide After, Tainted;
    if |later| == 0 {
      assert earlier + later == earlier;
    } else {
      TaintStays(earlier, later[..|later| - 1], a);
      assert (earlier + later)[..|earlier + later| - 1] == earlier + later[..|later| - 1];
      TaintStaysOneCall(Run(earlier + later[..|later| - 1]), later[|later| - 1], a);
    }
  }

  // --- reassignment ---------------------------------------------------------------------------------

  lemma {:induction false} TrustedContextMembers(artifacts: map<ArtifactId, Artifact>, ids: seq<ArtifactId>, id: WorkerId)
    ensures forall a :: a in TrustedContext(artifacts, ids, id) <==>
      a in ids && a in artifacts && artifacts[a].trusted && artifacts[a].worker != id
  {
    if |ids| > 0 {
      TrustedContextMembers(artifacts, ids[..|ids| - 1], id);
      assert ids == ids[..|ids| - 1] + [ids[|ids| - 1]];
    }
  }

  datatype HttpError = NotFound | Conflict

  /** The reassign route: the context check comes first, and a tainted or unknown artifact is a
      conflict before anything changes. */
  function ReassignRoute(s: Session, from: WorkerId, to: WorkerId, role: string, task: string, upstream: seq<WorkerId>, modelBacked: bool, context: seq<ArtifactId>): Result<Session, HttpError> {
    if from !in s.workers then Err(NotFound)
    else if !ContextTrusted(s, context) then Err(Conflict)
    else match Reassign(s, from, to, role, task, upstream, modelBacked)
      case Ok(t) => Ok(t)
      case Err(_) => Err(NotFound)
  }

  /** What the log announces as the replacement's context. */
  function Announced(t: Session): seq<ArtifactId>
    requires |t.log| >= 2 && t.log[|t.log| - 2].kind.AgentCreated? && t.log[|t.log| - 2].kind.context.Some?
  {
    t.log[|t.log| - 2].kind.context.value
  }

  /** An accepted reassignment from a quarantined worker was offered, and announces, only trusted
      artifacts, none of them that worker's; and it announces every trusted artifact of anybody
      but the replacement. */
  lemma ReassignmentIsClean(calls: seq<Call>, from: WorkerId, to: WorkerId, role: string, task: string, upstream: seq<WorkerId>, modelBacked: bool, context: seq<ArtifactId>)
    requires QuarantinedIn(Run(calls), from)
    requires ReassignRoute(Run(calls), from, to, role, task, upstream, modelBacked, context).Ok?
    ensures var s, t := Run(calls), ReassignRoute(Run(calls), from, to, role, task, upstream, modelBacked, context).value;
      && (forall i | 0 <= i < |context| ::
            context[i] in s.artifacts && s.artifacts[context[i]].trusted && s.artifacts[context[i]].worker != from)
      && |t.log| >= 2 && t.log[|t.log| - 2].kind.AgentCreated? && t.log[|t.log| - 2].kind.worker == to
      && t.log[|t.log| - 2].kind.context.Some?
      && (forall a | a in Announced(t) ::
            a in t.artifacts && t.artifacts[a].trusted && t.artifacts[a].worker != from && t.artifacts[a].worker != to)
      && (forall a | a in t.artifacts && t.artifacts[a].trusted && t.artifacts[a].worker != to :: a in Announced(t))
  {
    hide Run;
    QuarantineTaints(calls);
    var s := Run(calls);
    TrustedContextMembers(s.artifacts, s.artifactOrder, to);
  }

  /** `assert_context_is_trusted` as it runs. */
  method AssertContextIsTrusted(s: Session, context: seq<ArtifactId>) returns (ok: bool)
    ensures ok == ContextTrusted(s, context)
  {
    for i := 0 to |context|
      invariant forall k | 0 <= k < i :: context[k] in s.artifacts && s.artifacts[context[k]].trusted
    {
      if context[i] !in s.artifacts { return false; }
      if !s.artifacts[context[i]].trusted { return false; }
    }
    return true;
  }

  // --- the resource route ---------------------------------------------------------------------------

  /** The route's answer: the grant, and the content if one was asked for and could be read. */
  datatype Response = Response(grant: Grant, content: Option<string>)

  datatype RouteError = UnknownWorkerCall | BypassGuard | Undecodable

  /** Decide first; fetch only what was granted, by its normal form. */
  function ResourceRoute(s: Session, id: WorkerId, path: string, withContent: bool, disk: Resources.Disk): (Session, Result<Response, RouteError>) {
    match RequestResource(s, id, path)
    case Err(_) => (s, Err(UnknownWorkerCall))
    case Ok(r) =>
      var (t, grant) := r;
      if !grant.allowed || !withContent || grant.normalized.None? then (t, Ok(Response(grant, None)))
      else match Resources.Fetch(grant.normalized.value, disk)
        case Ok(text) => (t, Ok(Response(grant, Some(text))))
        case Err(ResourceAccess) => (t, Ok(Response(grant, None)))
        case Err(PolicyBypass) => (t, Err(BypassGuard))
        case Err(NotUtf8) => (t, Err(Undecodable))
  }

  /** Content reaches only an active worker, only for an allowed path, and is one file that lies
      under the resolved sandbox; a denied or quarantined worker's request yields none, and its
      whole cascade is in the log by then. */
  lemma ContentIsGranted(s: Session, id: WorkerId, path: string, withContent: bool, disk: Resources.Disk)
    ensures var (t, r) := ResourceRoute(s, id, path, withContent, disk);
      r.Ok? && r.value.content.Some? ==>
        && ActiveIn(s, id) && PolicyDecision.Evaluate(PolicyDecision.Text(path)).Allowed()
        && PolicyDecision.Evaluate(PolicyDecision.Text(path)).normalized.Some?
        && var n := PolicyDecision.Evaluate(PolicyDecision.Text(path)).normalized.value;
        && PolicyDecision.Evaluate(PolicyDecision.Text(n)).Allowed()
        && PolicyDecision.Evaluate(PolicyDecision.Text(n)).normalized.Some?
        && var target := Resources.Target(disk, PolicyDecision.Evaluate(PolicyDecision.Text(n)).normalized.value);
        && Resources.Confined(disk, target) && target in disk.texts && disk.texts[target] == r.value.content
        && t.log == s.log + Stamp(s.step + 1, [ToolRequested(id, path), ToolExecuted(id, n)])
  {
    hide PolicyDecision.Evaluate, Quarantining, Resources.Fetch, Resources.ReadsServable, Resources.PlainNames;
    var (t, r) := ResourceRoute(s, id, path, withContent, disk);
    if r.Ok? && r.value.content.Some? {
      Resources.FetchConfined(PolicyDecision.Evaluate(PolicyDecision.Text(path)).normalized.value, disk);
    }
  }

  /** When the fetch refuses what the decision granted, on a disk without links. */
  lemma GuardTripsExactly(s: Session, id: WorkerId, path: string, disk: Resources.Disk)
    requires Rereading.Linkless(disk)
    ensures ResourceRoute(s, id, path, true, disk).1 == Err(BypassGuard) <==>
      && ActiveIn(s, id) && PolicyDecision.Evaluate(PolicyDecision.Text(path)).Allowed()
      && var names := Policy.Normalize(Policy.Strip(path)); names.Some? && |names.value| > 0 && !Rereading.PassesGuard(names.value)
  {
    hide PolicyDecision.Evaluate, Policy.Normalize, Policy.Strip, Policy.Join, Resources.Fetch, Rereading.PassesGuard, Rereading.Linkless, Quarantining;
    if PolicyDecision.Evaluate(PolicyDecision.Text(path)).Allowed() {
      PolicyDecision.AllowedExactly(path);
      Rereading.GuardExactly(path, disk);
    }
  }

  /** For paths whose only whitespace is the space, the fetch names exactly the granted path. */
  lemma FetchesWhatWasGranted(s: Session, id: WorkerId, path: string)
    requires ActiveIn(s, id) && PolicyDecision.Evaluate(PolicyDecision.Text(path)).Allowed()
    requires PolicyDecision.All((c: char) => Policy.Whitespace(c) ==> c == ' ', path)
    ensures var r := RequestResource(s, id, path);
      && r.Ok? && r.value.1.allowed && r.value.1.normalized.Some?
      && PolicyDecision.Evaluate(PolicyDecision.Text(r.value.1.normalized.value)).normalized == r.value.1.normalized
      && PolicyDecision.Evaluate(PolicyDecision.Text(r.value.1.normalized.value)).Allowed()
  {
    hide PolicyDecision.Evaluate;
    PolicyDecision.SpacesReevaluate(path);
  }

  /** What the resource route does: nothing about an unknown worker; otherwise the decision, with all
      its effects, and then, only for a granted path whose content was asked for, what the fetch of
      its normal form gives. */
  lemma RouteIs(s: Session, id: WorkerId, path: string, withContent: bool, disk: Resources.Disk)
    ensures id !in s.workers ==> ResourceRoute(s, id, path, withContent, disk) == (s, Err(UnknownWorkerCall))
    ensures id in s.workers ==>
      && RequestResource(s, id, path).Ok?
      && var (t, grant) := RequestResource(s, id, path).value;
      && ResourceRoute(s, id, path, withContent, disk).0 == t == After(s, CallRequest(id, path))
      && var r := ResourceRoute(s, id, path, withContent, disk).1;
      if withContent && ActiveIn(s, id) && PolicyTerms.Allows(path) then
        match Resources.Fetch(Policy.Join(PolicyTerms.Reading(path).names), disk)
        case Ok(text) => r == Ok(Response(grant, Some(text)))
        case Err(ResourceAccess) => r == Ok(Response(grant, None))
        case Err(PolicyBypass) => r == Err(BypassGuard)
        case Err(NotUtf8) => r == Err(Undecodable)
      else r == Ok(Response(grant, None))
  {
    hide PolicyDecision.Evaluate, Quarantining, Resources.Fetch, PolicyTerms.Reading, PolicyTerms.Presentable, PolicyTerms.InSandbox, Policy.Join;
    PolicyTerms.AllowsIs(path);
    if PolicyTerms.Allows(path) { PolicyTerms.NormalOfAllowed(path); }
  }

  /** What the reassign route does: the worker must exist, then the offered context must be all known
      and trusted, and only then is the task reassigned. */
  lemma ReassignRouteIs(s: Session, from: WorkerId, to: WorkerId, role: string, task: string, upstream: seq<WorkerId>, modelBacked: bool, context: seq<ArtifactId>)
    ensures var r := ReassignRoute(s, from, to, role, task, upstream, modelBacked, context);
      if from !in s.workers then r == Err(NotFound)
      else if exists i :: 0 <= i < |context| && (context[i] !in s.artifacts || !s.artifacts[context[i]].trusted) then r == Err(Conflict)
      else r == Ok(After(s, CallReassign(from, to, role, task, upstream, modelBacked)))
  {
    hide Reassign;
    ReassignKnown(s, from, to, role, task, upstream, modelBacked);
  }

  lemma ReassignKnown(s: Session, from: WorkerId, to: WorkerId, role: string, task: string, upstream: seq<WorkerId>, modelBacked: bool)
    ensures Reassign(s, from, to, role, task, upstream, modelBacked).Ok? <==> from in s.workers
  {
  }
}
