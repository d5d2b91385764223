/** What the whole log of a live session never shows, and what its artifacts never become. */
module SessionSafety {
  import opened Wrappers
  import opened SessionFolds
  import opened SessionModel
  import PolicyDecision
  import Folds

  // --- quarantine over the log --------------------------------------------------------------------

  /** The worker an event shows acting, or being quarantined. */
  function Acts(k: Kind): Option<WorkerId> {
    match k
    case TaskAssigned(w, _) => Some(w)
    case AgentStarted(w, _) => Some(w)
    case TaskCompleted(w, _) => Some(w)
    case ToolExecuted(w, _) => Some(w)
    case AgentRecovered(w, _) => Some(w)
    case AgentQuarantined(w, _, _) => Some(w)
    case _ => None
  }

  /** Who is in quarantine so far, and whether nobody acted while in it. */
  datatype Watch = Watch(shut: set<WorkerId>, ok: bool)

  function Observe(w: Watch, d: Draft): Watch {
    var ok := w.ok && (Acts(d.kind).Some? ==> Acts(d.kind).value !in w.shut);
    match d.kind
    case AgentCreated(id, _, _, _, _) => Watch(w.shut - {id}, ok)
    case AgentQuarantined(id, _, _) => Watch(w.shut + {id}, ok)
    case _ => Watch(w.shut, ok)
  }

  const OPEN: Watch := Watch({}, true)

  function WatchOf(log: seq<Draft>): Watch { Folds.Fold(Observe, OPEN, log) }

  function ShutIn(s: Session): set<WorkerId> { set id | id in s.workers && !Active(s.workers[id]) }

  ghost predicate Watched(s: Session) { WatchOf(s.log) == Watch(ShutIn(s), true) }

  lemma Emitted(s: Session, t: Session, kinds: seq<Kind>)
    requires Watched(s) && t.log == s.log && Apply(Observe, Watch(ShutIn(s), true), t.step, kinds) == Watch(ShutIn(t), true)
    ensures Watched(Emit(t, kinds))
  {
    hide Apply, Observe;
    Folds.FoldAppend(Observe, OPEN, s.log, Stamp(t.step, kinds));
    ApplyIsFold(Observe, WatchOf(s.log), t.step, kinds);
    assert ShutIn(Emit(t, kinds)) == ShutIn(t);
  }

  lemma PutShut(s: Session, id: WorkerId, w: Worker)
    ensures ShutIn(PutWorker(s, id, w)) == if Active(w) then ShutIn(s) - {id} else ShutIn(s) + {id}
  {
  }

  lemma RegisterWatched(s: Session, id: WorkerId, role: string, upstream: seq<WorkerId>, takesOver: Option<WorkerId>, modelBacked: bool)
    requires Watched(s)
    ensures Watched(Register(s, id, role, upstream, takesOver, modelBacked))
  {
    hide Watched;
    var t := Bump(s);
    var w := NewWorker(role, upstream, takesOver, modelBacked, t.step, None);
    PutShut(t, id, w);
    ApplyOne(Observe, Watch(ShutIn(s), true), t.step, AgentCreated(id, role, takesOver, modelBacked, None));
    Emitted(s, PutWorker(t, id, w), [AgentCreated(id, role, takesOver, modelBacked, None)]);
  }

  lemma StartWatched(s: Session, id: WorkerId, task: string)
    requires Watched(s) && Start(s, id, task).Ok?
    ensures Watched(Start(s, id, task).value)
  {
    hide Watched;
    var w := s.workers[id].(task := Some(task));
    var t := PutWorker(Bump(s), id, w).(workflow := if s.workflow == Idle then Running else s.workflow);
    PutShut(Bump(s), id, w);
    ApplyTwo(Observe, Watch(ShutIn(s), true), t.step, TaskAssigned(id, task), AgentStarted(id, task));
    Emitted(s, t, [TaskAssigned(id, task), AgentStarted(id, task)]);
  }

  lemma CompleteWatched(s: Session, id: WorkerId, stepName: string)
    requires Watched(s) && Complete(s, id, stepName).Ok?
    ensures Watched(Complete(s, id, stepName).value)
  {
    hide Watched;
    var w := s.workers[id].(task := None);
    PutShut(Bump(s), id, w);
    ApplyOne(Observe, Watch(ShutIn(s), true), s.step + 1, TaskCompleted(id, stepName));
    Emitted(s, PutWorker(Bump(s), id, w), [TaskCompleted(id, stepName)]);
  }

  lemma ModelWatched(s: Session, id: WorkerId)
    requires Watched(s) && RecordModelCall(s, id).Ok?
    ensures Watched(RecordModelCall(s, id).value)
  {
    hide Watched;
    var w := s.workers[id].(modelBacked := true);
    var t := PutWorker(Bump(s), id, w).(modelCalls := s.modelCalls + 1);
    PutShut(Bump(s), id, w);
    ApplyTwo(Observe, Watch(ShutIn(s), true), t.step, ModelRequested(id), ModelResponded(id));
    Emitted(s, t, [ModelRequested(id), ModelResponded(id)]);
  }

  lemma QuarantiningShut(s: Session, id: WorkerId, why: Violation, source: Option<string>)
    requires id in s.workers && Active(s.workers[id])
    ensures var (t, k) := Quarantining(s, id, why, source);
      && ShutIn(t) == ShutIn(s) + {id} && t.log == s.log && t.step == s.step
      && k.AgentQuarantined? && k.worker == id && id !in ShutIn(s)
  {
    hide TrustedOf;
    PutShut(s, id, Confined(s.workers[id], s.step, why, source));
  }

  lemma DenialWatched(s: Session, id: WorkerId, path: string, why: Violation)
    requires Watched(s) && ActiveIn(s, id)
    ensures var (u, last) := Quarantining(Bump(s), id, why, Some(POISONED_NOTES));
      Watched(Emit(u, [ToolRequested(id, path), ToolDenied(id, path, why), PolicyViolation(id, path, why), AnomalyDetected(id, why), last]))
  {
    hide Watched, Quarantining;
    var t := Bump(s);
    var (u, last) := Quarantining(t, id, why, Some(POISONED_NOTES));
    QuarantiningShut(t, id, why, Some(POISONED_NOTES));
    ApplyFive(Observe, Watch(ShutIn(s), true), t.step, ToolRequested(id, path), ToolDenied(id, path, why), PolicyViolation(id, path, why), AnomalyDetected(id, why), last);
    Emitted(s, u, [ToolRequested(id, path), ToolDenied(id, path, why), PolicyViolation(id, path, why), AnomalyDetected(id, why), last]);
  }

  lemma RequestWatched(s: Session, id: WorkerId, path: string)
    requires Watched(s) && RequestResource(s, id, path).Ok?
    ensures Watched(RequestResource(s, id, path).value.0)
  {
    hide Watched, PolicyDecision.Evaluate, Quarantining;
    var t := Bump(s);
    if !Active(s.workers[id]) {
      ApplyTwo(Observe, Watch(ShutIn(s), true), t.step, ToolRequested(id, path), ToolDenied(id, path, AlreadyQuarantined));
      Emitted(s, t, [ToolRequested(id, path), ToolDenied(id, path, AlreadyQuarantined)]);
    } else {
      var decision := PolicyDecision.Evaluate(PolicyDecision.Text(path));
      if decision.Allowed() && decision.normalized.Some? {
        ApplyTwo(Observe, Watch(ShutIn(s), true), t.step, ToolRequested(id, path), ToolExecuted(id, decision.normalized.value));
        Emitted(s, t, [ToolRequested(id, path), ToolExecuted(id, decision.normalized.value)]);
      } else {
        DenialWatched(s, id, path, ByPolicy(decision.rule));
      }
    }
  }

  lemma QuarantineWatched(s: Session, id: WorkerId, why: Violation)
    requires Watched(s) && QuarantineWorker(s, id, why).Ok?
    ensures Watched(QuarantineWorker(s, id, why).value)
  {
    hide Watched, Quarantining;
    if Active(s.workers[id]) {
      var (t, last) := Quarantining(Bump(s), id, why, None);
      QuarantiningShut(Bump(s), id, why, None);
      ApplyOne(Observe, Watch(ShutIn(s), true), t.step, last);
      Emitted(s, t, [last]);
    }
  }

  lemma ReassignWatched(s: Session, from: WorkerId, to: WorkerId, role: string, task: string, upstream: seq<WorkerId>, modelBacked: bool)
    requires Watched(s) && Reassign(s, from, to, role, task, upstream, modelBacked).Ok?
    ensures Watched(Reassign(s, from, to, role, task, upstream, modelBacked).value)
  {
    hide Watched, TrustedContext, Apply;
    var t := Bump(s);
    var w := NewWorker(role, upstream, Some(from), modelBacked, t.step, Some(task));
    var u := PutWorker(t, to, w).(workflow := Recovering, recoveryRequired := false);
    var a := TaskReassigned(from, to, task);
    var b := AgentCreated(to, role, Some(from), modelBacked, Some(TrustedContext(u.artifacts, u.artifactOrder, to)));
    PutShut(t, to, w);
    ApplyThree(Observe, Watch(ShutIn(s), true), t.step, a, b, AgentStarted(to, task));
    Emitted(s, u, [a, b, AgentStarted(to, task)]);
  }

  lemma {:induction false} RecoveredApply(s: Session, w: Watch, ids: seq<WorkerId>)
    requires w == Watch(ShutIn(s), true)
    ensures Apply(Observe, w, s.step, RecoveredKinds(s, ids)) == w
  {
    hide Apply;
    if |ids| == 0 {
      ApplyNext(Observe, w, s.step, [], WorkflowStopped(""));
    } else {
      var earlier, id := ids[..|ids| - 1], ids[|ids| - 1];
      RecoveredApply(s, w, earlier);
      if Recovers(s, id) {
        ApplyNext(Observe, w, s.step, RecoveredKinds(s, earlier), AgentRecovered(id, s.workers[id].takesOver.value));
      } else {
        assert RecoveredKinds(s, ids) == RecoveredKinds(s, earlier);
      }
    }
  }

  lemma RecoverWatched(s: Session)
    requires Watched(s)
    ensures Watched(Recover(s))
  {
    hide Watched, Apply, RecoveredKinds, QuarantinedIds;
    var t := Bump(s).(workflow := Recovered, recoveryRequired := false);
    var u := t.(workers := RecoveredWorkers(t, t.order));
    var last := WorkflowRecovered(u.attackDetected, QuarantinedIds(u.workers, u.order));
    assert ShutIn(t) == ShutIn(s);
    RecoveredShut(t, t.order);
    RecoveredApply(t, Watch(ShutIn(s), true), t.order);
    ApplyNext(Observe, Watch(ShutIn(s), true), t.step, RecoveredKinds(t, t.order), last);
    Emitted(s, u, RecoveredKinds(t, t.order) + [last]);
  }

  lemma RecoveredShut(s: Session, ids: seq<WorkerId>)
    ensures ShutIn(s.(workers := RecoveredWorkers(s, ids))) == ShutIn(s)
  {
  }

  lemma FailWatched(s: Session, reason: string)
    requires Watched(s)
    ensures Watched(Fail(s, reason))
  {
    hide Watched;
    var t := Bump(s).(workflow := Failed);
    assert ShutIn(t) == ShutIn(s);
    ApplyOne(Observe, Watch(ShutIn(s), true), t.step, WorkflowStopped(reason));
    Emitted(s, t, [WorkflowStopped(reason)]);
  }

  lemma SameWatch(s: Session, t: Session)
    requires Watched(s) && t.log == s.log && t.workers == s.workers
    ensures Watched(t)
  {
    assert ShutIn(t) == ShutIn(s);
  }

  lemma TestRunWatched(s: Session, id: WorkerId, passed: bool, summary: string)
    requires Watched(s)
    ensures Watched(RecordTestRun(s, id, passed, summary).0)
  {
    hide Watched, Complete;
    var t := WithTestRun(s, passed, summary);
    SameWatch(s, t);
    if Complete(t, id, "pytest").Ok? { CompleteWatched(t, id, "pytest"); }
  }

  lemma ArtifactWatched(s: Session, artifact: ArtifactId, id: WorkerId, kind: string)
    requires Watched(s) && RecordArtifact(s, artifact, id, kind).Ok?
    ensures Watched(RecordArtifact(s, artifact, id, kind).value)
  {
    SameWatch(s, RecordArtifact(s, artifact, id, kind).value);
  }

  lemma CallWatched(s: Session, c: Call)
    requires Watched(s)
    ensures Watched(After(s, c))
  {
    hide Watched, Register, Start, Complete, RecordModelCall, RecordTestRun, RecordArtifact, RequestResource, QuarantineWorker, Reassign, Recover, Fail;
    match c
    case CallRegister(id, role, upstream, takesOver, modelBacked) => RegisterWatched(s, id, role, upstream, takesOver, modelBacked);
    case CallStart(id, task) => if Start(s, id, task).Ok? { StartWatched(s, id, task); }
    case CallComplete(id, stepName) => if Complete(s, id, stepName).Ok? { CompleteWatched(s, id, stepName); }
    case CallModel(id) => if RecordModelCall(s, id).Ok? { ModelWatched(s, id); }
    case CallTestRun(id, passed, summary) => TestRunWatched(s, id, passed, summary);
    case CallArtifact(artifact, id, kind) => if RecordArtifact(s, artifact, id, kind).Ok? { ArtifactWatched(s, artifact, id, kind); }
    case CallRequest(id, path) => if RequestResource(s, id, path).Ok? { RequestWatched(s, id, path); }
    case CallQuarantine(id, why) => if QuarantineWorker(s, id, why).Ok? { QuarantineWatched(s, id, why); }
    case CallReassign(from, to, role, task, upstream, modelBacked) =>
      if Reassign(s, from, to, role, task, upstream, modelBacked).Ok? { ReassignWatched(s, from, to, role, task, upstream, modelBacked); }
    case CallRecover => RecoverWatched(s);
    case CallFail(reason) => FailWatched(s, reason);
  }

  lemma {:induction false} AlwaysWatched(calls: seq<Call>)
    ensures Watched(Run(calls))
  {
    hide After;
    if |calls| > 0 {
      AlwaysWatched(calls[..|calls| - 1]);
      hide Watched;
      CallWatched(Run(calls[..|calls| - 1]), calls[|calls| - 1]);
    }
  }

  lemma {:induction false} OkEarlier(log: seq<Draft>, j: nat)
    requires j <= |log| && WatchOf(log).ok
    ensures WatchOf(log[..j]).ok
    decreases |log| - j
  {
    if j == |log| {
      assert log[..j] == log;
    } else {
      OkEarlier(log, j + 1);
      assert log[..j + 1][..j] == log[..j];
    }
  }

  predicate Quarantines(k: Kind, w: WorkerId) { k.AgentQuarantined? && k.worker == w }

  predicate Creates(k: Kind, w: WorkerId) { k.AgentCreated? && k.worker == w }

  lemma {:induction false} StaysShut(log: seq<Draft>, i: nat, j: nat, w: WorkerId)
    requires i < j <= |log| && Quarantines(log[i].kind, w)
    requires forall k | i < k < j :: !Creates(log[k].kind, w)
    ensures w in WatchOf(log[..j]).shut
    decreases j
  {
    assert log[..j][..j - 1] == log[..j - 1];
    if i < j - 1 { StaysShut(log, i, j - 1, w); }
  }

  /** Between AGENT_QUARANTINED(w) and any later TOOL_EXECUTED, TASK_ASSIGNED, AGENT_STARTED,
      TASK_COMPLETED, AGENT_RECOVERED or second AGENT_QUARANTINED of w there is an
      AGENT_CREATED(w): over the whole log of every sequence of calls. */
  lemma NoActionInQuarantine(calls: seq<Call>, i: nat, j: nat, w: WorkerId)
    requires i < j < |Run(calls).log|
    requires Quarantines(Run(calls).log[i].kind, w) && Acts(Run(calls).log[j].kind) == Some(w)
    ensures exists k :: i < k < j && Creates(Run(calls).log[k].kind, w)
  {
    hide Run;
    var log := Run(calls).log;
    AlwaysWatched(calls);
    OkEarlier(log, j + 1);
    assert log[..j + 1][..j] == log[..j];
    if forall k | i < k < j :: !Creates(log[k].kind, w) {
      StaysShut(log, i, j, w);
      assert false;
    }
  }

  // --- the deny cascade -----------------------------------------------------------------------------

  /** One POLICY_VIOLATION with the four events around it: same step, same worker. */
  ghost predicate InCascade(log: seq<Draft>, j: int) {
    && 2 <= j < |log| - 2 && log[j].kind.PolicyViolation?
    && var v, tick := log[j].kind, log[j].tick;
    && log[j - 2] == Draft(tick, ToolRequested(v.worker, v.resource))
    && log[j - 1] == Draft(tick, ToolDenied(v.worker, v.resource, v.violation))
    && log[j + 1] == Draft(tick, AnomalyDetected(v.worker, v.violation))
    && log[j + 2].tick == tick && Quarantines(log[j + 2].kind, v.worker) && log[j + 2].kind.violation == v.violation
  }

  ghost predicate Cascades(log: seq<Draft>) {
    forall j | 0 <= j < |log| && log[j].kind.PolicyViolation? :: InCascade(log, j)
  }

  lemma CascadesAppend(a: seq<Draft>, b: seq<Draft>)
    requires Cascades(a) && Cascades(b)
    ensures Cascades(a + b)
  {
    var log := a + b;
    forall j | 0 <= j < |log| && log[j].kind.PolicyViolation? ensures InCascade(log, j) {
      if j < |a| {
        assert InCascade(a, j);
      } else {
        assert InCascade(b, j - |a|);
        assert log[j - 2] == b[j - |a| - 2] && log[j - 1] == b[j - |a| - 1] && log[j] == b[j - |a|];
        assert log[j + 1] == b[j - |a| + 1] && log[j + 2] == b[j - |a| + 2];
      }
    }
  }

  lemma PlainBatch(tick: nat, kinds: seq<Kind>)
    requires forall k | k in kinds :: !k.PolicyViolation?
    ensures Cascades(Stamp(tick, kinds))
  {
    forall j | 0 <= j < |kinds| ensures !Stamp(tick, kinds)[j].kind.PolicyViolation? { assert kinds[j] in kinds; }
  }

  lemma {:induction false} RecoveredPlain(s: Session, ids: seq<WorkerId>)
    ensures forall k | k in RecoveredKinds(s, ids) :: !k.PolicyViolation?
  {
    if |ids| > 0 { RecoveredPlain(s, ids[..|ids| - 1]); }
  }

  lemma CascadeBatch(tick: nat, id: WorkerId, path: string, why: Violation, last: Kind)
    requires Quarantines(last, id) && last.violation == why
    ensures Cascades(Stamp(tick, [ToolRequested(id, path), ToolDenied(id, path, why), PolicyViolation(id, path, why), AnomalyDetected(id, why), last]))
  {
  }

  lemma EmitCascades(s: Session, t: Session, kinds: seq<Kind>)
    requires Cascades(s.log) && t.log == s.log && Cascades(Stamp(t.step, kinds))
    ensures Cascades(Emit(t, kinds).log)
  {
    CascadesAppend(s.log, Stamp(t.step, kinds));
  }

  lemma EmitPlain(s: Session, t: Session, kinds: seq<Kind>)
    requires Cascades(s.log) && t.log == s.log && forall k | k in kinds :: !k.PolicyViolation?
    ensures Cascades(Emit(t, kinds).log)
  {
    PlainBatch(t.step, kinds);
    EmitCascades(s, t, kinds);
  }

  lemma RequestCascades(s: Session, id: WorkerId, path: string)
    requires Cascades(s.log) && RequestResource(s, id, path).Ok?
    ensures Cascades(RequestResource(s, id, path).value.0.log)
  {
    hide Cascades, PolicyDecision.Evaluate, Quarantining, Emit;
    var t := Bump(s);
    var decision := PolicyDecision.Evaluate(PolicyDecision.Text(path));
    if !Active(s.workers[id]) {
      EmitPlain(s, t, [ToolRequested(id, path), ToolDenied(id, path, AlreadyQuarantined)]);
    } else if decision.Allowed() && decision.normalized.Some? {
      EmitPlain(s, t, [ToolRequested(id, path), ToolExecuted(id, decision.normalized.value)]);
    } else {
      var why := ByPolicy(decision.rule);
      var (u, last) := Quarantining(t, id, why, Some(POISONED_NOTES));
      QuarantiningNames(t, id, why, Some(POISONED_NOTES));
      CascadeBatch(u.step, id, path, why, last);
      EmitCascades(s, u, [ToolRequested(id, path), ToolDenied(id, path, why), PolicyViolation(id, path, why), AnomalyDetected(id, why), last]);
    }
  }

  lemma QuarantiningNames(s: Session, id: WorkerId, why: Violation, source: Option<string>)
    requires id in s.workers
    ensures var (t, k) := Quarantining(s, id, why, source); Quarantines(k, id) && k.violation == why && t.log == s.log
  {
  }

  lemma QuarantineCascades(s: Session, id: WorkerId, why: Violation)
    requires Cascades(s.log) && QuarantineWorker(s, id, why).Ok?
    ensures Cascades(QuarantineWorker(s, id, why).value.log)
  {
    hide Cascades, Quarantining, Emit;
    if Active(s.workers[id]) {
      var (t, last) := Quarantining(Bump(s), id, why, None);
      QuarantiningNames(Bump(s), id, why, None);
      EmitPlain(s, t, [last]);
    }
  }

  lemma RecoverCascades(s: Session)
    requires Cascades(s.log)
    ensures Cascades(Recover(s).log)
  {
    hide Cascades, Emit, RecoveredKinds, QuarantinedIds;
    var t := Bump(s).(workflow := Recovered, recoveryRequired := false);
    var u := t.(workers := RecoveredWorkers(t, t.order));
    RecoveredPlain(t, t.order);
    EmitPlain(s, u, RecoveredKinds(t, t.order) + [WorkflowRecovered(u.attackDetected, QuarantinedIds(u.workers, u.order))]);
  }

  lemma ReassignCascades(s: Session, from: WorkerId, to: WorkerId, role: string, task: string, upstream: seq<WorkerId>, modelBacked: bool)
    requires Cascades(s.log) && Reassign(s, from, to, role, task, upstream, modelBacked).Ok?
    ensures Cascades(Reassign(s, from, to, role, task, upstream, modelBacked).value.log)
  {
    hide Cascades, Emit, TrustedContext;
    var t := Bump(s);
    var u := PutWorker(t, to, NewWorker(role, upstream, Some(from), modelBacked, t.step, Some(task)))
      .(workflow := Recovering, recoveryRequired := false);
    EmitPlain(s, u, [TaskReassigned(from, to, task),
      AgentCreated(to, role, Some(from), modelBacked, Some(TrustedContext(u.artifacts, u.artifactOrder, to))), AgentStarted(to, task)]);
  }

  /** The calls that append one or two fixed events. */
  lemma SmallCascades(s: Session, c: Call)
    requires Cascades(s.log) && !c.CallRequest? && !c.CallQuarantine? && !c.CallRecover? && !c.CallReassign?
    ensures Cascades(After(s, c).log)
  {
    hide Cascades, Emit;
    match c
    case CallRegister(id, role, upstream, takesOver, modelBacked) =>
      var t := Bump(s);
      EmitPlain(s, PutWorker(t, id, NewWorker(role, upstream, takesOver, modelBacked, t.step, None)), [AgentCreated(id, role, takesOver, modelBacked, None)]);
    case CallStart(id, task) =>
      if ActiveIn(s, id) {
        var t := PutWorker(Bump(s), id, s.workers[id].(task := Some(task)));
        EmitPlain(s, t.(workflow := if s.workflow == Idle then Running else s.workflow), [TaskAssigned(id, task), AgentStarted(id, task)]);
      }
    case CallComplete(id, stepName) =>
      if ActiveIn(s, id) { EmitPlain(s, PutWorker(Bump(s), id, s.workers[id].(task := None)), [TaskCompleted(id, stepName)]); }
    case CallModel(id) =>
      if id in s.workers {
        var t := PutWorker(Bump(s), id, s.workers[id].(modelBacked := true));
        EmitPlain(s, t.(modelCalls := s.modelCalls + 1), [ModelRequested(id), ModelResponded(id)]);
      }
    case CallTestRun(id, passed, summary) =>
      var t := WithTestRun(s, passed, summary);
      if ActiveIn(t, id) { EmitPlain(t, PutWorker(Bump(t), id, t.workers[id].(task := None)), [TaskCompleted(id, "pytest")]); }
    case CallArtifact(_, _, _) =>
    case CallFail(reason) => EmitPlain(s, Bump(s).(workflow := Failed), [WorkflowStopped(reason)]);
  }

  lemma CallCascades(s: Session, c: Call)
    requires Cascades(s.log)
    ensures Cascades(After(s, c).log)
  {
    hide Cascades, RequestResource, QuarantineWorker, Reassign, Recover;
    match c
    case CallRequest(id, path) => if RequestResource(s, id, path).Ok? { RequestCascades(s, id, path); }
    case CallQuarantine(id, why) => if QuarantineWorker(s, id, why).Ok? { QuarantineCascades(s, id, why); }
    case CallReassign(from, to, role, task, upstream, modelBacked) =>
      if Reassign(s, from, to, role, task, upstream, modelBacked).Ok? { ReassignCascades(s, from, to, role, task, upstream, modelBacked); }
    case CallRecover => RecoverCascades(s);
    case _ => SmallCascades(s, c);
  }

  /** Every POLICY_VIOLATION of a session stands in the middle of one block of five consecutive
      events of the same worker and step, from TOOL_REQUESTED to AGENT_QUARANTINED. */
  lemma {:induction false} ViolationsCascade(calls: seq<Call>)
    ensures Cascades(Run(calls).log)
  {
    hide After;
    if |calls| > 0 {
      ViolationsCascade(calls[..|calls| - 1]);
      hide Cascades;
      CallCascades(Run(calls[..|calls| - 1]), calls[|calls| - 1]);
    }
  }
}
