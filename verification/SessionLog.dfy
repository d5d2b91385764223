/** The session's log is the session: a fold over it rebuilds every worker and every flag. */
module SessionLog {
  import opened Wrappers
  import opened SessionFolds
  import opened SessionModel
  import PolicyDecision
  import Folds
  import World

  datatype WorkerView = WorkerView(
    role: string, state: SecurityState, task: Option<string>, takesOver: Option<WorkerId>,
    modelBacked: bool, stepRegistered: nat, stepQuarantined: Option<nat>, why: Option<Violation>)

  datatype View = View(
    workers: map<WorkerId, WorkerView>, order: seq<WorkerId>, workflow: Workflow, step: nat,
    attackDetected: bool, recoveryRequired: bool, modelCalls: nat)

  const EMPTY: View := View(map[], [], Idle, 0, false, false, 0)

  function WorkerViewOf(w: Worker): WorkerView {
    WorkerView(w.role, w.state, w.task, w.takesOver, w.modelBacked, w.stepRegistered, w.stepQuarantined, w.why)
  }

  function WorkersView(workers: map<WorkerId, Worker>): (v: map<WorkerId, WorkerView>)
    ensures v.Keys == workers.Keys
  {
    map id | id in workers :: WorkerViewOf(workers[id])
  }

  function ViewOf(s: Session): View {
    View(WorkersView(s.workers), s.order, s.workflow, s.step, s.attackDetected, s.recoveryRequired, s.modelCalls)
  }

  function SetTask(v: View, id: WorkerId, task: Option<string>): View {
    if id in v.workers then v.(workers := v.workers[id := v.workers[id].(task := task)]) else v
  }

  /** What one event says. */
  function Reduce(v0: View, d: Draft): View {
    var v := v0.(step := d.tick);
    match d.kind
    case AgentCreated(id, role, takesOver, modelBacked, _) =>
      v.(workers := v.workers[id := WorkerView(role, World.Healthy, None, takesOver, modelBacked, d.tick, None, None)],
         order := AddKey(v.order, id))
    case AgentStarted(id, task) =>
      SetTask(v, id, Some(task)).(workflow := if v.workflow == Idle then Running else v.workflow)
    case TaskCompleted(id, _) => SetTask(v, id, None)
    case ModelResponded(id) =>
      (if id in v.workers then v.(workers := v.workers[id := v.workers[id].(modelBacked := true)]) else v)
        .(modelCalls := v.modelCalls + 1)
    case AgentQuarantined(id, why, _) =>
      (if id in v.workers
       then v.(workers := v.workers[id := v.workers[id].(
              state := World.Quarantined, stepQuarantined := Some(d.tick), why := Some(why), task := None)]) else v)
        .(attackDetected := true, recoveryRequired := true, workflow := UnderAttack)
    case TaskReassigned(_, _, _) => v.(workflow := Recovering, recoveryRequired := false)
    case AgentRecovered(id, _) =>
      if id in v.workers then v.(workers := v.workers[id := v.workers[id].(state := World.Recovered)]) else v
    case WorkflowRecovered(_, _) => v.(workflow := Recovered, recoveryRequired := false)
    case WorkflowStopped(_) => v.(workflow := Failed)
    case _ => v
  }

  function Fold(v: View, log: seq<Draft>): View { Folds.Fold(Reduce, v, log) }

  /** The log of s explains s. */
  ghost predicate Explained(s: Session) { Fold(EMPTY, s.log) == ViewOf(s) }

  /** Every worker has a place in the order. */
  ghost predicate Ordered(s: Session) { forall id :: id in s.workers <==> id in s.order }

  lemma Emitted(s: Session, t: Session, kinds: seq<Kind>)
    requires Explained(s) && t.log == s.log && Apply(Reduce, ViewOf(s), t.step, kinds) == ViewOf(t)
    ensures Explained(Emit(t, kinds))
  {
    hide Apply, Reduce;
    Folds.FoldAppend(Reduce, EMPTY, s.log, Stamp(t.step, kinds));
    ApplyIsFold(Reduce, ViewOf(s), t.step, kinds);
    assert ViewOf(Emit(t, kinds)) == ViewOf(t);
  }

  lemma PutView(s: Session, id: WorkerId, w: Worker)
    ensures ViewOf(PutWorker(s, id, w)) == ViewOf(s).(workers := WorkersView(s.workers)[id := WorkerViewOf(w)], order := AddKey(s.order, id))
  {
    assert WorkersView(s.workers[id := w]) == WorkersView(s.workers)[id := WorkerViewOf(w)];
  }

  ghost predicate Good(s: Session) { Explained(s) && Ordered(s) }

  lemma RegisterExplained(s: Session, id: WorkerId, role: string, upstream: seq<WorkerId>, takesOver: Option<WorkerId>, modelBacked: bool)
    requires Good(s)
    ensures Good(Register(s, id, role, upstream, takesOver, modelBacked))
  {
    hide Explained;
    var t := Bump(s);
    var w := NewWorker(role, upstream, takesOver, modelBacked, t.step, None);
    var k := AgentCreated(id, role, takesOver, modelBacked, None);
    PutView(t, id, w);
    ApplyOne(Reduce, ViewOf(s), t.step, k);
    Emitted(s, PutWorker(t, id, w), [k]);
  }

  lemma StartView(s: Session, id: WorkerId, task: string)
    requires ActiveIn(s, id) && id in s.order
    ensures var t := PutWorker(Bump(s), id, s.workers[id].(task := Some(task)));
      Reduce(Reduce(ViewOf(s), Draft(s.step + 1, TaskAssigned(id, task))), Draft(s.step + 1, AgentStarted(id, task))) ==
        ViewOf(t.(workflow := if s.workflow == Idle then Running else s.workflow))
  {
    PutView(Bump(s), id, s.workers[id].(task := Some(task)));
  }

  lemma StartExplained(s: Session, id: WorkerId, task: string)
    requires Good(s) && Start(s, id, task).Ok?
    ensures Good(Start(s, id, task).value)
  {
    hide Explained, Reduce, Apply, ViewOf;
    var w := s.workers[id].(task := Some(task));
    var t := PutWorker(Bump(s), id, w).(workflow := if s.workflow == Idle then Running else s.workflow);
    StartView(s, id, task);
    ApplyTwo(Reduce, ViewOf(s), t.step, TaskAssigned(id, task), AgentStarted(id, task));
    Emitted(s, t, [TaskAssigned(id, task), AgentStarted(id, task)]);
  }

  lemma CompleteExplained(s: Session, id: WorkerId, stepName: string)
    requires Good(s) && Complete(s, id, stepName).Ok?
    ensures Good(Complete(s, id, stepName).value)
  {
    hide Explained;
    var w := s.workers[id].(task := None);
    PutView(Bump(s), id, w);
    ApplyOne(Reduce, ViewOf(s), s.step + 1, TaskCompleted(id, stepName));
    Emitted(s, PutWorker(Bump(s), id, w), [TaskCompleted(id, stepName)]);
  }

  lemma ModelExplained(s: Session, id: WorkerId)
    requires Good(s) && RecordModelCall(s, id).Ok?
    ensures Good(RecordModelCall(s, id).value)
  {
    hide Explained;
    var w := s.workers[id].(modelBacked := true);
    var t := PutWorker(Bump(s), id, w).(modelCalls := s.modelCalls + 1);
    PutView(Bump(s), id, w);
    ApplyTwo(Reduce, ViewOf(s), t.step, ModelRequested(id), ModelResponded(id));
    Emitted(s, t, [ModelRequested(id), ModelResponded(id)]);
  }

  lemma QuarantiningView(s: Session, id: WorkerId, why: Violation, source: Option<string>)
    requires id in s.workers && id in s.order
    ensures var (t, k) := Quarantining(s, id, why, source);
      ViewOf(t) == Reduce(ViewOf(s), Draft(s.step, k)) && t.log == s.log && t.step == s.step && (Ordered(s) ==> Ordered(t))
  {
    hide TrustedOf;
    PutView(s, id, Confined(s.workers[id], s.step, why, source));
  }

  lemma RequestExplained(s: Session, id: WorkerId, path: string)
    requires Good(s) && RequestResource(s, id, path).Ok?
    ensures Good(RequestResource(s, id, path).value.0)
  {
    hide Explained, PolicyDecision.Evaluate, Quarantining;
    var t := Bump(s);
    if !Active(s.workers[id]) {
      ApplyTwo(Reduce, ViewOf(s), t.step, ToolRequested(id, path), ToolDenied(id, path, AlreadyQuarantined));
      Emitted(s, t, [ToolRequested(id, path), ToolDenied(id, path, AlreadyQuarantined)]);
    } else {
      var decision := PolicyDecision.Evaluate(PolicyDecision.Text(path));
      if decision.Allowed() && decision.normalized.Some? {
        ApplyTwo(Reduce, ViewOf(s), t.step, ToolRequested(id, path), ToolExecuted(id, decision.normalized.value));
        Emitted(s, t, [ToolRequested(id, path), ToolExecuted(id, decision.normalized.value)]);
      } else {
        var why := ByPolicy(decision.rule);
        DenialExplained(s, id, path, why);
      }
    }
  }

  lemma StepOnly(v: View, t: nat, k: Kind)
    requires k.ToolRequested? || k.ToolDenied? || k.PolicyViolation? || k.AnomalyDetected?
    ensures Reduce(v, Draft(t, k)) == v.(step := t)
  {
  }

  /** An event sets the step itself. */
  lemma StepForgotten(v: View, t: nat, k: Kind)
    ensures Reduce(v.(step := t), Draft(t, k)) == Reduce(v, Draft(t, k))
  {
  }

  /** The four events before a quarantine change nothing but the step. */
  lemma PreludeView(s: Session, id: WorkerId, path: string, why: Violation, last: Kind)
    ensures var t := s.step + 1;
      Reduce(Reduce(Reduce(Reduce(Reduce(ViewOf(s), Draft(t, ToolRequested(id, path))), Draft(t, ToolDenied(id, path, why))),
        Draft(t, PolicyViolation(id, path, why))), Draft(t, AnomalyDetected(id, why))), Draft(t, last)) == Reduce(ViewOf(s), Draft(t, last))
  {
    hide Reduce, ViewOf;
    var v, t := ViewOf(s), s.step + 1;
    StepOnly(v, t, ToolRequested(id, path));
    StepOnly(v.(step := t), t, ToolDenied(id, path, why));
    StepOnly(v.(step := t), t, PolicyViolation(id, path, why));
    StepOnly(v.(step := t), t, AnomalyDetected(id, why));
    StepForgotten(v, t, last);
  }

  /** The deny cascade: only its last event changes anything but the step. */
  lemma DenialExplained(s: Session, id: WorkerId, path: string, why: Violation)
    requires Good(s) && id in s.workers
    ensures var (u, last) := Quarantining(Bump(s), id, why, Some(POISONED_NOTES));
      Good(Emit(u, [ToolRequested(id, path), ToolDenied(id, path, why), PolicyViolation(id, path, why), AnomalyDetected(id, why), last]))
  {
    hide Explained, Quarantining, Apply, ViewOf, Reduce;
    var t := Bump(s);
    var (u, last) := Quarantining(t, id, why, Some(POISONED_NOTES));
    QuarantiningView(t, id, why, Some(POISONED_NOTES));
    QuarantiningStep(s, id, why, Some(POISONED_NOTES));
    PreludeView(s, id, path, why, last);
    ApplyFive(Reduce, ViewOf(s), t.step, ToolRequested(id, path), ToolDenied(id, path, why), PolicyViolation(id, path, why), AnomalyDetected(id, why), last);
    Emitted(s, u, [ToolRequested(id, path), ToolDenied(id, path, why), PolicyViolation(id, path, why), AnomalyDetected(id, why), last]);
  }

  lemma QuarantineExplained(s: Session, id: WorkerId, why: Violation)
    requires Good(s) && QuarantineWorker(s, id, why).Ok?
    ensures Good(QuarantineWorker(s, id, why).value)
  {
    hide Explained, Quarantining, Reduce, Apply, ViewOf;
    if Active(s.workers[id]) {
      var (t, last) := Quarantining(Bump(s), id, why, None);
      QuarantiningView(Bump(s), id, why, None);
      QuarantiningStep(s, id, why, None);
      ApplyOne(Reduce, ViewOf(s), t.step, last);
      Emitted(s, t, [last]);
    }
  }

  /** The step counter is set by the event itself. */
  lemma QuarantiningStep(s: Session, id: WorkerId, why: Violation, source: Option<string>)
    requires id in s.workers
    ensures var k := Quarantining(Bump(s), id, why, source).1;
      Reduce(ViewOf(Bump(s)), Draft(s.step + 1, k)) == Reduce(ViewOf(s), Draft(s.step + 1, k))
  {
    hide TrustedOf;
  }

  /** The three events of a hand-over create the replacement with its task. */
  lemma HandOver(s: Session, from: WorkerId, to: WorkerId, w: Worker, task: string, context: Option<seq<ArtifactId>>)
    requires w == NewWorker(w.role, w.upstream, Some(from), w.modelBacked, s.step + 1, Some(task))
    ensures var t := s.step + 1;
      var v := Reduce(ViewOf(s), Draft(t, TaskReassigned(from, to, task)));
      var x := Reduce(v, Draft(t, AgentCreated(to, w.role, Some(from), w.modelBacked, context)));
      Reduce(x, Draft(t, AgentStarted(to, task))) ==
        ViewOf(PutWorker(Bump(s), to, w).(workflow := Recovering, recoveryRequired := false))
  {
    PutView(Bump(s), to, w);
  }

  lemma ReassignExplained(s: Session, from: WorkerId, to: WorkerId, role: string, task: string, upstream: seq<WorkerId>, modelBacked: bool)
    requires Good(s) && Reassign(s, from, to, role, task, upstream, modelBacked).Ok?
    ensures Good(Reassign(s, from, to, role, task, upstream, modelBacked).value)
  {
    hide Explained, TrustedContext, Reduce, Apply, ViewOf;
    var t := Bump(s);
    var w := NewWorker(role, upstream, Some(from), modelBacked, t.step, Some(task));
    var u := PutWorker(t, to, w).(workflow := Recovering, recoveryRequired := false);
    var context := Some(TrustedContext(u.artifacts, u.artifactOrder, to));
    var a := TaskReassigned(from, to, task);
    var b := AgentCreated(to, role, Some(from), modelBacked, context);
    HandOver(s, from, to, w, task, context);
    ApplyThree(Reduce, ViewOf(s), t.step, a, b, AgentStarted(to, task));
    Emitted(s, u, [a, b, AgentStarted(to, task)]);
  }

  lemma KindsNext(s: Session, ids: seq<WorkerId>, id: WorkerId)
    ensures RecoveredKinds(s, ids + [id]) ==
      if Recovers(s, id) then RecoveredKinds(s, ids) + [AgentRecovered(id, s.workers[id].takesOver.value)] else RecoveredKinds(s, ids)
  {
    assert (ids + [id])[..|ids|] == ids;
  }

  lemma ReduceRecovered(v: View, id: WorkerId, replaced: WorkerId)
    requires id in v.workers
    ensures Reduce(v, Draft(v.step, AgentRecovered(id, replaced))) == v.(workers := v.workers[id := v.workers[id].(state := World.Recovered)])
  {
  }

  lemma {:induction false} RecoveredApply(s: Session, v: View, ids: seq<WorkerId>)
    requires v == ViewOf(s)
    ensures Apply(Reduce, v, s.step, RecoveredKinds(s, ids)) == v.(workers := WorkersView(RecoveredWorkers(s, ids)))
  {
    hide Apply, Reduce, RecoveredKinds, WorkersView;
    if |ids| == 0 {
      NoneRecovered(s, v);
      assert RecoveredWorkers(s, ids) == s.workers;
    } else {
      var earlier, id := ids[..|ids| - 1], ids[|ids| - 1];
      assert ids == earlier + [id];
      RecoveredApply(s, v, earlier);
      RecoverOne(s, earlier, id);
      KindsNext(s, earlier, id);
      if Recovers(s, id) {
        var x := v.(workers := WorkersView(RecoveredWorkers(s, earlier)));
        ApplyNext(Reduce, v, s.step, RecoveredKinds(s, earlier), AgentRecovered(id, s.workers[id].takesOver.value));
        ReduceRecovered(x, id, s.workers[id].takesOver.value);
      }
    }
  }

  lemma NoneRecovered(s: Session, v: View)
    ensures RecoveredKinds(s, []) == [] && Apply(Reduce, v, s.step, []) == v
  {
  }

  lemma RecoverOne(s: Session, ids: seq<WorkerId>, id: WorkerId)
    ensures RecoveredWorkers(s, ids + [id]) ==
      if Recovers(s, id) then RecoveredWorkers(s, ids)[id := s.workers[id].(state := World.Recovered)] else RecoveredWorkers(s, ids)
    ensures Recovers(s, id) ==>
      WorkersView(RecoveredWorkers(s, ids + [id])) ==
        var v := WorkersView(RecoveredWorkers(s, ids)); v[id := v[id].(state := World.Recovered)]
  {
    RecoverOneWorker(s, ids, id);
    if Recovers(s, id) { RecoverOneView(s, RecoveredWorkers(s, ids), id); }
  }

  lemma RecoverOneWorker(s: Session, ids: seq<WorkerId>, id: WorkerId)
    ensures RecoveredWorkers(s, ids + [id]) ==
      if Recovers(s, id) then RecoveredWorkers(s, ids)[id := s.workers[id].(state := World.Recovered)] else RecoveredWorkers(s, ids)
    ensures id in s.workers ==> id in RecoveredWorkers(s, ids) && RecoveredWorkers(s, ids)[id].(state := World.Recovered) == s.workers[id].(state := World.Recovered)
  {
  }

  lemma RecoverOneView(s: Session, workers: map<WorkerId, Worker>, id: WorkerId)
    requires id in workers && id in s.workers && workers[id].(state := World.Recovered) == s.workers[id].(state := World.Recovered)
    ensures WorkersView(workers[id := s.workers[id].(state := World.Recovered)]) ==
      var v := WorkersView(workers); v[id := v[id].(state := World.Recovered)]
  {
  }

  lemma RecoverExplained(s: Session)
    requires Good(s)
    ensures Good(Recover(s))
  {
    hide Explained, Apply, RecoveredKinds, QuarantinedIds;
    var t := Bump(s).(workflow := Recovered, recoveryRequired := false);
    var u := t.(workers := RecoveredWorkers(t, t.order));
    var kinds := RecoveredKinds(t, t.order);
    var last := WorkflowRecovered(u.attackDetected, QuarantinedIds(u.workers, u.order));
    RecoveredApply(t, ViewOf(t), t.order);
    FlagsLater(s, t, kinds, last);
    ApplyNext(Reduce, ViewOf(s), t.step, kinds, last);
    Emitted(s, u, kinds + [last]);
  }

  /** The flags `recover` clears first are set again, to the same values, by its last event. */
  lemma FlagsLater(s: Session, t: Session, kinds: seq<Kind>, last: Kind)
    requires t == Bump(s).(workflow := Recovered, recoveryRequired := false) && last.WorkflowRecovered?
    requires kinds == RecoveredKinds(t, t.order)
    ensures Reduce(Apply(Reduce, ViewOf(s), t.step, kinds), Draft(t.step, last)) == Apply(Reduce, ViewOf(t), t.step, kinds)
  {
    hide Apply, RecoveredKinds;
    RecoveredOnly(t, t.order);
    FlagsCommute(ViewOf(s), ViewOf(t), t.step, kinds);
  }

  lemma {:induction false} RecoveredOnly(s: Session, ids: seq<WorkerId>)
    ensures forall k | k in RecoveredKinds(s, ids) :: k.AgentRecovered?
  {
    if |ids| > 0 { RecoveredOnly(s, ids[..|ids| - 1]); }
  }

  lemma {:induction false} FlagsCommute(v: View, w: View, tick: nat, kinds: seq<Kind>)
    requires w == v.(step := tick, workflow := Recovered, recoveryRequired := false)
    requires forall k | k in kinds :: k.AgentRecovered?
    ensures Apply(Reduce, w, tick, kinds) == Apply(Reduce, v, tick, kinds).(step := tick, workflow := Recovered, recoveryRequired := false)
  {
    if |kinds| > 0 {
      assert kinds[|kinds| - 1] in kinds;
      FlagsCommute(v, w, tick, kinds[..|kinds| - 1]);
    }
  }

  lemma FailExplained(s: Session, reason: string)
    requires Good(s)
    ensures Good(Fail(s, reason))
  {
    hide Explained;
    var t := Bump(s).(workflow := Failed);
    ApplyOne(Reduce, ViewOf(s), t.step, WorkflowStopped(reason));
    Emitted(s, t, [WorkflowStopped(reason)]);
  }

  lemma SameView(s: Session, t: Session)
    requires Good(s) && ViewOf(t) == ViewOf(s) && t.log == s.log && t.workers == s.workers && t.order == s.order
    ensures Good(t)
  {
  }

  lemma TestRunExplained(s: Session, id: WorkerId, passed: bool, summary: string)
    requires Good(s)
    ensures Good(RecordTestRun(s, id, passed, summary).0)
  {
    hide Good, Complete;
    var t := WithTestRun(s, passed, summary);
    SameView(s, t);
    if Complete(t, id, "pytest").Ok? { CompleteExplained(t, id, "pytest"); }
  }

  lemma ArtifactExplained(s: Session, artifact: ArtifactId, id: WorkerId, kind: string)
    requires Good(s) && RecordArtifact(s, artifact, id, kind).Ok?
    ensures Good(RecordArtifact(s, artifact, id, kind).value)
  {
    SameView(s, RecordArtifact(s, artifact, id, kind).value);
  }

  lemma CallExplained(s: Session, c: Call)
    requires Good(s)
    ensures Good(After(s, c))
  {
    hide Good, Register, Start, Complete, RecordModelCall, RecordTestRun, RecordArtifact, RequestResource, QuarantineWorker, Reassign, Recover, Fail;
    match c
    case CallRegister(id, role, upstream, takesOver, modelBacked) => RegisterExplained(s, id, role, upstream, takesOver, modelBacked);
    case CallStart(id, task) => if Start(s, id, task).Ok? { StartExplained(s, id, task); }
    case CallComplete(id, stepName) => if Complete(s, id, stepName).Ok? { CompleteExplained(s, id, stepName); }
    case CallModel(id) => if RecordModelCall(s, id).Ok? { ModelExplained(s, id); }
    case CallTestRun(id, passed, summary) => TestRunExplained(s, id, passed, summary);
    case CallArtifact(artifact, id, kind) => if RecordArtifact(s, artifact, id, kind).Ok? { ArtifactExplained(s, artifact, id, kind); }
    case CallRequest(id, path) => if RequestResource(s, id, path).Ok? { RequestExplained(s, id, path); }
    case CallQuarantine(id, why) => if QuarantineWorker(s, id, why).Ok? { QuarantineExplained(s, id, why); }
    case CallReassign(from, to, role, task, upstream, modelBacked) =>
      if Reassign(s, from, to, role, task, upstream, modelBacked).Ok? { ReassignExplained(s, from, to, role, task, upstream, modelBacked); }
    case CallRecover => RecoverExplained(s);
    case CallFail(reason) => FailExplained(s, reason);
  }

  lemma FreshGood()
    ensures Good(FRESH)
  {
    assert WorkersView(map[]) == map[];
  }

  /** After every sequence of session calls, failing ones included, the fold of the event log is
      the session: every worker's state, task, role, model flag, quarantine step and reason, the
      workflow state, the step counter, the flags and the number of model calls. */
  lemma {:induction false} LogIsTheSession(calls: seq<Call>)
    ensures Good(Run(calls))
    ensures Fold(EMPTY, Run(calls).log) == ViewOf(Run(calls))
  {
    hide Good, After;
    if |calls| == 0 {
      FreshGood();
    } else {
      LogIsTheSession(calls[..|calls| - 1]);
      CallExplained(Run(calls[..|calls| - 1]), calls[|calls| - 1]);
    }
    GoodExplained(Run(calls));
  }

  lemma GoodExplained(s: Session)
    requires Good(s)
    ensures Fold(EMPTY, s.log) == ViewOf(s)
  {
  }

  /** A snapshot and the events after it: the state at any earlier call plus the log written since
      is the present state. */
  lemma SnapshotPlusEvents(earlier: seq<Call>, later: seq<Call>)
    ensures Run(earlier).log <= Run(earlier + later).log
    ensures Fold(ViewOf(Run(earlier)), Run(earlier + later).log[|Run(earlier).log|..]) == ViewOf(Run(earlier + later))
  {
    hide Good, Reduce, Run, ViewOf;
    LogGrows(earlier, later);
    LogIsTheSession(earlier);
    LogIsTheSession(earlier + later);
    var a, all := Run(earlier).log, Run(earlier + later).log;
    assert all == a + all[|a|..];
    Folds.FoldAppend(Reduce, EMPTY, a, all[|a|..]);
  }

  lemma EmitAppends(s: Session, t: Session, kinds: seq<Kind>)
    requires t.log == s.log
    ensures s.log <= Emit(t, kinds).log
  {
  }

  lemma AppendsOnly(s: Session, c: Call)
    ensures s.log <= After(s, c).log
  {
    hide Emit, RequestResource, QuarantineWorker, Recover, Reassign;
    forall t: Session, kinds | t.log == s.log ensures s.log <= Emit(t, kinds).log { EmitAppends(s, t, kinds); }
    match c
    case CallRequest(id, path) => RequestAppends(s, id, path);
    case CallQuarantine(id, why) => QuarantineAppends(s, id, why);
    case CallRecover => RecoverAppends(s);
    case CallReassign(from, to, role, task, upstream, modelBacked) => ReassignAppends(s, from, to, role, task, upstream, modelBacked);
    case _ =>
  }

  lemma RequestAppends(s: Session, id: WorkerId, path: string)
    ensures RequestResource(s, id, path).Ok? ==> s.log <= RequestResource(s, id, path).value.0.log
  {
    hide Emit, PolicyDecision.Evaluate, TrustedOf, Taint, PutWorker;
    forall t: Session, kinds | t.log == s.log ensures s.log <= Emit(t, kinds).log { EmitAppends(s, t, kinds); }
    forall t: Session, w | t.log == s.log ensures PutWorker(t, id, w).log == s.log { PutLog(t, id, w); }
  }

  lemma PutLog(s: Session, id: WorkerId, w: Worker)
    ensures PutWorker(s, id, w).log == s.log
  {
  }

  lemma QuarantineAppends(s: Session, id: WorkerId, why: Violation)
    ensures QuarantineWorker(s, id, why).Ok? ==> s.log <= QuarantineWorker(s, id, why).value.log
  {
    hide TrustedOf, Taint;
  }

  lemma RecoverAppends(s: Session)
    ensures s.log <= Recover(s).log
  {
    hide RecoveredKinds, QuarantinedIds, RecoveredWorkers;
  }

  lemma ReassignAppends(s: Session, from: WorkerId, to: WorkerId, role: string, task: string, upstream: seq<WorkerId>, modelBacked: bool)
    ensures var r := Reassign(s, from, to, role, task, upstream, modelBacked); r.Ok? ==> s.log <= r.value.log
  {
    hide TrustedContext;
  }

  lemma {:induction false} LogGrows(earlier: seq<Call>, later: seq<Call>)
    ensures Run(earlier).log <= Run(earlier + later).log
  {
    hide After;
    if |later| == 0 {
      assert earlier + later == earlier;
    } else {
      LogGrows(earlier, later[..|later| - 1]);
      assert (earlier + later)[..|earlier + later| - 1] == earlier + later[..|later| - 1];
      AppendsOnly(Run(earlier + later[..|later| - 1]), later[|later| - 1]);
    }
  }
}
