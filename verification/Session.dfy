/** runtime/session.py on values: what each call of a live session does to its state and its log. */
module SessionModel {
  import opened Wrappers
  import World
  import PolicyDecision

  type SecurityState = World.SecurityState
  type WorkerId = string
  type ArtifactId = string

  datatype Workflow = Idle | Running | UnderAttack | Recovering | Recovered | Failed

  /** Why a request was refused or a worker quarantined; sentences are not spelled out. */
  datatype Violation = ByPolicy(rule: PolicyDecision.Rule) | AlreadyQuarantined | Reported(kind: string)

  datatype Worker = Worker(
    role: string, state: SecurityState, task: Option<string>, upstream: seq<WorkerId>,
    takesOver: Option<WorkerId>, modelBacked: bool, stepRegistered: nat,
    stepQuarantined: Option<nat>, why: Option<Violation>, compromisedBy: Option<string>)

  datatype Artifact = Artifact(worker: WorkerId, kind: string, trusted: bool, taint: Option<Violation>, step: nat)

  datatype Kind =
    | AgentCreated(worker: WorkerId, role: string, takesOver: Option<WorkerId>, modelBacked: bool, context: Option<seq<ArtifactId>>)
    | TaskAssigned(worker: WorkerId, task: string)
    | AgentStarted(worker: WorkerId, task: string)
    | TaskCompleted(worker: WorkerId, stepName: string)
    | ModelRequested(worker: WorkerId)
    | ModelResponded(worker: WorkerId)
    | ToolRequested(worker: WorkerId, resource: string)
    | ToolDenied(worker: WorkerId, resource: string, violation: Violation)
    | ToolExecuted(worker: WorkerId, resource: string)
    | PolicyViolation(worker: WorkerId, resource: string, violation: Violation)
    | AnomalyDetected(worker: WorkerId, violation: Violation)
    | AgentQuarantined(worker: WorkerId, violation: Violation, tainted: seq<ArtifactId>)
    | TaskReassigned(worker: WorkerId, target: WorkerId, task: string)
    | AgentRecovered(worker: WorkerId, replaced: WorkerId)
    | WorkflowRecovered(attackDetected: bool, quarantined: seq<WorkerId>)
    | WorkflowStopped(reason: string)

  datatype Draft = Draft(tick: nat, kind: Kind)

  /** The dictionaries keep insertion order: `order` and `artifactOrder` are their key orders. */
  datatype Session = Session(
    workers: map<WorkerId, Worker>, order: seq<WorkerId>,
    artifacts: map<ArtifactId, Artifact>, artifactOrder: seq<ArtifactId>,
    workflow: Workflow, step: nat, attackDetected: bool, recoveryRequired: bool, modelCalls: nat,
    testSummary: Option<string>, testsPassed: Option<bool>, log: seq<Draft>)

  datatype Error = UnknownWorker(worker: WorkerId)

  const FRESH: Session :=
    Session(map[], [], map[], [], Idle, 0, false, false, 0, None, None, [])

  predicate Active(w: Worker) { w.state != World.Quarantined }

  predicate ActiveIn(s: Session, w: WorkerId) { w in s.workers && Active(s.workers[w]) }

  predicate QuarantinedIn(s: Session, w: WorkerId) { w in s.workers && !Active(s.workers[w]) }

  function Stamp(tick: nat, kinds: seq<Kind>): (ds: seq<Draft>)
    ensures |ds| == |kinds| && forall i | 0 <= i < |ds| :: ds[i] == Draft(tick, kinds[i])
  {
    seq(|kinds|, i requires 0 <= i < |kinds| => Draft(tick, kinds[i]))
  }

  function Emit(s: Session, kinds: seq<Kind>): Session { s.(log := s.log + Stamp(s.step, kinds)) }

  function Bump(s: Session): Session { s.(step := s.step + 1) }

  function AddKey<K(==)>(order: seq<K>, k: K): seq<K> { if k in order then order else order + [k] }

  function PutWorker(s: Session, id: WorkerId, w: Worker): Session {
    s.(workers := s.workers[id := w], order := AddKey(s.order, id))
  }

  function NewWorker(role: string, upstream: seq<WorkerId>, takesOver: Option<WorkerId>, modelBacked: bool, step: nat, task: Option<string>): Worker {
    Worker(role, World.Healthy, task, upstream, takesOver, modelBacked, step, None, None, None)
  }

  // --- registration and lifecycle -----------------------------------------------------------------

  function Register(s: Session, id: WorkerId, role: string, upstream: seq<WorkerId>, takesOver: Option<WorkerId>, modelBacked: bool): Session {
    var t := Bump(s);
    Emit(PutWorker(t, id, NewWorker(role, upstream, takesOver, modelBacked, t.step, None)),
         [AgentCreated(id, role, takesOver, modelBacked, None)])
  }

  function Start(s: Session, id: WorkerId, task: string): Result<Session, Error> {
    if !ActiveIn(s, id) then Err(UnknownWorker(id)) else
      var t := PutWorker(Bump(s), id, s.workers[id].(task := Some(task)));
      Ok(Emit(t.(workflow := if s.workflow == Idle then Running else s.workflow), [TaskAssigned(id, task), AgentStarted(id, task)]))
  }

  function Complete(s: Session, id: WorkerId, stepName: string): Result<Session, Error> {
    if !ActiveIn(s, id) then Err(UnknownWorker(id)) else
      Ok(Emit(PutWorker(Bump(s), id, s.workers[id].(task := None)), [TaskCompleted(id, stepName)]))
  }

  function RecordModelCall(s: Session, id: WorkerId): Result<Session, Error> {
    if id !in s.workers then Err(UnknownWorker(id)) else
      var t := PutWorker(Bump(s), id, s.workers[id].(modelBacked := true));
      Ok(Emit(t.(modelCalls := s.modelCalls + 1), [ModelRequested(id), ModelResponded(id)]))
  }

  /** Whatever the worker check says, the two test fields are written first. */
  function WithTestRun(s: Session, passed: bool, summary: string): Session {
    s.(testSummary := Some(summary), testsPassed := Some(passed))
  }

  function RecordTestRun(s: Session, id: WorkerId, passed: bool, summary: string): (Session, Option<Error>) {
    var t := WithTestRun(s, passed, summary);
    match Complete(t, id, "pytest")
    case Ok(u) => (u, None)
    case Err(e) => (t, Some(e))
  }

  // --- artifacts and trust --------------------------------------------------------------------------

  function RecordArtifact(s: Session, artifact: ArtifactId, id: WorkerId, kind: string): Result<Session, Error> {
    if id !in s.workers then Err(UnknownWorker(id)) else
      var w := s.workers[id];
      Ok(s.(artifacts := s.artifacts[artifact := Artifact(id, kind, Active(w), if Active(w) then None else w.why, s.step)],
            artifactOrder := AddKey(s.artifactOrder, artifact)))
  }

  /** The ids among `ids` of the worker's artifacts that are still trusted. */
  function TrustedOf(artifacts: map<ArtifactId, Artifact>, ids: seq<ArtifactId>, id: WorkerId): seq<ArtifactId> {
    if |ids| == 0 then [] else
      var a := ids[|ids| - 1];
      TrustedOf(artifacts, ids[..|ids| - 1], id) +
        if a in artifacts && artifacts[a].worker == id && artifacts[a].trusted then [a] else []
  }

  function Taint(artifacts: map<ArtifactId, Artifact>, id: WorkerId, why: Violation): map<ArtifactId, Artifact> {
    map a | a in artifacts :: if artifacts[a].worker == id && artifacts[a].trusted
      then artifacts[a].(trusted := false, taint := Some(why)) else artifacts[a]
  }

  /** `trusted_context_for`. */
  function TrustedContext(artifacts: map<ArtifactId, Artifact>, ids: seq<ArtifactId>, id: WorkerId): seq<ArtifactId> {
    if |ids| == 0 then [] else
      var a := ids[|ids| - 1];
      TrustedContext(artifacts, ids[..|ids| - 1], id) +
        if a in artifacts && artifacts[a].trusted && artifacts[a].worker != id then [a] else []
  }

  // --- the decision -----------------------------------------------------------------------------------

  const POISONED_NOTES: string := "demo_target/docs/auth_notes.md"

  function Confined(w: Worker, step: nat, why: Violation, source: Option<string>): Worker {
    w.(state := World.Quarantined, stepQuarantined := Some(step), why := Some(why), compromisedBy := source, task := None)
  }

  /** `_quarantine_drafts`: the state half, and the one draft it returns. */
  function Quarantining(s: Session, id: WorkerId, why: Violation, source: Option<string>): (Session, Kind)
    requires id in s.workers
  {
    var tainted := TrustedOf(s.artifacts, s.artifactOrder, id);
    (PutWorker(s, id, Confined(s.workers[id], s.step, why, source)).(
       artifacts := Taint(s.artifacts, id, why),
       attackDetected := true, recoveryRequired := true, workflow := UnderAttack),
     AgentQuarantined(id, why, tainted))
  }

  datatype Grant = Grant(allowed: bool, normalized: Option<string>, quarantined: bool)

  function RequestResource(s: Session, id: WorkerId, path: string): Result<(Session, Grant), Error> {
    if id !in s.workers then Err(UnknownWorker(id)) else
      var t := Bump(s);
      if !Active(s.workers[id]) then
        Ok((Emit(t, [ToolRequested(id, path), ToolDenied(id, path, AlreadyQuarantined)]), Grant(false, None, true)))
      else
        var decision := PolicyDecision.Evaluate(PolicyDecision.Text(path));
        if decision.Allowed() && decision.normalized.Some? then
          Ok((Emit(t, [ToolRequested(id, path), ToolExecuted(id, decision.normalized.value)]), Grant(true, decision.normalized, false)))
        else
          var why := ByPolicy(decision.rule);
          var (u, last) := Quarantining(t, id, why, Some(POISONED_NOTES));
          Ok((Emit(u, [ToolRequested(id, path), ToolDenied(id, path, why), PolicyViolation(id, path, why), AnomalyDetected(id, why), last]),
              Grant(false, decision.normalized, true)))
  }

  function QuarantineWorker(s: Session, id: WorkerId, why: Violation): Result<Session, Error> {
    if id !in s.workers then Err(UnknownWorker(id))
    else if !Active(s.workers[id]) then Ok(s)
    else
      var (t, last) := Quarantining(Bump(s), id, why, None);
      Ok(Emit(t, [last]))
  }

  // --- recovery ---------------------------------------------------------------------------------------

  function Reassign(s: Session, from: WorkerId, to: WorkerId, role: string, task: string, upstream: seq<WorkerId>, modelBacked: bool): Result<Session, Error> {
    if from !in s.workers then Err(UnknownWorker(from)) else
      var t := Bump(s);
      var u := PutWorker(t, to, NewWorker(role, upstream, Some(from), modelBacked, t.step, Some(task)))
        .(workflow := Recovering, recoveryRequired := false);
      Ok(Emit(u, [TaskReassigned(from, to, task),
                  AgentCreated(to, role, Some(from), modelBacked, Some(TrustedContext(u.artifacts, u.artifactOrder, to))),
                  AgentStarted(to, task)]))
  }

  /** `assert_context_is_trusted`. */
  predicate ContextTrusted(s: Session, context: seq<ArtifactId>) {
    forall i | 0 <= i < |context| :: context[i] in s.artifacts && s.artifacts[context[i]].trusted
  }

  predicate Recovers(s: Session, id: WorkerId) { ActiveIn(s, id) && s.workers[id].takesOver.Some? }

  function RecoveredKinds(s: Session, ids: seq<WorkerId>): seq<Kind> {
    if |ids| == 0 then [] else
      var id := ids[|ids| - 1];
      RecoveredKinds(s, ids[..|ids| - 1]) + if Recovers(s, id) then [AgentRecovered(id, s.workers[id].takesOver.value)] else []
  }

  function RecoveredWorkers(s: Session, ids: seq<WorkerId>): map<WorkerId, Worker> {
    map id | id in s.workers :: if id in ids && Recovers(s, id) then s.workers[id].(state := World.Recovered) else s.workers[id]
  }

  function QuarantinedIds(workers: map<WorkerId, Worker>, ids: seq<WorkerId>): seq<WorkerId> {
    if |ids| == 0 then [] else
      var id := ids[|ids| - 1];
      QuarantinedIds(workers, ids[..|ids| - 1]) + if id in workers && workers[id].state == World.Quarantined then [id] else []
  }

  function Recover(s: Session): Session {
    var t := Bump(s).(workflow := Recovered, recoveryRequired := false);
    var u := t.(workers := RecoveredWorkers(t, t.order));
    Emit(u, RecoveredKinds(t, t.order) + [WorkflowRecovered(u.attackDetected, QuarantinedIds(u.workers, u.order))])
  }

  function Fail(s: Session, reason: string): Session {
    Emit(Bump(s).(workflow := Failed), [WorkflowStopped(reason)])
  }

  // --- sequences of calls -------------------------------------------------------------------------------

  datatype Call =
    | CallRegister(id: WorkerId, role: string, upstream: seq<WorkerId>, takesOver: Option<WorkerId>, modelBacked: bool)
    | CallStart(id: WorkerId, task: string)
    | CallComplete(id: WorkerId, stepName: string)
    | CallModel(id: WorkerId)
    | CallTestRun(id: WorkerId, passed: bool, summary: string)
    | CallArtifact(artifact: ArtifactId, id: WorkerId, kind: string)
    | CallRequest(id: WorkerId, path: string)
    | CallQuarantine(id: WorkerId, why: Violation)
    | CallReassign(from: WorkerId, to: WorkerId, role: string, task: string, upstream: seq<WorkerId>, modelBacked: bool)
    | CallRecover
    | CallFail(reason: string)

  function Settled(s: Session, r: Result<Session, Error>): Session { if r.Ok? then r.value else s }

  /** The session after a call, whether it succeeded or raised. */
  function After(s: Session, c: Call): Session {
    match c
    case CallRegister(id, role, upstream, takesOver, modelBacked) => Register(s, id, role, upstream, takesOver, modelBacked)
    case CallStart(id, task) => Settled(s, Start(s, id, task))
    case CallComplete(id, stepName) => Settled(s, Complete(s, id, stepName))
    case CallModel(id) => Settled(s, RecordModelCall(s, id))
    case CallTestRun(id, passed, summary) => RecordTestRun(s, id, passed, summary).0
    case CallArtifact(artifact, id, kind) => Settled(s, RecordArtifact(s, artifact, id, kind))
    case CallRequest(id, path) =>
      var r := RequestResource(s, id, path); if r.Ok? then r.value.0 else s
    case CallQuarantine(id, why) => Settled(s, QuarantineWorker(s, id, why))
    case CallReassign(from, to, role, task, upstream, modelBacked) => Settled(s, Reassign(s, from, to, role, task, upstream, modelBacked))
    case CallRecover => Recover(s)
    case CallFail(reason) => Fail(s, reason)
  }

  /** The session after any sequence of calls. */
  function Run(calls: seq<Call>): Session {
    if |calls| == 0 then FRESH else After(Run(calls[..|calls| - 1]), calls[|calls| - 1])
  }
}
