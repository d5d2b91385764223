/** The session object of runtime/session.py: dictionaries and flags mutated in place, each call
    proved to be the corresponding function of `SessionModel`. */
module SessionObject {
  import opened Wrappers
  import opened Events
  import opened SessionModel
  import PolicyDecision
  import World

  ghost predicate KeysOf<K(!new)>(order: seq<K>, keys: set<K>) {
    (forall k :: k in order <==> k in keys) && (forall i, j | 0 <= i < j < |order| :: order[i] != order[j])
  }

  class LiveRuntimeSession {
    const emitter: EventEmitter<Draft>
    const bus: EventBus<Draft>
    var workers: map<WorkerId, Worker>
    var order: seq<WorkerId>
    var artifacts: map<ArtifactId, Artifact>
    var artifactOrder: seq<ArtifactId>
    var workflow: Workflow
    var step: nat
    var attackDetected: bool
    var recoveryRequired: bool
    var modelCalls: nat
    var testSummary: Option<string>
    var testsPassed: Option<bool>

    ghost predicate Valid()
      reads this, emitter, bus
    {
      emitter.Valid() && bus.Valid() && emitter.log == bus.log
    }

    /** The key orders of the two dictionaries: every key once. */
    ghost predicate Keyed()
      reads this
    {
      KeysOf(order, workers.Keys) && KeysOf(artifactOrder, artifacts.Keys)
    }

    ghost function Model(): Session
      reads this, bus
    {
      Session(workers, order, artifacts, artifactOrder, workflow, step, attackDetected, recoveryRequired, modelCalls,
              testSummary, testsPassed, bus.log)
    }

    constructor ()
      ensures Valid() && Keyed() && Model() == FRESH
    {
      workers, order, artifacts, artifactOrder := map[], [], map[], [];
      workflow, step, attackDetected, recoveryRequired, modelCalls := Idle, 0, false, false, 0;
      testSummary, testsPassed := None, None;
      emitter := new EventEmitter<Draft>();
      bus := new EventBus<Draft>();
    }

    /** `_publish` of drafts stamped with the current step: no suspension inside. */
    method PublishKinds(kinds: seq<Kind>)
      requires Valid()
      modifies emitter, bus`buffer, bus`log, bus.subscribers
      ensures Valid() && Model() == Emit(old(Model()), kinds)
    {
      ghost var log := bus.log;
      var drafts := Stamp(step, kinds);
      var events := emitter.Emit(drafts);
      RecordGrows(log, drafts);
      assert events == Record(log + drafts)[|log|..];
      bus.Publish(events, drafts);
    }

    method StoreWorker(id: WorkerId, w: Worker)
      requires Keyed()
      modifies this`workers, this`order
      ensures Keyed() && Model() == PutWorker(old(Model()), id, w)
    {
      if id !in order { order := order + [id]; }
      workers := workers[id := w];
    }

    method RegisterWorker(id: WorkerId, role: string, upstream: seq<WorkerId>, takesOver: Option<WorkerId>, modelBacked: bool)
      requires Valid() && Keyed()
      modifies this, emitter, bus, bus.subscribers
      ensures Valid() && Keyed() && bus.subscribers == old(bus.subscribers)
      ensures Model() == Register(old(Model()), id, role, upstream, takesOver, modelBacked)
    {
      step := step + 1;
      StoreWorker(id, Worker(role, World.Healthy, None, upstream, takesOver, modelBacked, step, None, None, None));
      PublishKinds([AgentCreated(id, role, takesOver, modelBacked, None)]);
    }

    method StartWorker(id: WorkerId, task: string) returns (ok: bool)
      requires Valid() && Keyed()
      modifies this, emitter, bus, bus.subscribers
      ensures Valid() && Keyed() && bus.subscribers == old(bus.subscribers)
      ensures ok == Start(old(Model()), id, task).Ok? && Model() == Settled(old(Model()), Start(old(Model()), id, task))
    {
      hide KeysOf, Emit;
      if id !in workers || workers[id].state == World.Quarantined { return false; }
      step := step + 1;
      StoreWorker(id, workers[id].(task := Some(task)));
      if workflow == Idle { workflow := Running; }
      PublishKinds([TaskAssigned(id, task), AgentStarted(id, task)]);
      return true;
    }

    method CompleteTask(id: WorkerId, stepName: string) returns (ok: bool)
      requires Valid() && Keyed()
      modifies this, emitter, bus, bus.subscribers
      ensures Valid() && Keyed() && bus.subscribers == old(bus.subscribers)
      ensures ok == Complete(old(Model()), id, stepName).Ok? && Model() == Settled(old(Model()), Complete(old(Model()), id, stepName))
    {
      hide KeysOf, Emit;
      if id !in workers || workers[id].state == World.Quarantined { return false; }
      step := step + 1;
      StoreWorker(id, workers[id].(task := None));
      PublishKinds([TaskCompleted(id, stepName)]);
      return true;
    }

    method RecordModel(id: WorkerId) returns (ok: bool)
      requires Valid() && Keyed()
      modifies this, emitter, bus, bus.subscribers
      ensures Valid() && Keyed() && bus.subscribers == old(bus.subscribers)
      ensures ok == RecordModelCall(old(Model()), id).Ok? && Model() == Settled(old(Model()), RecordModelCall(old(Model()), id))
    {
      hide KeysOf, Emit;
      if id !in workers { return false; }
      step := step + 1;
      StoreWorker(id, workers[id].(modelBacked := true));
      modelCalls := modelCalls + 1;
      PublishKinds([ModelRequested(id), ModelResponded(id)]);
      return true;
    }

    method StoreArtifact(artifact: ArtifactId, id: WorkerId, kind: string) returns (ok: bool)
      requires Valid() && Keyed()
      modifies this
      ensures Valid() && Keyed()
      ensures ok == RecordArtifact(old(Model()), artifact, id, kind).Ok?
      ensures Model() == Settled(old(Model()), RecordArtifact(old(Model()), artifact, id, kind))
    {
      if id !in workers { return false; }
      var w := workers[id];
      var active := w.state != World.Quarantined;
      if artifact !in artifactOrder { artifactOrder := artifactOrder + [artifact]; }
      artifacts := artifacts[artifact := Artifact(id, kind, active, if active then None else w.why, step)];
      return true;
    }

    /** `taint_artifacts_of`: marks in place while walking the dictionary in order. */
    method TaintArtifactsOf(id: WorkerId, why: Violation) returns (tainted: seq<ArtifactId>)
      requires Keyed()
      modifies this`artifacts
      ensures tainted == TrustedOf(old(artifacts), artifactOrder, id)
      ensures artifacts == Taint(old(artifacts), id, why) && Keyed()
    {
      hide TaintSome, TrustedOf, KeysOf;
      tainted := [];
      ghost var before := artifacts;
      TaintNone(before, id, why);
      for i := 0 to |artifactOrder|
        invariant artifacts == TaintSome(before, artifactOrder[..i], id, why)
        invariant tainted == TrustedOf(before, artifactOrder[..i], id)
      {
        var a := artifactOrder[i];
        KeysAt(artifactOrder, before.Keys, i);
        TaintNext(before, artifactOrder[..i], a, id, why);
        assert artifactOrder[..i + 1] == artifactOrder[..i] + [a];
        if artifacts[a].worker == id && artifacts[a].trusted {
          artifacts := artifacts[a := artifacts[a].(trusted := false, taint := Some(why))];
          tainted := tainted + [a];
        }
      }
      assert artifactOrder[..|artifactOrder|] == artifactOrder;
      TaintedAll(before, artifactOrder, id, why);
      assert artifacts.Keys == before.Keys;
    }

    /** `trusted_context_for`. */
    method TrustedContextFor(id: WorkerId) returns (context: seq<ArtifactId>)
      requires Keyed()
      ensures context == TrustedContext(artifacts, artifactOrder, id)
    {
      context := [];
      for i := 0 to |artifactOrder|
        invariant context == TrustedContext(artifacts, artifactOrder[..i], id)
      {
        var a := artifactOrder[i];
        assert artifactOrder[..i + 1][..i] == artifactOrder[..i];
        if artifacts[a].trusted && artifacts[a].worker != id { context := context + [a]; }
      }
      assert artifactOrder[..|artifactOrder|] == artifactOrder;
    }

    /** `_quarantine_drafts`: changes the state and returns the draft, emits nothing. */
    method QuarantineDraft(id: WorkerId, why: Violation, source: Option<string>) returns (draft: Kind)
      requires Keyed() && id in workers
      modifies this
      ensures Keyed() && (Model(), draft) == Quarantining(old(Model()), id, why, source)
    {
      hide TrustedOf, Taint, KeysOf;
      StoreWorker(id, workers[id].(state := World.Quarantined, stepQuarantined := Some(step), why := Some(why),
                                   compromisedBy := source, task := None));
      var tainted := TaintArtifactsOf(id, why);
      attackDetected, recoveryRequired, workflow := true, true, UnderAttack;
      draft := AgentQuarantined(id, why, tainted);
    }

    /** The synchronous decision: the whole cascade is published in one batch, nothing is read. */
    method Request(id: WorkerId, path: string) returns (grant: Result<Grant, Error>)
      requires Valid() && Keyed()
      modifies this, emitter, bus, bus.subscribers
      ensures Valid() && Keyed() && bus.subscribers == old(bus.subscribers)
      ensures match RequestResource(old(Model()), id, path)
              case Ok(r) => (Model(), grant) == (r.0, Ok(r.1))
              case Err(e) => Model() == old(Model()) && grant == Err(e)
    {
      hide PolicyDecision.Evaluate, KeysOf, Quarantining, Emit;
      if id !in workers { return Err(UnknownWorker(id)); }
      step := step + 1;
      var drafts := [ToolRequested(id, path)];
      if workers[id].state == World.Quarantined {
        drafts := drafts + [ToolDenied(id, path, AlreadyQuarantined)];
        assert drafts == [ToolRequested(id, path), ToolDenied(id, path, AlreadyQuarantined)];
        PublishKinds(drafts);
        return Ok(Grant(false, None, true));
      }
      var decision := PolicyDecision.Evaluate(PolicyDecision.Text(path));
      if decision.Allowed() && decision.normalized.Some? {
        drafts := drafts + [ToolExecuted(id, decision.normalized.value)];
        assert drafts == [ToolRequested(id, path), ToolExecuted(id, decision.normalized.value)];
        PublishKinds(drafts);
        return Ok(Grant(true, decision.normalized, false));
      }
      var why := ByPolicy(decision.rule);
      drafts := drafts + [ToolDenied(id, path, why)];
      drafts := drafts + [PolicyViolation(id, path, why)];
      drafts := drafts + [AnomalyDetected(id, why)];
      var last := QuarantineDraft(id, why, Some(POISONED_NOTES));
      drafts := drafts + [last];
      assert drafts == [ToolRequested(id, path), ToolDenied(id, path, why), PolicyViolation(id, path, why), AnomalyDetected(id, why), last];
      PublishKinds(drafts);
      return Ok(Grant(false, decision.normalized, true));
    }

    method Quarantine(id: WorkerId, why: Violation) returns (ok: bool)
      requires Valid() && Keyed()
      modifies this, emitter, bus, bus.subscribers
      ensures Valid() && Keyed() && bus.subscribers == old(bus.subscribers)
      ensures ok == QuarantineWorker(old(Model()), id, why).Ok? && Model() == Settled(old(Model()), QuarantineWorker(old(Model()), id, why))
    {
      hide KeysOf, Quarantining, Emit;
      if id !in workers { return false; }
      if workers[id].state == World.Quarantined { return true; }
      step := step + 1;
      var last := QuarantineDraft(id, why, None);
      PublishKinds([last]);
      return true;
    }

    method ReassignTask(from: WorkerId, to: WorkerId, role: string, task: string, upstream: seq<WorkerId>, modelBacked: bool) returns (ok: bool)
      requires Valid() && Keyed()
      modifies this, emitter, bus, bus.subscribers
      ensures Valid() && Keyed() && bus.subscribers == old(bus.subscribers)
      ensures ok == Reassign(old(Model()), from, to, role, task, upstream, modelBacked).Ok?
      ensures Model() == Settled(old(Model()), Reassign(old(Model()), from, to, role, task, upstream, modelBacked))
    {
      hide KeysOf, TrustedContext, Emit;
      if from !in workers { return false; }
      step := step + 1;
      workflow := Recovering;
      StoreWorker(to, Worker(role, World.Healthy, Some(task), upstream, Some(from), modelBacked, step, None, None, None));
      recoveryRequired := false;
      var context := TrustedContextFor(to);
      PublishKinds([TaskReassigned(from, to, task), AgentCreated(to, role, Some(from), modelBacked, Some(context)), AgentStarted(to, task)]);
      return true;
    }

    /** The two fields are written before the worker is checked. */
    method RecordTest(id: WorkerId, passed: bool, summary: string) returns (ok: bool)
      requires Valid() && Keyed()
      modifies this, emitter, bus, bus.subscribers
      ensures Valid() && Keyed() && bus.subscribers == old(bus.subscribers)
      ensures (Model(), ok) == var r := RecordTestRun(old(Model()), id, passed, summary); (r.0, r.1 == None)
    {
      hide KeysOf, Complete;
      testSummary, testsPassed := Some(summary), Some(passed);
      ok := CompleteTask(id, "pytest");
    }

    /** The loop of `recover` over the replacements still active. */
    method RecoverWorkers() returns (drafts: seq<Kind>)
      requires Keyed()
      modifies this`workers
      ensures workers == RecoveredWorkers(old(Model()), order) && drafts == RecoveredKinds(old(Model()), order) && Keyed()
    {
      hide RecoveredWorkers, RecoveredKinds, KeysOf;
      drafts := [];
      ghost var before := Model();
      NoneRecovered(before);
      for i := 0 to |order|
        invariant workers == RecoveredWorkers(before, order[..i]) && drafts == RecoveredKinds(before, order[..i])
      {
        var id := order[i];
        KeysAt(order, before.workers.Keys, i);
        RecoverNext(before, order[..i], id);
        assert order[..i + 1] == order[..i] + [id];
        if workers[id].takesOver.Some? && workers[id].state != World.Quarantined {
          drafts := drafts + [AgentRecovered(id, workers[id].takesOver.value)];
          workers := workers[id := workers[id].(state := World.Recovered)];
        }
      }
      assert order[..|order|] == order;
      RecoverKeys(before, order);
    }

    method QuarantinedNames() returns (ids: seq<WorkerId>)
      requires Keyed()
      ensures ids == QuarantinedIds(workers, order)
    {
      ids := [];
      for i := 0 to |order|
        invariant ids == QuarantinedIds(workers, order[..i])
      {
        assert order[..i + 1][..i] == order[..i];
        if workers[order[i]].state == World.Quarantined { ids := ids + [order[i]]; }
      }
      assert order[..|order|] == order;
    }

    method RecoverRun()
      requires Valid() && Keyed()
      modifies this, emitter, bus, bus.subscribers
      ensures Valid() && Keyed() && bus.subscribers == old(bus.subscribers) && Model() == Recover(old(Model()))
    {
      hide KeysOf, RecoveredWorkers, RecoveredKinds, QuarantinedIds, Emit;
      step := step + 1;
      workflow, recoveryRequired := Recovered, false;
      var drafts := RecoverWorkers();
      var quarantined := QuarantinedNames();
      PublishKinds(drafts + [WorkflowRecovered(attackDetected, quarantined)]);
    }

    method FailRun(reason: string)
      requires Valid() && Keyed()
      modifies this, emitter, bus, bus.subscribers
      ensures Valid() && Keyed() && bus.subscribers == old(bus.subscribers) && Model() == Fail(old(Model()), reason)
    {
      step := step + 1;
      workflow := Failed;
      PublishKinds([WorkflowStopped(reason)]);
    }

    /** The inner function of `edges`: unknown ends and pairs already seen are dropped. */
    method AddEdge(edges: seq<Handoff>, source: WorkerId, target: WorkerId) returns (r: seq<Handoff>)
      requires Distinct(edges)
      ensures Distinct(r)
      ensures forall e :: e in r <==> e in edges || (e == (source, target) && source in workers && target in workers)
    {
      if source !in workers || target !in workers || (source, target) in edges { return edges; }
      r := edges + [(source, target)];
    }

    method DeclaredInto(id: WorkerId, before: seq<Handoff>) returns (edges: seq<Handoff>)
      requires id in workers && Distinct(before)
      ensures Distinct(edges)
      ensures forall e :: e in edges <==> e in before || (e.1 == id && Declared(workers, e.0, e.1))
    {
      hide Distinct;
      edges := before;
      var upstream := workers[id].upstream;
      for j := 0 to |upstream|
        invariant Distinct(edges)
        invariant forall e :: e in edges <==> e in before || (e.1 == id && e.0 in workers && e.0 in upstream[..j])
      {
        edges := AddEdge(edges, upstream[j], id);
        assert upstream[..j + 1] == upstream[..j] + [upstream[j]];
      }
      assert upstream[..|upstream|] == upstream;
    }

    method InheritedFrom(id: WorkerId, before: seq<Handoff>) returns (edges: seq<Handoff>)
      requires Keyed() && id in workers && Distinct(before)
      ensures Distinct(edges)
      ensures forall e :: e in edges <==> e in before || (e.0 == id && Inherited(workers, e.0, e.1))
    {
      hide Distinct;
      edges := before;
      if workers[id].takesOver == None { return; }
      var predecessor := workers[id].takesOver.value;
      for j := 0 to |order|
        invariant Distinct(edges)
        invariant forall e :: e in edges <==> e in before || (e.0 == id && e.1 in order[..j] && Inherited(workers, e.0, e.1))
      {
        var other := order[j];
        assert order[..j + 1] == order[..j] + [other];
        if predecessor in workers[other].upstream { edges := AddEdge(edges, id, other); }
      }
      assert order[..|order|] == order;
    }

    /** `edges`: every handoff once, the replacement inheriting those of the worker it took over. */
    method Edges() returns (edges: seq<Handoff>)
      requires Keyed()
      ensures Distinct(edges)
      ensures forall e :: e in edges <==> Declared(workers, e.0, e.1) || Inherited(workers, e.0, e.1)
      ensures forall a, b :: (a, b) in edges <==>
        && a in workers && b in workers
        && (a in workers[b].upstream || (workers[a].takesOver.Some? && workers[a].takesOver.value in workers[b].upstream))
    {
      hide Distinct, Declared, Inherited;
      HandoffsAre(workers);
      edges := [];
      DistinctEmpty();
      for i := 0 to |order|
        invariant Distinct(edges)
        invariant forall e :: e in edges <==> e.1 in order[..i] && Declared(workers, e.0, e.1)
      {
        edges := DeclaredInto(order[i], edges);
        assert order[..i + 1] == order[..i] + [order[i]];
      }
      assert order[..|order|] == order;
      EdgeEnds(workers);
      ghost var declared := edges;
      for i := 0 to |order|
        invariant Distinct(edges)
        invariant forall e :: e in edges <==> e in declared || (e.0 in order[..i] && Inherited(workers, e.0, e.1))
      {
        edges := InheritedFrom(order[i], edges);
        assert order[..i + 1] == order[..i] + [order[i]];
      }
    }
  }

  type Handoff = (WorkerId, WorkerId)

  ghost predicate Distinct(edges: seq<Handoff>) { forall i, j | 0 <= i < j < |edges| :: edges[i] != edges[j] }

  lemma DistinctEmpty()
    ensures Distinct([])
  {
  }

  /** b registered a as a source of its work. */
  predicate Declared(workers: map<WorkerId, Worker>, a: WorkerId, b: WorkerId) {
    a in workers && b in workers && a in workers[b].upstream
  }

  /** a took over from a worker that b registered as a source. */
  predicate Inherited(workers: map<WorkerId, Worker>, a: WorkerId, b: WorkerId) {
    a in workers && b in workers && workers[a].takesOver.Some? && workers[a].takesOver.value in workers[b].upstream
  }

  lemma EdgeEnds(workers: map<WorkerId, Worker>)
    ensures forall a, b :: Declared(workers, a, b) || Inherited(workers, a, b) ==> a in workers && b in workers
  {
  }

  lemma HandoffsAre(workers: map<WorkerId, Worker>)
    ensures forall a, b :: Declared(workers, a, b) || Inherited(workers, a, b) <==>
      && a in workers && b in workers
      && (a in workers[b].upstream || (workers[a].takesOver.Some? && workers[a].takesOver.value in workers[b].upstream))
  {
  }

  lemma NoneRecovered(s: Session)
    ensures RecoveredWorkers(s, []) == s.workers && RecoveredKinds(s, []) == []
  {
  }

  lemma RecoverNext(s: Session, ids: seq<WorkerId>, id: WorkerId)
    requires id in s.workers && id !in ids
    ensures var done := RecoveredWorkers(s, ids);
      && done.Keys == s.workers.Keys && done[id] == s.workers[id]
      && RecoveredWorkers(s, ids + [id]) == (if Recovers(s, id) then done[id := done[id].(state := World.Recovered)] else done)
      && RecoveredKinds(s, ids + [id]) ==
           RecoveredKinds(s, ids) + (if Recovers(s, id) then [AgentRecovered(id, s.workers[id].takesOver.value)] else [])
  {
    assert (ids + [id])[..|ids|] == ids;
  }

  lemma RecoverKeys(s: Session, ids: seq<WorkerId>)
    ensures RecoveredWorkers(s, ids).Keys == s.workers.Keys
  {
  }

  lemma KeysAt<K(!new)>(order: seq<K>, keys: set<K>, i: nat)
    requires i < |order| && KeysOf(order, keys)
    ensures order[i] in keys && order[i] !in order[..i]
  {
  }

  /** The dictionary with the artifacts of a prefix of its keys marked. */
  function TaintSome(artifacts: map<ArtifactId, Artifact>, ids: seq<ArtifactId>, id: WorkerId, why: Violation): map<ArtifactId, Artifact> {
    map a | a in artifacts :: if a in ids && artifacts[a].worker == id && artifacts[a].trusted
      then artifacts[a].(trusted := false, taint := Some(why)) else artifacts[a]
  }

  lemma TaintNone(artifacts: map<ArtifactId, Artifact>, id: WorkerId, why: Violation)
    ensures TaintSome(artifacts, [], id, why) == artifacts && TrustedOf(artifacts, [], id) == []
  {
  }

  lemma TaintNext(artifacts: map<ArtifactId, Artifact>, ids: seq<ArtifactId>, a: ArtifactId, id: WorkerId, why: Violation)
    requires a in artifacts && a !in ids
    ensures var done := TaintSome(artifacts, ids, id, why);
      && done.Keys == artifacts.Keys && done[a] == artifacts[a]
      && TaintSome(artifacts, ids + [a], id, why) ==
           (if done[a].worker == id && done[a].trusted then done[a := done[a].(trusted := false, taint := Some(why))] else done)
      && TrustedOf(artifacts, ids + [a], id) ==
           TrustedOf(artifacts, ids, id) + (if done[a].worker == id && done[a].trusted then [a] else [])
  {
    assert (ids + [a])[..|ids|] == ids;
  }

  lemma TaintedAll(artifacts: map<ArtifactId, Artifact>, ids: seq<ArtifactId>, id: WorkerId, why: Violation)
    requires KeysOf(ids, artifacts.Keys)
    ensures TaintSome(artifacts, ids, id, why) == Taint(artifacts, id, why)
  {
  }
}
