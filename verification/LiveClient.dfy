/** Stream clients of an experiment and of a live session: what a drained client knows. */
module LiveClient {
  import opened Wrappers
  import opened EventSourcing
  import opened RunnerProtocol
  import Behaviours
  import Engine
  import Events
  import PropagationStep
  import RealAgentStep
  import SessionLog
  import SessionModel
  import Stream
  import World

  // --- applying a stretch of events twice -----------------------------------------------------------

  /** What a stretch of events does to what is known of one agent. */
  datatype Change = Same | SetTo(view: AgentView) | Isolated

  function Known(v: View, a: World.AgentId): Option<AgentView> { if a in v then Some(v[a]) else None }

  function Confined(x: AgentView): AgentView { x.(state := World.Quarantined) }

  function Changed(c: Change, known: Option<AgentView>): Option<AgentView> {
    match c
    case Same => known
    case SetTo(view) => Some(view)
    case Isolated => if known.Some? then Some(Confined(known.value)) else None
  }

  function Later(c: Change, d: World.Draft, a: World.AgentId): Change {
    match d.kind
    case AgentCreated(x, _) => if x == a then SetTo(AgentView(World.Healthy, None, None)) else c
    case CompromiseSucceeded(attacker, t, already) =>
      if t == a && !already then SetTo(AgentView(World.Compromised, attacker, Some(d.tick))) else c
    case AgentQuarantined(x, _) =>
      if x != a then c else if c.SetTo? then SetTo(Confined(c.view)) else Isolated
    case _ => c
  }

  function ChangeOf(ds: seq<World.Draft>, a: World.AgentId): Change {
    if |ds| == 0 then Same else Later(ChangeOf(ds[..|ds| - 1], a), ds[|ds| - 1], a)
  }

  lemma ReduceOne(v: View, known: Option<AgentView>, c: Change, d: World.Draft, a: World.AgentId)
    requires Known(v, a) == Changed(c, known)
    ensures Known(Reduce(v, d), a) == Changed(Later(c, d, a), known)
  {
  }

  lemma {:induction false} FoldChanges(v: View, ds: seq<World.Draft>, a: World.AgentId)
    ensures Known(Fold(v, ds), a) == Changed(ChangeOf(ds, a), Known(v, a))
  {
    hide Reduce, Later, Known, Changed;
    if |ds| == 0 {
      SameChanges(Known(v, a));
    } else {
      FoldChanges(v, ds[..|ds| - 1], a);
      ReduceOne(Fold(v, ds[..|ds| - 1]), Known(v, a), ChangeOf(ds[..|ds| - 1], a), ds[|ds| - 1], a);
    }
  }

  lemma SameChanges(known: Option<AgentView>)
    ensures Changed(Same, known) == known
  {
  }

  lemma SameKnown(u: View, v: View)
    requires forall a :: Known(u, a) == Known(v, a)
    ensures u == v
  {
    forall a ensures a in u <==> a in v { assert Known(u, a) == Known(v, a); }
    forall a | a in u ensures u[a] == v[a] { assert Known(u, a) == Known(v, a); }
  }

  /** A stretch of events folded a second time changes nothing. */
  lemma TwiceIsOnce(v: View, ds: seq<World.Draft>)
    ensures Fold(Fold(v, ds), ds) == Fold(v, ds)
  {
    hide Fold, ChangeOf;
    var once := Fold(v, ds);
    forall a ensures Known(Fold(once, ds), a) == Known(once, a) {
      FoldChanges(v, ds, a);
      FoldChanges(once, ds, a);
    }
    SameKnown(Fold(once, ds), once);
  }

  // --- a client of a running experiment ---------------------------------------------------------------

  /** r is a state the runner can be in after it was in r0. */
  ghost predicate Follows(r0: Runner, r: Runner) {
    Behaviours.Reachable((x: Runner) => x == r0, (x: Runner, y: Runner) => RunnerProtocol.Next(x, y), r)
  }

  /** The snapshot of r0, the events published since, and the drafts still held make r. */
  ghost predicate CaughtUp(r0: Runner, r: Runner) {
    && r0.log <= r.log
    && Fold(Fold(ViewOf(r0.world.nodes), r.log[|r0.log|..]), Unpublished(r)) == ViewOf(r.world.nodes)
  }

  lemma CaughtUpAtOnce(r0: Runner)
    requires InRun(r0)
    ensures CaughtUp(r0, r0)
  {
    hide InRun, Fold, ViewOf;
    SnapshotIsLogPlusHeld(r0);
    TwiceIsOnce(Fold(map[], r0.log), Unpublished(r0));
    FoldNone(ViewOf(r0.world.nodes), {});
    assert r0.log[|r0.log|..] == [];
  }

  lemma TickFolds(r: Runner)
    requires r.running && Unpublished(r) == [] && (r.task == AtHead || r.task.WaitingPause?)
    ensures var t := TickOnce(r);
      r.log <= t.log && Fold(ViewOf(r.world.nodes), t.log[|r.log|..] + Unpublished(t)) == ViewOf(t.world.nodes)
  {
    hide Engine.Advance, Engine.Micros, Fold, ViewOf;
    var cfg := r.setup.cfg;
    Engine.AdvanceIsMicros(r.world, cfg);
    RunExplainsNodes(r.world, cfg, Engine.TickSteps(cfg));
    var drafts := Engine.Advance(r.world, cfg).drafts;
    assert (r.log + drafts)[|r.log|..] + [] == drafts && r.log[|r.log|..] + drafts == drafts;
  }

  lemma AnswerFolds(r: Runner, answers: seq<RealAgentStep.Answers>)
    requires r.task.AskingModels?
    ensures var t := AnswerStretch(r, answers); var more := Engine.Micros(r.world, r.setup.cfg, AskSteps(answers)).drafts;
      && r.log <= t.log && t.log[|r.log|..] == r.task.held + more && Unpublished(t) == []
      && Fold(ViewOf(r.world.nodes), more) == ViewOf(t.world.nodes)
  {
    hide Engine.Micros, Fold, ViewOf, AskSteps;
    RunExplainsNodes(r.world, r.setup.cfg, AskSteps(answers));
  }

  /** Folding past a stretch that was held before. */
  lemma Onward(r0: Runner, r: Runner, t: Runner, held: seq<World.Draft>, more: seq<World.Draft>)
    requires CaughtUp(r0, r) && r.log <= t.log && t.log[|r.log|..] + Unpublished(t) == held + more
    requires held == Unpublished(r) && Fold(ViewOf(r.world.nodes), more) == ViewOf(t.world.nodes)
    ensures CaughtUp(r0, t)
  {
    hide Fold, ViewOf;
    var v0, d := ViewOf(r0.world.nodes), r.log[|r0.log|..];
    var e := t.log[|r.log|..];
    assert t.log == r.log + e && t.log[|r0.log|..] == d + e;
    FoldAppend(v0, {}, d, e);
    FoldAppend(Fold(v0, d), {}, e, Unpublished(t));
    FoldAppend(Fold(v0, d), {}, held, more);
  }

  /** Nothing but the final EXPERIMENT_STOPPED was published, and what is held is the same. */
  lemma Standstill(r0: Runner, r: Runner, t: Runner)
    requires CaughtUp(r0, r) && t.world == r.world && Unpublished(t) == Unpublished(r)
    requires t.log == r.log || t.log == r.log + [StopDraft(r)]
    ensures CaughtUp(r0, t)
  {
    hide Fold, ViewOf;
    if t.log != r.log {
      var v0, d := ViewOf(r0.world.nodes), r.log[|r0.log|..];
      assert t.log[|r0.log|..] == d + [StopDraft(r)];
      FoldAppend(v0, {}, d, [StopDraft(r)]);
      FoldOne(Fold(v0, d), {}, StopDraft(r));
    }
  }

  lemma CaughtUpTick(r0: Runner, r: Runner)
    requires CaughtUp(r0, r) && r.running && (r.task == AtHead || r.task.WaitingPause?)
    ensures CaughtUp(r0, TickOnce(r))
  {
    hide TickOnce, CaughtUp, Fold, ViewOf;
    TickFolds(r);
    var t := TickOnce(r);
    var more := t.log[|r.log|..] + Unpublished(t);
    assert [] + more == more;
    Onward(r0, r, t, [], more);
  }

  lemma CaughtUpAnswers(r0: Runner, r: Runner, answers: seq<RealAgentStep.Answers>)
    requires CaughtUp(r0, r) && r.task.AskingModels?
    ensures CaughtUp(r0, AnswerStretch(r, answers))
  {
    hide AnswerStretch, CaughtUp, Fold, ViewOf, Engine.Micros;
    AnswerFolds(r, answers);
    var t := AnswerStretch(r, answers);
    assert t.log[|r.log|..] + [] == t.log[|r.log|..];
    Onward(r0, r, t, r.task.held, Engine.Micros(r.world, r.setup.cfg, AskSteps(answers)).drafts);
  }

  lemma CaughtUpStep(r0: Runner, r: Runner, a: Action)
    requires CaughtUp(r0, r) && RunnerProtocol.Step(r, a).Some?
    ensures CaughtUp(r0, RunnerProtocol.Step(r, a).value)
  {
    hide PropagationStep.Finished, TickOnce, AnswerStretch, CaughtUp, StopDraft;
    var t := RunnerProtocol.Step(r, a).value;
    match a
    case RunLoop =>
      if t == TickOnce(r) { CaughtUpTick(r0, r); } else { Standstill(r0, r, t); }
    case ModelsAnswered(answers) =>
      CaughtUpAnswers(r0, r, answers);
    case _ => Standstill(r0, r, t);
  }

  lemma CaughtUpForever(r0: Runner, r: Runner)
    requires InRun(r0) && Follows(r0, r)
    ensures CaughtUp(r0, r)
  {
    hide CaughtUp, RunnerProtocol.Step, InRun;
    CaughtUpAtOnce(r0);
    forall x: Runner, y: Runner | CaughtUp(r0, x) && RunnerProtocol.Next(x, y) ensures CaughtUp(r0, y) {
      var a :| RunnerProtocol.Step(x, a) == Some(y);
      CaughtUpStep(r0, x, a);
    }
    Behaviours.Invariant((x: Runner) => x == r0, (x: Runner, y: Runner) => RunnerProtocol.Next(x, y), (x: Runner) => CaughtUp(r0, x), r);
  }

  /** A client that connected with the snapshot of r0 and is drained while the runner is in r:
      the snapshot it was sent, the events it was sent and the drafts the runner still holds give
      every agent's present state. So it is up to date whenever nothing is held, even if its
      snapshot was taken in the middle of a tick and so ran ahead of its `last_seq`. */
  lemma ClientSeesTheWorld(r0: Runner, r: Runner, s: Stream.State<World.Draft>)
    requires InRun(r0) && Follows(r0, r)
    requires Stream.InRun(s) && Stream.Drained(s) && s.log == r.log && s.base == |r0.log| - 1
    ensures var view := Fold(ViewOf(r0.world.nodes), Stream.Drafts(s.sent));
      && Fold(view, Unpublished(r)) == ViewOf(r.world.nodes)
      && (Unpublished(r) == [] ==> view == ViewOf(r.world.nodes))
  {
    hide InRun, Follows, Stream.InRun, Fold, ViewOf;
    CaughtUpForever(r0, r);
    Stream.DrainedIsCurrent(s);
    assert Stream.Drafts(s.sent) == r.log[|r0.log|..];
    FoldNone(Fold(ViewOf(r0.world.nodes), Stream.Drafts(s.sent)), {});
  }

  // --- a client of a live session -----------------------------------------------------------------------

  /** A client of a live session that connected with a snapshot taken after the calls `earlier`
      and is drained after `later` more holds the present session. */
  lemma ClientSeesTheSession(earlier: seq<SessionModel.Call>, later: seq<SessionModel.Call>, s: Stream.State<SessionModel.Draft>)
    requires Stream.InRun(s) && s.log == SessionModel.Run(earlier + later).log
    requires Stream.Drained(s) && Events.Resume(s.base) == |SessionModel.Run(earlier).log|
    ensures SessionLog.Fold(SessionLog.ViewOf(SessionModel.Run(earlier)), Stream.Drafts(s.sent)) ==
      SessionLog.ViewOf(SessionModel.Run(earlier + later))
  {
    hide Stream.InRun, SessionModel.Run, SessionLog.ViewOf, SessionLog.Reduce;
    SessionLog.SnapshotPlusEvents(earlier, later);
    Stream.DrainedIsCurrent(s);
    assert Stream.Drafts(s.sent) == s.log[Events.Resume(s.base)..];
  }
}
