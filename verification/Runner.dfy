/** orchestrator/runner.py: the tick loop, any number of stop() calls, pause and resume.
    A step is what runs between two suspension points; every sequence of steps is one
    interleaving. */
module RunnerProtocol {
  import opened Wrappers
  import opened World
  import opened Runs
  import opened Engine
  import opened Experiment
  import opened Behaviours
  import EngineDrafts
  import EventSourcing
  import Movement
  import PropagationStep
  import RealAgentStep

  datatype Status = Running | Paused | Finished | Stopped

  /** Where the loop task is suspended: about to evaluate its condition (fresh, or asleep after a
      tick), on the pause event, in the model calls of a tick whose drafts it still holds; or
      ended by itself, or ended by cancellation, in a tick's model calls or elsewhere, with the
      drafts it was holding. `woken` is set by resume(): the loop then runs one tick even if it is
      paused again before its turn. */
  datatype Task =
    | AtHead
    | WaitingPause(woken: bool)
    | AskingModels(held: seq<Draft>)
    | Ended
    | Cancelled(asking: bool, lost: seq<Draft>)

  /** `stopping` says a stop() call is between its cancel and its publish; `joiners` counts the
      later stop() calls that await the same task. */
  datatype Runner = Runner(
    setup: Setup, gateway: bool,
    status: Status, running: bool, pauseSet: bool, terminal: bool, speed: real,
    world: World, log: seq<Draft>, task: Task, stopping: bool, joiners: nat)

  datatype Action =
    | RunLoop
    | ModelsAnswered(answers: seq<RealAgentStep.Answers>)
    | CancelLands
    | Pause
    | Resume
    | SetSpeed(multiplier: real)
    | Stop
    | StopContinues
    | JoinerReturns

  /** What the create route leaves behind: initial events published, loop task scheduled. */
  function Created(setup: Setup, gateway: bool): Runner
    requires Valid(setup)
  {
    var r := Start(setup);
    Runner(setup, gateway, Running, true, true, false, 1.0, r.world, r.drafts, AtHead, false, 0)
  }

  predicate TaskOver(t: Task) { t.Ended? || t.Cancelled? }

  /** The statements after the loop. */
  function LoopExit(s: Runner): Runner {
    if s.running then s.(status := Finished, terminal := true, task := Ended) else s.(task := Ended)
  }

  /** How many model-driven scenarios a tick runs, with a gateway. */
  function AsyncCount(names: seq<ScenarioName>): nat {
    if |names| == 0 then 0 else AsyncCount(names[..|names| - 1]) + (if names[|names| - 1] == PromptInjection then 1 else 0)
  }

  /** Some tick of the run may ask models. */
  predicate UsesModels(s: Runner) { s.gateway && AsyncCount(s.setup.cfg.activeScenarios) > 0 }

  /** The model-driven scenarios find requests to send in the present world. If the first of them
      finds none, it changes nothing and neither do the others. */
  predicate AsksNow(s: Runner) { UsesModels(s) && RealAgentStep.Asks(s.world) }

  /** One iteration from behind the pause event. When no request goes out, emit and publish follow
      in the same stretch. */
  function TickOnce(s: Runner): Runner {
    if !s.running then LoopExit(s) else
      var r := Advance(s.world, s.setup.cfg);
      if AsksNow(s.(world := r.world)) then s.(world := r.world, task := AskingModels(r.drafts))
      else s.(world := r.world, log := s.log + r.drafts, task := AtHead)
  }

  ghost function LoopStretch(s: Runner): Runner {
    if s.task.WaitingPause? then TickOnce(s)
    else if !s.running || PropagationStep.Finished(s.world, s.setup.cfg) then LoopExit(s)
    else if s.pauseSet then TickOnce(s)
    else s.(task := WaitingPause(false))
  }

  function AskSteps(answers: seq<RealAgentStep.Answers>): seq<MicroStep> {
    seq(|answers|, i requires 0 <= i < |answers| => AskModels(answers[i]))
  }

  function AnswerStretch(s: Runner, answers: seq<RealAgentStep.Answers>): Runner
    requires s.task.AskingModels?
  {
    var r := Micros(s.world, s.setup.cfg, AskSteps(answers));
    s.(world := r.world, log := s.log + (s.task.held + r.drafts), task := AtHead)
  }

  /** Whether the call raises InvalidTransitionError. */
  predicate Rejected(status: Status, a: Action) {
    match a
    case Pause => status == Finished || status == Stopped
    case Resume => status == Finished || status == Stopped
    case SetSpeed(_) => status == Finished || status == Stopped
    case _ => false
  }

  function Clamp(x: real): real { if x < 0.25 then 0.25 else if x > 8.0 then 8.0 else x }

  function Woken(t: Task): Task { if t.WaitingPause? then WaitingPause(true) else t }

  /** The stretch of stop() up to its first suspension. */
  function StopCall(s: Runner): Runner {
    match s.status
    case Finished => s
    case Stopped => if TaskOver(s.task) then s else s.(joiners := s.joiners + 1)
    case _ => s.(running := false, status := Stopped, stopping := true)
  }

  function StopDraft(s: Runner): Draft { Draft(s.world.tick, ExperimentStopped) }

  /** The state after an action; None when it cannot happen. A cancelled task never runs again:
      its next resumption raises. */
  ghost function Step(s: Runner, a: Action): Option<Runner> {
    match a
    case RunLoop => if s.running && (s.task == AtHead || s.task == WaitingPause(true)) then Some(LoopStretch(s)) else None
    case ModelsAnswered(answers) =>
      if s.running && s.task.AskingModels? && |answers| == AsyncCount(s.setup.cfg.activeScenarios)
      then Some(AnswerStretch(s, answers)) else None
    case CancelLands =>
      if !s.running && !TaskOver(s.task) then Some(s.(task := Cancelled(s.task.AskingModels?, Unpublished(s))))
      else None
    case Pause => Some(if s.status == Running then s.(pauseSet := false, status := Paused) else s)
    case Resume => Some(if s.status == Paused then s.(status := Running, pauseSet := true, task := Woken(s.task)) else s)
    case SetSpeed(m) => Some(if Rejected(s.status, a) then s else s.(speed := Clamp(m)))
    case Stop => Some(StopCall(s))
    case StopContinues =>
      if s.stopping && TaskOver(s.task) then Some(s.(log := s.log + [StopDraft(s)], terminal := true, stopping := false))
      else None
    case JoinerReturns => if s.joiners > 0 && TaskOver(s.task) then Some(s.(joiners := s.joiners - 1)) else None
  }

  ghost predicate Init(s: Runner) { Valid(s.setup) && s == Created(s.setup, s.gateway) }

  ghost predicate Next(s: Runner, t: Runner) { exists a :: Step(s, a) == Some(t) }

  ghost predicate InRun(s: Runner) { Reachable((x: Runner) => Init(x), (x: Runner, y: Runner) => Next(x, y), s) }

  // --- the control state ------------------------------------------------------------------------

  ghost predicate Control(s: Runner) {
    && (s.running <==> s.status != Stopped)
    && (s.status == Running ==> s.pauseSet) && (s.status == Paused ==> !s.pauseSet)
    && (s.status == Finished <==> s.task == Ended)
    && (s.terminal <==> s.status == Finished || (s.status == Stopped && !s.stopping))
    && (s.stopping ==> s.status == Stopped)
    && (s.task.Cancelled? ==> s.status == Stopped)
    && (s.status == Stopped && !s.stopping ==> s.task.Cancelled?)
    && (s.status == Running && s.task.WaitingPause? ==> s.task.woken)
    && (s.joiners > 0 ==> s.status == Stopped)
    && (Holding(s) ==> AsksNow(s))
    && (!Holding(s) ==> Unpublished(s) == [])
    && 0.25 <= s.speed <= 8.0
  }

  lemma ControlKept(s: Runner, a: Action)
    requires Control(s) && Step(s, a).Some?
    ensures Control(Step(s, a).value)
  {
    hide PropagationStep.Finished, Advance, Micros, RealAgentStep.Asks;
  }

  // --- the history ------------------------------------------------------------------------------

  predicate Closed(s: Runner) { s.status == Stopped && !s.stopping }

  /** The log without a final EXPERIMENT_STOPPED. */
  function Body(s: Runner): seq<Draft> {
    if Closed(s) && |s.log| > 0 then s.log[..|s.log| - 1] else s.log
  }

  /** Drafts of a tick that were never published: held while the models are asked, or lost when
      a stop came in just then. */
  function Unpublished(s: Runner): seq<Draft> {
    match s.task
    case AskingModels(held) => held
    case Cancelled(_, lost) => lost
    case _ => []
  }

  /** A tick's drafts are being held, or were when the task was cancelled. */
  predicate Holding(s: Runner) { s.task.AskingModels? || (s.task.Cancelled? && s.task.asking) }

  /** The runner's world is the one the micro steps ms lead to, and its log is theirs, apart
      from the unpublished drafts and the final EXPERIMENT_STOPPED. */
  ghost predicate Traced(s: Runner, ms: seq<MicroStep>) {
    && Valid(s.setup)
    && s.world == AfterMicros(s.setup, ms).world
    && Body(s) + Unpublished(s) == AfterMicros(s.setup, ms).drafts
    && (Closed(s) ==> |s.log| > 0 && s.log[|s.log| - 1] == StopDraft(s))
  }

  lemma MicrosAppend(w: World, cfg: Config, ms: seq<MicroStep>, more: seq<MicroStep>)
    ensures Micros(w, cfg, ms + more) == Concat(Micros(w, cfg, ms), Micros(Micros(w, cfg, ms).world, cfg, more))
  {
    hide Micro, Trace;
    TraceAppend((v: World, m: MicroStep) => Micro(v, cfg, m), w, ms, more);
  }

  lemma AfterMore(setup: Setup, ms: seq<MicroStep>, more: seq<MicroStep>)
    requires Valid(setup)
    ensures AfterMicros(setup, ms + more) ==
      Concat(AfterMicros(setup, ms), Micros(AfterMicros(setup, ms).world, setup.cfg, more))
  {
    hide Micros, Start, Valid;
    MicrosAppend(Start(setup).world, setup.cfg, ms, more);
  }

  lemma TickTraced(s: Runner, ms: seq<MicroStep>)
    requires Control(s) && Traced(s, ms) && s.running && (s.task == AtHead || s.task.WaitingPause?)
    ensures Traced(TickOnce(s), ms + TickSteps(s.setup.cfg))
  {
    hide Micros, Advance, AfterMicros, Valid, TickSteps;
    AdvanceIsMicros(s.world, s.setup.cfg);
    AfterMore(s.setup, ms, TickSteps(s.setup.cfg));
  }

  /** The same, with the published part told apart: the log is that of the steps ms, and the
      world and the unpublished drafts are those of one synchronous tick after them, or of none. */
  ghost predicate Split(s: Runner, ms: seq<MicroStep>, tail: seq<MicroStep>) {
    && Valid(s.setup) && Synchronous(tail)
    && Body(s) == AfterMicros(s.setup, ms).drafts
    && StepResult(s.world, Unpublished(s)) == Micros(AfterMicros(s.setup, ms).world, s.setup.cfg, tail)
    && (tail == [] || s.task.AskingModels? || s.task.Cancelled?)
    && (Closed(s) ==> |s.log| > 0 && s.log[|s.log| - 1] == StopDraft(s))
  }

  lemma SplitTraced(s: Runner, ms: seq<MicroStep>, tail: seq<MicroStep>)
    requires Split(s, ms, tail)
    ensures Traced(s, ms + tail)
  {
    hide Micros, AfterMicros, Valid;
    AfterMore(s.setup, ms, tail);
  }

  lemma NoSteps(w: World, cfg: Config)
    ensures Micros(w, cfg, []) == StepResult(w, [])
  {
  }

  lemma TickSplit(s: Runner, ms: seq<MicroStep>, tail: seq<MicroStep>)
    requires Control(s) && Split(s, ms, tail) && s.running && (s.task == AtHead || s.task.WaitingPause?)
    ensures Split(TickOnce(s), ms, TickSteps(s.setup.cfg)) || Split(TickOnce(s), ms + TickSteps(s.setup.cfg), [])
  {
    hide Micros, Advance, AfterMicros, Valid, TickSteps;
    var w, cfg := AfterMicros(s.setup, ms).world, s.setup.cfg;
    NoSteps(w, cfg);
    AdvanceIsMicros(w, cfg);
    AfterMore(s.setup, ms, TickSteps(cfg));
    NoSteps(AfterMicros(s.setup, ms + TickSteps(cfg)).world, cfg);
    assert Body(s) == s.log && s.world == w;
  }

  lemma AnswerSplit(s: Runner, ms: seq<MicroStep>, tail: seq<MicroStep>, answers: seq<RealAgentStep.Answers>)
    requires Control(s) && Split(s, ms, tail) && s.running && s.task.AskingModels?
    ensures Split(AnswerStretch(s, answers), ms + tail + AskSteps(answers), [])
  {
    hide Micros, AfterMicros, Valid, AskSteps;
    AfterMore(s.setup, ms, tail);
    AfterMore(s.setup, ms + tail, AskSteps(answers));
    var t := AnswerStretch(s, answers);
    NoSteps(t.world, s.setup.cfg);
    assert t.log == (s.log + s.task.held) + Micros(s.world, s.setup.cfg, AskSteps(answers)).drafts;
  }

  ghost predicate HasSplit(s: Runner) { exists ms, tail :: Split(s, ms, tail) }

  lemma SplitKept(s: Runner, a: Action, ms: seq<MicroStep>, tail: seq<MicroStep>)
    requires Control(s) && Split(s, ms, tail) && Step(s, a).Some?
    ensures HasSplit(Step(s, a).value)
  {
    hide PropagationStep.Finished, Advance, Micros, AfterMicros, Valid, TickSteps, AskSteps, HasSplit;
    match a
    case RunLoop =>
      if LoopStretch(s) == TickOnce(s) {
        TickSplit(s, ms, tail);
        if Split(TickOnce(s), ms, TickSteps(s.setup.cfg)) {
          SplitExists(TickOnce(s), ms, TickSteps(s.setup.cfg));
        } else {
          SplitExists(TickOnce(s), ms + TickSteps(s.setup.cfg), []);
        }
      } else {
        SplitExists(LoopStretch(s), ms, tail);
      }
    case ModelsAnswered(answers) =>
      AnswerSplit(s, ms, tail, answers);
      SplitExists(AnswerStretch(s, answers), ms + tail + AskSteps(answers), []);
    case _ => SplitExists(Step(s, a).value, ms, tail);
  }

  lemma SplitExists(s: Runner, ms: seq<MicroStep>, tail: seq<MicroStep>)
    requires Split(s, ms, tail)
    ensures HasSplit(s)
  {
  }

  ghost predicate Sound(s: Runner) { Control(s) && HasSplit(s) }

  lemma CreatedSound(setup: Setup, gateway: bool)
    requires Valid(setup)
    ensures Sound(Created(setup, gateway))
  {
    hide Start;
    var s := Created(setup, gateway);
    assert AfterMicros(setup, []) == Start(setup);
    NoSteps(s.world, setup.cfg);
    assert Split(s, [], []);
  }

  lemma SoundKept(s: Runner, a: Action)
    requires Sound(s) && Step(s, a).Some?
    ensures Sound(Step(s, a).value)
  {
    hide Control, Split;
    var ms, tail :| Split(s, ms, tail);
    ControlKept(s, a);
    SplitKept(s, a, ms, tail);
  }

  lemma Always(s: Runner)
    requires InRun(s)
    ensures Sound(s)
  {
    hide Sound, Created, Valid;
    forall x: Runner, y: Runner | Sound(x) && Next(x, y) ensures Sound(y) {
      var a :| Step(x, a) == Some(y);
      SoundKept(x, a);
    }
    forall x: Runner | Init(x) ensures Sound(x) { CreatedSound(x.setup, x.gateway); }
    Invariant((x: Runner) => Init(x), (x: Runner, y: Runner) => Next(x, y), (x: Runner) => Sound(x), s);
  }

  // --- protocol theorems --------------------------------------------------------------------------

  lemma InControl(s: Runner)
    requires InRun(s)
    ensures Control(s)
  {
    hide InRun, Control, HasSplit;
    Always(s);
  }

  /** The steps behind a reachable runner's world and log. */
  lemma InTrace(s: Runner) returns (ms: seq<MicroStep>)
    requires InRun(s)
    ensures Traced(s, ms)
  {
    hide InRun, Control, Split, Traced;
    Always(s);
    var earlier, tail :| Split(s, earlier, tail);
    SplitTraced(s, earlier, tail);
    ms := earlier + tail;
  }

  lemma FinalStep(s: Runner, a: Action)
    requires Control(s) && Step(s, a).Some?
    ensures var t := Step(s, a).value;
      && (s.status == Finished || s.status == Stopped ==> t.status == s.status)
      && (s.terminal ==> t.terminal && t.log == s.log && t.world == s.world)
      && (s.status == Stopped ==>
          t.world == s.world && (t.log == s.log || (!s.terminal && t.terminal && t.log == s.log + [StopDraft(s)])))
      && s.log <= t.log
  {
    hide PropagationStep.Finished, Advance, Micros, StopDraft, Valid;
  }

  /** "finished" and "stopped" are absorbing, and nothing is published, no state changes, once
      the terminal event is set. After an accepted stop() no tick runs any more: the only thing
      still published is the one EXPERIMENT_STOPPED. */
  lemma TerminalIsFinal(s: Runner, a: Action)
    requires InRun(s) && Step(s, a).Some?
    ensures var t := Step(s, a).value;
      && (s.status == Finished || s.status == Stopped ==> t.status == s.status)
      && (s.terminal ==> t.terminal && t.log == s.log && t.world == s.world)
      && (s.status == Stopped ==>
          t.world == s.world && (t.log == s.log || (!s.terminal && t.terminal && t.log == s.log + [StopDraft(s)])))
      && s.log <= t.log
  {
    hide InRun, Control, Step;
    InControl(s);
    FinalStep(s, a);
  }

  ghost predicate StopAt(s: Runner, i: int) { 0 <= i < |s.log| && s.log[i].kind.ExperimentStopped? }

  lemma StopOnlyLast(s: Runner, all: seq<Draft>, i: int)
    requires Control(s) && Body(s) + Unpublished(s) == all
    requires Closed(s) ==> |s.log| > 0 && s.log[|s.log| - 1].kind.ExperimentStopped?
    requires |all| > 0 && all[0].kind.ExperimentStarted? && EngineDrafts.NoLifeCycle(all[1..])
    ensures StopAt(s, i) <==> Closed(s) && i == |s.log| - 1
  {
    hide Control, Unpublished;
    if 0 <= i < |Body(s)| {
      assert all[i] == s.log[i];
      if i > 0 { assert all[1..][i - 1] == s.log[i] && all[1..][i - 1] in all[1..]; }
    }
  }

  /** However many stop() calls were made: no EXPERIMENT_STOPPED before the run is stopped and
      terminal, and then exactly one, at the very end of the log. */
  lemma AtMostOneStop(s: Runner, i: int)
    requires InRun(s)
    ensures StopAt(s, i) <==> Closed(s) && i == |s.log| - 1
  {
    hide InRun, Control, AfterMicros, Valid, StopAt, Body, Unpublished, EngineDrafts.NoLifeCycle;
    InControl(s);
    var ms := InTrace(s);
    EngineDrafts.ExperimentPlain(s.setup, ms);
    StopOnlyLast(s, AfterMicros(s.setup, ms).drafts, i);
  }

  lemma CanStep(s: Runner)
    requires Control(s)
    ensures s.status == Running && !s.task.AskingModels? ==> Step(s, RunLoop).Some?
    ensures s.stopping ==> Step(s, CancelLands).Some? || Step(s, StopContinues).Some?
    ensures s.joiners > 0 && TaskOver(s.task) ==> Step(s, JoinerReturns).Some?
    ensures s.terminal ==> TaskOver(s.task)
  {
    hide LoopStretch, StopDraft;
  }

  /** A running loop can always go on, a resumed one is never left waiting on the pause event,
      and a stop in progress can always be completed. */
  lemma NeverStuck(s: Runner)
    requires InRun(s)
    ensures s.status == Running && !s.task.AskingModels? ==> Step(s, RunLoop).Some?
    ensures s.stopping ==> Step(s, CancelLands).Some? || Step(s, StopContinues).Some?
    ensures s.joiners > 0 && TaskOver(s.task) ==> Step(s, JoinerReturns).Some?
    ensures s.terminal ==> TaskOver(s.task)
  {
    hide InRun, Control, Step;
    InControl(s);
    CanStep(s);
  }

  /** With or without a gateway, the log and then the drafts of a tick still held (or lost with
      the cancelled task) rebuild every agent of the snapshot. */
  lemma SnapshotIsLogPlusHeld(s: Runner)
    requires InRun(s)
    ensures EventSourcing.Fold(EventSourcing.Fold(map[], s.log), Unpublished(s)) == EventSourcing.ViewOf(s.world.nodes)
  {
    hide InRun, AfterMicros, Valid, EventSourcing.Fold, EventSourcing.ViewOf;
    var ms := InTrace(s);
    LogRebuildsAgents(s.setup, ms);
    EventSourcing.FoldAppend(map[], {}, Body(s), Unpublished(s));
    BodyFold(s);
  }

  /** The final EXPERIMENT_STOPPED says nothing about agents. */
  lemma BodyFold(s: Runner)
    requires Closed(s) ==> |s.log| > 0 && s.log[|s.log| - 1] == StopDraft(s)
    ensures EventSourcing.Fold(map[], s.log) == EventSourcing.Fold(map[], Body(s))
  {
    hide EventSourcing.Fold;
    if Closed(s) {
      assert s.log == Body(s) + [StopDraft(s)];
      StopIgnored(Body(s), StopDraft(s));
    }
  }

  /** Snapshot and log agree if and only if the drafts not yet published contain no unflagged
      success and no quarantine: what such a draft did is never undone within its tick. */
  lemma SnapshotMatchesLog(s: Runner)
    requires InRun(s)
    ensures EventSourcing.Fold(map[], s.log) == EventSourcing.ViewOf(s.world.nodes)
      <==> forall d | d in Unpublished(s) :: !Movement.Moves(d)
  {
    hide InRun, Control, AfterMicros, Valid, Micros, EventSourcing.Fold, EventSourcing.ViewOf;
    Always(s);
    var ms, tail :| Split(s, ms, tail);
    LogRebuildsAgents(s.setup, ms);
    BodyFold(s);
    Movement.RunMovesView(AfterMicros(s.setup, ms).world, s.setup.cfg, tail);
  }

  /** While the present world gives no model anything to answer nothing is held back, and the log
      rebuilds the agents: always so without a gateway. */
  lemma SnapshotWithoutModels(s: Runner)
    requires InRun(s) && !AsksNow(s)
    ensures Unpublished(s) == [] && EventSourcing.Fold(map[], s.log) == EventSourcing.ViewOf(s.world.nodes)
  {
    hide InRun, EventSourcing.Fold, EventSourcing.ViewOf;
    InControl(s);
    SnapshotMatchesLog(s);
  }

  lemma StopIgnored(body: seq<Draft>, d: Draft)
    requires d.kind.ExperimentStopped?
    ensures EventSourcing.Fold(map[], body + [d]) == EventSourcing.Fold(map[], body)
  {
    EventSourcing.FoldAppend(map[], {}, body, [d]);
    EventSourcing.FoldOne(EventSourcing.Fold(map[], body), {}, d);
  }

  // --- what each call and stretch must do --------------------------------------------------------------

  /** Everything but the fields a control call is about. */
  ghost predicate SameBut(s: Runner, t: Runner) {
    && t.setup == s.setup && t.gateway == s.gateway && t.world == s.world && t.log == s.log
    && t.terminal == s.terminal && t.stopping == s.stopping && t.joiners == s.joiners && t.running == s.running
  }

  /** pause() holds a running loop, resume() lets a paused one go on and wakes it if it waits; on the
      status they would set they do nothing, and on a finished or stopped run they are refused. */
  lemma PauseAndResume(s: Runner)
    ensures Step(s, Pause).Some? && Step(s, Resume).Some?
    ensures var t := Step(s, Pause).value;
      && SameBut(s, t) && t.speed == s.speed && t.task == s.task
      && if s.status == Running then t.status == Paused && !t.pauseSet else t == s
    ensures var t := Step(s, Resume).value;
      && SameBut(s, t) && t.speed == s.speed
      && if s.status == Paused then t.status == Running && t.pauseSet && t.task == (if s.task.WaitingPause? then WaitingPause(true) else s.task) else t == s
    ensures Rejected(s.status, Pause) <==> s.status in {Finished, Stopped}
    ensures Rejected(s.status, Resume) <==> s.status in {Finished, Stopped}
  {
  }

  /** set_speed() takes the multiplier, no lower than a quarter and no higher than eight, while the run
      lasts; afterwards it is refused. */
  lemma SpeedIs(s: Runner, m: real)
    ensures Step(s, SetSpeed(m)).Some? && (Rejected(s.status, SetSpeed(m)) <==> s.status in {Finished, Stopped})
    ensures var t := Step(s, SetSpeed(m)).value;
      && SameBut(s, t) && t.task == s.task && t.status == s.status && t.pauseSet == s.pauseSet
      && if s.status in {Finished, Stopped} then t.speed == s.speed
         else (0.25 <= m <= 8.0 ==> t.speed == m) && (m < 0.25 ==> t.speed == 0.25) && (m > 8.0 ==> t.speed == 8.0)
  {
  }

  /** The first stop() of a run under way takes it out of running; a later one waits for the same task
      unless that is over; on a finished run it does nothing. Once the task is over the first one
      publishes EXPERIMENT_STOPPED at the present tick, and only then is the run terminal. */
  lemma StopIs(s: Runner)
    ensures Step(s, Stop).Some?
    ensures var t := Step(s, Stop).value;
      match s.status
      case Finished => t == s
      case Stopped => t == s.(joiners := s.joiners + if s.task.Ended? || s.task.Cancelled? then 0 else 1)
      case _ => t == s.(running := false, status := Stopped, stopping := true)
    ensures Step(s, StopContinues).Some? <==> s.stopping && (s.task.Ended? || s.task.Cancelled?)
    ensures s.stopping && (s.task.Ended? || s.task.Cancelled?) ==>
      Step(s, StopContinues).value == s.(log := s.log + [Draft(s.world.tick, ExperimentStopped)], terminal := true, stopping := false)
    ensures Step(s, CancelLands).Some? <==> !s.running && !s.task.Ended? && !s.task.Cancelled?
  {
  }

  /** A stretch of the loop: a finished experiment ends it, a cleared pause event holds it, and
      otherwise, or when it was waiting there and is woken, one tick runs; its events are out at the
      end of the stretch unless requests are. */
  lemma RunLoopIs(s: Runner)
    requires InRun(s) && s.running && (s.task == AtHead || s.task == WaitingPause(true))
    ensures Step(s, RunLoop).Some?
    ensures var t := Step(s, RunLoop).value; var d := Advance(s.world, s.setup.cfg);
      if s.task == AtHead && PropagationStep.Finished(s.world, s.setup.cfg) then t == s.(status := Finished, terminal := true, task := Ended)
      else if s.task == AtHead && s.status == Paused then t == s.(task := WaitingPause(false))
      else if s.gateway && PromptInjection in s.setup.cfg.activeScenarios && RealAgentStep.Asks(d.world)
      then t == s.(world := d.world, task := AskingModels(d.drafts))
      else t == s.(world := d.world, log := s.log + d.drafts, task := AtHead)
  {
    hide InRun, Advance, PropagationStep.Finished, RealAgentStep.Asks;
    InControl(s);
    CountNamed(s.setup.cfg.activeScenarios);
  }

  lemma {:induction false} CountNamed(names: seq<ScenarioName>)
    ensures AsyncCount(names) > 0 <==> PromptInjection in names
    ensures AsyncCount(names) == |NamedAt(names)|
  {
    hide NamedAt;
    if |names| > 0 {
      var n := |names| - 1;
      CountNamed(names[..n]);
      assert names == names[..n] + [names[n]];
      NamedNext(names);
    } else {
      NamedNowhere(names);
    }
  }

  /** Where prompt_injection is listed. */
  function NamedAt(names: seq<ScenarioName>): set<int> { set i | 0 <= i < |names| && names[i] == PromptInjection }

  lemma NamedNext(names: seq<ScenarioName>)
    requires |names| > 0
    ensures |NamedAt(names)| == |NamedAt(names[..|names| - 1])| + (if names[|names| - 1] == PromptInjection then 1 else 0)
  {
    var n := |names| - 1;
    assert NamedAt(names) == NamedAt(names[..n]) + (if names[n] == PromptInjection then {n} else {});
    assert n !in NamedAt(names[..n]);
  }

  lemma NamedNowhere(names: seq<ScenarioName>)
    requires |names| == 0
    ensures NamedAt(names) == {}
  {
  }

  /** The answers of a tick settle round by round on the world its synchronous part left; then the held
      events and theirs are out together. */
  lemma AnswersAre(s: Runner, answers: seq<RealAgentStep.Answers>)
    requires s.running && s.task.AskingModels? && |answers| == AsyncCount(s.setup.cfg.activeScenarios)
    ensures Step(s, ModelsAnswered(answers)).Some?
    ensures var t := Step(s, ModelsAnswered(answers)).value; var r := Settled(s.world, s.setup.cfg, answers);
      t == s.(world := r.world, log := s.log + s.task.held + r.drafts, task := AtHead)
  {
    hide Micros, Settled, AskSteps, RealAgentStep.Asks;
    SettledIs(s.world, s.setup.cfg, answers);
    var r := Settled(s.world, s.setup.cfg, answers);
    assert s.log + s.task.held + r.drafts == s.log + (s.task.held + r.drafts);
  }

  /** Round after round from the first. */
  function Settled(w: World, cfg: Config, answers: seq<RealAgentStep.Answers>): StepResult
    decreases |answers|
  {
    if |answers| == 0 then StepResult(w, []) else
      var first := RealAgentStep.Step(w, cfg, answers[0]);
      Concat(first, Settled(first.world, cfg, answers[1..]))
  }

  lemma {:induction false} SettledIs(w: World, cfg: Config, answers: seq<RealAgentStep.Answers>)
    ensures Micros(w, cfg, AskSteps(answers)) == Settled(w, cfg, answers)
    decreases |answers|
  {
    hide Micros, RealAgentStep.Step;
    if |answers| == 0 {
      assert AskSteps(answers) == [];
      NoSteps(w, cfg);
    } else {
      assert AskSteps(answers) == [AskModels(answers[0])] + AskSteps(answers[1..]);
      MicrosAppend(w, cfg, [AskModels(answers[0])], AskSteps(answers[1..]));
      OneRound(w, cfg, answers[0]);
      SettledIs(RealAgentStep.Step(w, cfg, answers[0]).world, cfg, answers[1..]);
    }
  }

  lemma OneRound(w: World, cfg: Config, answers: RealAgentStep.Answers)
    ensures Micros(w, cfg, [AskModels(answers)]) == RealAgentStep.Step(w, cfg, answers)
  {
    hide RealAgentStep.Step;
    var ms := [AskModels(answers)];
    assert ms[..|ms| - 1] == [];
    NoSteps(w, cfg);
    var r := RealAgentStep.Step(w, cfg, answers);
    assert [] + r.drafts == r.drafts && Micro(w, cfg, ms[0]) == r;
    assert Micros(w, cfg, ms) == Concat(StepResult(w, []), r);
  }

  /** A paused loop that waits goes nowhere: until it is resumed nothing moves the world, and nothing
      is published but a stop. */
  lemma PausedStays(s: Runner, a: Action)
    requires InRun(s) && s.status == Paused && s.task == WaitingPause(false) && a != Resume && Step(s, a).Some?
    ensures var t := Step(s, a).value;
      && t.world == s.world && t.log == s.log
      && if a == Stop then t.status == Stopped else t.status == Paused && t.task == WaitingPause(false)
  {
    hide InRun;
    InControl(s);
  }
}
