/** persistence/writer.py: the drain loop that races its queue against the terminal signal, the
    batch writes that may fail, and the completeness check. */
module WriterProtocol {
  import opened Wrappers
  import opened Ordering
  import opened World
  import opened Events
  import opened Behaviours
  import opened RunnerProtocol
  import Experiment

  const DRAIN_BATCH_CAP: nat := 500

  type Published = Event<Draft>

  /** Where the drain task is suspended: in `asyncio.wait` on the two tasks it created, waiting
      for the loser it cancelled, in the insert of a batch, in `_finalize` with the summary it
      took, or over (with the verdict it stored, if the update went through). */
  datatype Phase =
    | Waiting(got: Option<Published>, term: bool)
    | Cancelling(got: Option<Published>, term: bool)
    | Writing(batch: seq<Published>, term: bool)
    | Finalizing(last: int)
    | Done(verdict: Option<bool>)
    | ShutDown

  datatype Batch = Batch(events: seq<Published>, ok: bool)

  /** `table` are the rows of experiment_events for this experiment, by seq. */
  datatype Writer = Writer(queue: seq<Published>, phase: Phase, batches: seq<Batch>, table: map<nat, Published>)

  datatype Action =
    | GetCompletes
    | TermCompletes
    | WaitReturns
    | Drain
    | WriteEnds(ok: bool)
    | FinalizeEnds(ok: bool)
    | Shutdown

  // --- the table ----------------------------------------------------------------------------------

  /** ON CONFLICT DO NOTHING, row by row. */
  function Insert(table: map<nat, Published>, events: seq<Published>): map<nat, Published> {
    if |events| == 0 then table else
      var t := Insert(table, events[..|events| - 1]);
      var e := events[|events| - 1];
      if e.number in t then t else t[e.number := e]
  }

  /** What the query returns; the extremes are NULL for no rows. */
  datatype Row = Row(count: nat, low: Option<nat>, high: Option<nat>)

  lemma {:induction false} GreatestExists(s: set<nat>)
    requires s != {}
    ensures exists m :: m in s && forall x | x in s :: x <= m
  {
    var y :| y in s;
    if s - {y} == {} {
      assert s == {y};
    } else {
      GreatestExists(s - {y});
      var m :| m in s - {y} && forall x | x in s - {y} :: x <= m;
      var greatest := if m >= y then m else y;
      forall x | x in s ensures x <= greatest {
        assert x == y || x in s - {y};
      }
    }
  }

  function Greatest(s: set<nat>): (m: nat)
    requires s != {}
    ensures m in s && forall x | x in s :: x <= m
  {
    GreatestExists(s);
    var m :| m in s && forall x | x in s :: x <= m;
    m
  }

  function Query(keys: set<nat>): Row {
    if keys == {} then Row(0, None, None) else Row(|keys|, Some(Least(keys)), Some(Greatest(keys)))
  }

  /** `is_complete`. */
  predicate IsComplete(r: Row, last: int) {
    r.count == last + 1 && r.low == Some(0) && r.high.Some? && r.high.value == last
  }

  lemma SubsetOfSize(a: set<nat>, b: set<nat>)
    requires a <= b && |a| == |b|
    ensures a == b
  {
    assert b == a + (b - a);
    assert |b| == |a| + |b - a|;
  }

  /** Pigeonhole: count, minimum and maximum decide contiguity. The check succeeds exactly when
      the stored numbers are 0 to `last` and there is at least one. */
  lemma CompleteExactly(keys: set<nat>, last: int)
    ensures IsComplete(Query(keys), last) <==> last >= 0 && keys == UpTo(last + 1)
  {
    hide UpTo;
    if last >= 0 {
      UpToSize(last + 1);
      if IsComplete(Query(keys), last) {
        assert keys <= UpTo(last + 1);
        SubsetOfSize(keys, UpTo(last + 1));
      }
      if keys == UpTo(last + 1) {
        assert 0 in keys && last as nat in keys;
      }
    }
  }

  // --- steps ----------------------------------------------------------------------------------------

  function Held(got: Option<Published>): seq<Published> { if got.Some? then [got.value] else [] }

  /** What the drain loop holds outside queue and table. */
  function Hand(p: Phase): seq<Published> {
    match p
    case Waiting(got, _) => Held(got)
    case Cancelling(got, _) => Held(got)
    case Writing(batch, _) => batch
    case _ => []
  }

  function Take(queue: seq<Published>, n: nat): nat { if |queue| <= n then |queue| else n }

  /** The end of an iteration: finalize only with the signal seen and the queue empty. */
  function NextIteration(w: Writer, term: bool, last: int): Writer {
    if term && w.queue == [] then w.(phase := Finalizing(last)) else w.(phase := Waiting(None, false))
  }

  function DrainStretch(w: Writer, last: int): Writer
    requires w.phase.Cancelling?
  {
    var held := Held(w.phase.got);
    var n := Take(w.queue, DRAIN_BATCH_CAP - |held|);
    var batch := held + w.queue[..n];
    var rest := w.(queue := w.queue[n..]);
    if batch == [] then NextIteration(rest, w.phase.term, last) else rest.(phase := Writing(batch, w.phase.term))
  }

  /** A batch is one transaction: all of it or nothing. */
  function WriteStretch(w: Writer, ok: bool, last: int): Writer
    requires w.phase.Writing?
  {
    var b := w.phase.batch;
    NextIteration(
      w.(batches := w.batches + [Batch(b, ok)], table := if ok then Insert(w.table, b) else w.table),
      w.phase.term, last)
  }

  predicate Subscribed(w: Writer) { !w.phase.Done? && !w.phase.ShutDown? }

  function Step(w: Writer, terminal: bool, last: int, a: Action): Option<Writer> {
    match a
    case GetCompletes =>
      if w.phase.Waiting? && w.phase.got.None? && |w.queue| > 0
      then Some(w.(phase := Waiting(Some(w.queue[0]), w.phase.term), queue := w.queue[1..])) else None
    case TermCompletes =>
      if w.phase.Waiting? && !w.phase.term && terminal then Some(w.(phase := Waiting(w.phase.got, true))) else None
    case WaitReturns =>
      if w.phase.Waiting? && (w.phase.got.Some? || w.phase.term)
      then Some(w.(phase := Cancelling(w.phase.got, w.phase.term))) else None
    case Drain => if w.phase.Cancelling? then Some(DrainStretch(w, last)) else None
    case WriteEnds(ok) => if w.phase.Writing? then Some(WriteStretch(w, ok, last)) else None
    case FinalizeEnds(ok) =>
      if w.phase.Finalizing?
      then Some(w.(phase := Done(if ok then Some(IsComplete(Query(w.table.Keys), w.phase.last)) else None))) else None
    case Shutdown => if Subscribed(w) then Some(w.(phase := ShutDown)) else None
  }

  /** The runner and its writer side by side. */
  datatype System = System(runner: Runner, writer: Writer)

  /** What a runner step publishes reaches the writer's queue in that same step. */
  ghost predicate RunnerMoves(s: System, t: System) {
    && RunnerProtocol.Next(s.runner, t.runner)
    && s.runner.log <= t.runner.log
    && t.writer == (if Subscribed(s.writer)
                    then s.writer.(queue := s.writer.queue + Record(t.runner.log)[|s.runner.log|..]) else s.writer)
  }

  ghost predicate CanBecome(w: Writer, terminal: bool, last: int, v: Writer) {
    exists a :: Step(w, terminal, last, a) == Some(v)
  }

  ghost predicate WriterMoves(s: System, t: System) {
    && t.runner == s.runner
    && CanBecome(s.writer, s.runner.terminal, |s.runner.log| - 1, t.writer)
  }

  ghost predicate Next(s: System, t: System) { RunnerMoves(s, t) || WriterMoves(s, t) }

  /** The writer subscribed before the initial events were published. */
  ghost predicate Init(s: System) {
    RunnerProtocol.Init(s.runner) && s.writer == Writer(Record(s.runner.log), Waiting(None, false), [], map[])
  }

  ghost predicate InRun(s: System) { Reachable((x: System) => Init(x), (x: System, y: System) => Next(x, y), s) }

  // --- the invariant ----------------------------------------------------------------------------------

  function Written(batches: seq<Batch>): seq<Published> {
    if |batches| == 0 then [] else Written(batches[..|batches| - 1]) + batches[|batches| - 1].events
  }

  function Table(batches: seq<Batch>): map<nat, Published> {
    if |batches| == 0 then map[] else
      var b := batches[|batches| - 1];
      var t := Table(batches[..|batches| - 1]);
      if b.ok then Insert(t, b.events) else t
  }

  predicate Sized(batch: seq<Published>) { 0 < |batch| <= DRAIN_BATCH_CAP }

  ghost predicate WriterInv(w: Writer, log: seq<Draft>, terminal: bool) {
    && (forall i | 0 <= i < |w.batches| :: Sized(w.batches[i].events))
    && w.table == Table(w.batches)
    && (!w.phase.ShutDown? ==> Written(w.batches) + Hand(w.phase) + w.queue == Record(log))
    && match w.phase
       case Waiting(_, term) => term ==> terminal
       case Cancelling(got, term) => (term ==> terminal) && (got.Some? || term)
       case Writing(batch, term) => (term ==> terminal) && Sized(batch)
       case Finalizing(last) => terminal && w.queue == [] && last == |log| - 1
       case Done(v) => terminal && w.queue == [] && (v.Some? ==> v.value == IsComplete(Query(w.table.Keys), |log| - 1))
       case ShutDown => true
  }

  lemma WrittenMore(batches: seq<Batch>, b: Batch)
    ensures Written(batches + [b]) == Written(batches) + b.events
    ensures Table(batches + [b]) == if b.ok then Insert(Table(batches), b.events) else Table(batches)
  {
    assert (batches + [b])[..|batches|] == batches;
  }

  lemma DrainKeeps(w: Writer, log: seq<Draft>, terminal: bool)
    requires WriterInv(w, log, terminal) && w.phase.Cancelling?
    ensures WriterInv(DrainStretch(w, |log| - 1), log, terminal)
  {
    var held := Held(w.phase.got);
    var n := Take(w.queue, DRAIN_BATCH_CAP - |held|);
    assert w.queue == w.queue[..n] + w.queue[n..];
    var t := DrainStretch(w, |log| - 1);
    assert Written(w.batches) + (held + w.queue[..n]) + w.queue[n..] == Written(w.batches) + held + w.queue;
    assert Hand(t.phase) == held + w.queue[..n];
  }

  lemma WriteKeeps(w: Writer, log: seq<Draft>, terminal: bool, ok: bool)
    requires WriterInv(w, log, terminal) && w.phase.Writing?
    ensures WriterInv(WriteStretch(w, ok, |log| - 1), log, terminal)
  {
    WrittenMore(w.batches, Batch(w.phase.batch, ok));
  }

  lemma WriterKeeps(w: Writer, log: seq<Draft>, terminal: bool, a: Action)
    requires WriterInv(w, log, terminal) && Step(w, terminal, |log| - 1, a).Some?
    ensures WriterInv(Step(w, terminal, |log| - 1, a).value, log, terminal)
  {
    match a
    case Drain => DrainKeeps(w, log, terminal);
    case WriteEnds(ok) => WriteKeeps(w, log, terminal, ok);
    case GetCompletes => assert [w.queue[0]] + w.queue[1..] == w.queue;
    case _ =>
  }

  lemma PublishKeeps(w: Writer, log: seq<Draft>, more: seq<Draft>, terminal: bool, later: bool)
    requires WriterInv(w, log, terminal) && (terminal ==> later) && log <= more && (terminal ==> more == log)
    ensures WriterInv(if Subscribed(w) then w.(queue := w.queue + Record(more)[|log|..]) else w, more, later)
  {
    assert Record(more) == Record(log) + Record(more)[|log|..];
  }

  ghost predicate Inv(s: System) {
    Control(s.runner) && |s.runner.log| > 0 && WriterInv(s.writer, s.runner.log, s.runner.terminal)
  }

  lemma RunnerMoveKeeps(s: System, t: System)
    requires Inv(s) && RunnerMoves(s, t)
    ensures Inv(t)
  {
    hide Control, RunnerProtocol.Step, WriterInv;
    var a :| RunnerProtocol.Step(s.runner, a) == Some(t.runner);
    ControlKept(s.runner, a);
    FinalStep(s.runner, a);
    PublishKeeps(s.writer, s.runner.log, t.runner.log, s.runner.terminal, t.runner.terminal);
  }

  lemma WriterMoveKeeps(s: System, t: System)
    requires Inv(s) && WriterMoves(s, t)
    ensures Inv(t)
  {
    hide Control, Step, WriterInv;
    var last := |s.runner.log| - 1;
    var a :| Step(s.writer, s.runner.terminal, last, a) == Some(t.writer);
    WriterKeeps(s.writer, s.runner.log, s.runner.terminal, a);
  }

  lemma InitHolds(s: System)
    requires Init(s)
    ensures Inv(s)
  {
    hide Experiment.Start, Experiment.Valid;
    CreatedSound(s.runner.setup, s.runner.gateway);
    StartsNonEmpty(s.runner.setup);
    assert Written([]) + [] + s.writer.queue == Record(s.runner.log);
  }

  lemma StartsNonEmpty(setup: Experiment.Setup)
    requires Experiment.Valid(setup)
    ensures |Experiment.Start(setup).drafts| > 0
  {
  }

  lemma Always(s: System)
    requires InRun(s)
    ensures Inv(s)
  {
    hide Inv, Init, RunnerMoves, WriterMoves;
    forall x: System, y: System | Inv(x) && Next(x, y) ensures Inv(y) {
      if RunnerMoves(x, y) { RunnerMoveKeeps(x, y); } else { WriterMoveKeeps(x, y); }
    }
    forall x: System | Init(x) ensures Inv(x) { InitHolds(x); }
    Invariant((x: System) => Init(x), (x: System, y: System) => Next(x, y), (x: System) => Inv(x), s);
  }

  // --- what is persisted ------------------------------------------------------------------------------

  /** In every interleaving the batches handed to the database so far, then what the drain loop holds,
      then its queue, are exactly the published events: in order, no loss, no duplicate. Batches
      are never empty and never above the cap. */
  lemma NothingLost(s: System)
    requires InRun(s) && !s.writer.phase.ShutDown?
    ensures Written(s.writer.batches) + Hand(s.writer.phase) + s.writer.queue == Record(s.runner.log)
    ensures forall i | 0 <= i < |s.writer.batches| :: 0 < |s.writer.batches[i].events| <= DRAIN_BATCH_CAP
  {
    hide InRun, Control;
    Always(s);
  }

  /** `_finalize` runs only once the terminal event is set and the batches cover 0..last_seq,
      and the log it judged never grows again. */
  lemma FinalizeCoversAll(s: System)
    requires InRun(s) && (s.writer.phase.Finalizing? || s.writer.phase.Done?)
    ensures s.runner.terminal && s.writer.queue == [] && Written(s.writer.batches) == Record(s.runner.log)
    ensures s.writer.phase.Finalizing? ==> s.writer.phase.last == |s.runner.log| - 1
  {
    hide InRun, Control;
    Always(s);
    assert Written(s.writer.batches) + [] + [] == Written(s.writer.batches);
  }

  predicate AllOk(batches: seq<Batch>) { forall i | 0 <= i < |batches| :: batches[i].ok }

  lemma {:induction false} InsertRange(table: map<nat, Published>, log: seq<Draft>, lo: nat, hi: nat)
    requires lo <= hi <= |log|
    requires forall k | k in table :: k < lo && table[k] == Event(k, log[k])
    ensures var t := Insert(table, Record(log)[lo..hi]);
      && t.Keys == table.Keys + (UpTo(hi) - UpTo(lo))
      && forall k | k in t :: k < hi && t[k] == Event(k, log[k])
    decreases hi - lo
  {
    if lo < hi {
      InsertRange(table, log, lo, hi - 1);
      var events := Record(log)[lo..hi];
      assert events[..|events| - 1] == Record(log)[lo..hi - 1];
      assert events[|events| - 1] == Event(hi - 1, log[hi - 1]);
    }
  }

  /** The table after batches that cover a prefix of the record: right rows only, and all of
      them exactly when no batch failed. */
  lemma {:induction false} TableExactly(batches: seq<Batch>, log: seq<Draft>)
    requires Written(batches) <= Record(log) && forall i | 0 <= i < |batches| :: Sized(batches[i].events)
    ensures var t, n := Table(batches), |Written(batches)|;
      && t.Keys <= UpTo(n) && (forall k | k in t :: k < n && t[k] == Event(k, log[k]))
      && (t.Keys == UpTo(n) <==> AllOk(batches))
  {
    if |batches| > 0 {
      var earlier, b := batches[..|batches| - 1], batches[|batches| - 1];
      assert batches == earlier + [b];
      var lo, hi := |Written(earlier)|, |Written(batches)|;
      assert Written(earlier) == Record(log)[..lo] && b.events == Record(log)[lo..hi];
      TableExactly(earlier, log);
      var t := Table(earlier);
      if b.ok {
        InsertRange(t, log, lo, hi);
        if Insert(t, b.events).Keys == UpTo(hi) {
          assert t.Keys == UpTo(lo);
        }
      } else {
        assert lo !in t && lo in UpTo(hi);
      }
    }
  }

  /** The verdict is exact: `is_complete` is stored as true if and only if the stored numbers are
      0..last_seq, if and only if no batch failed; and every stored row is the event published
      under its number. */
  lemma VerdictExact(s: System)
    requires InRun(s) && s.writer.phase.Done? && s.writer.phase.verdict.Some?
    ensures s.writer.phase.verdict.value <==> s.writer.table.Keys == UpTo(|s.runner.log|)
    ensures s.writer.phase.verdict.value <==> AllOk(s.writer.batches)
    ensures forall k | k in s.writer.table :: k < |s.runner.log| && s.writer.table[k] == Event(k, s.runner.log[k])
  {
    hide InRun, Control, Query, IsComplete;
    Always(s);
    FinalizeCoversAll(s);
    CompleteExactly(s.writer.table.Keys, |s.runner.log| - 1);
    TableExactly(s.writer.batches, s.runner.log);
  }

  // --- it ends -----------------------------------------------------------------------------------------

  function Rank(p: Phase): nat {
    match p
    case Waiting(got, term) => 9 - (if got.Some? then 1 else 0) - (if term then 1 else 0)
    case Cancelling(_, _) => 6
    case Writing(_, _) => 5
    case Finalizing(_) => 3
    case _ => 0
  }

  function Effort(w: Writer): nat { 10 * (|w.queue| + |Hand(w.phase)|) + Rank(w.phase) }

  /** After the terminal event the writer always has a next step until it is over, and every
      step brings it nearer, whatever fails. */
  lemma WriterEnds(w: Writer, log: seq<Draft>, last: int)
    requires WriterInv(w, log, true) && Subscribed(w) && last == |log| - 1
    ensures exists a :: a != Shutdown && Step(w, true, last, a).Some?
    ensures forall a | Step(w, true, last, a).Some? && a != Shutdown :: Effort(Step(w, true, last, a).value) < Effort(w)
  {
    hide WriterInv, Effort;
    var a := match w.phase
      case Waiting(got, term) => if term then WaitReturns else TermCompletes
      case Cancelling(_, _) => Drain
      case Writing(_, _) => WriteEnds(true)
      case _ => FinalizeEnds(true);
    assert Step(w, true, last, a).Some?;
    forall b | Step(w, true, last, b).Some? && b != Shutdown ensures Effort(Step(w, true, last, b).value) < Effort(w) {
      StepNearer(w, log, last, b);
    }
  }

  lemma StepNearer(w: Writer, log: seq<Draft>, last: int, a: Action)
    requires WriterInv(w, log, true) && Step(w, true, last, a).Some? && a != Shutdown && last == |log| - 1
    ensures Effort(Step(w, true, last, a).value) < Effort(w)
  {
    hide Written, Table, Query, IsComplete, Insert;
    if a == Drain {
      var held := Held(w.phase.got);
      var n := Take(w.queue, DRAIN_BATCH_CAP - |held|);
      assert |held + w.queue[..n]| + |w.queue[n..]| == |held| + |w.queue|;
    }
  }

  // --- what each stretch must do ----------------------------------------------------------------------

  /** One drain takes what the lost race left in hand and then from the front of the queue, 500 events
      at most; whatever it took goes to the database next. */
  lemma DrainIs(w: Writer, terminal: bool, last: int)
    requires w.phase.Cancelling?
    ensures Step(w, terminal, last, Drain).Some?
    ensures var all := (if w.phase.got.Some? then [w.phase.got.value] else []) + w.queue;
      var n := if |all| < 500 then |all| else 500; var v := Step(w, terminal, last, Drain).value;
      && v.queue == all[n..] && v.batches == w.batches && v.table == w.table
      && (n > 0 ==> v.phase == Writing(all[..n], w.phase.term))
      && (n == 0 ==> v.phase == if w.phase.term then Finalizing(last) else Waiting(None, false))
  {
    var held := Held(w.phase.got);
    var n := Take(w.queue, DRAIN_BATCH_CAP - |held|);
    assert (held + w.queue)[..|held| + n] == held + w.queue[..n];
    assert (held + w.queue)[|held| + n..] == w.queue[n..];
  }

  /** A batch that commits is in the table, row for row, on top of what was there; one that fails is
      not. Then the loop goes on, or finalizes if it saw the terminal signal and nothing is queued. */
  lemma WriteIs(w: Writer, terminal: bool, last: int, ok: bool)
    requires w.phase.Writing?
    ensures Step(w, terminal, last, WriteEnds(ok)).Some?
    ensures var b := w.phase.batch; var v := Step(w, terminal, last, WriteEnds(ok)).value;
      && v.queue == w.queue && v.batches == w.batches + [Batch(b, ok)]
      && (!ok ==> v.table == w.table)
      && (ok ==> (forall k :: k in v.table <==> k in w.table || exists e :: e in b && e.number == k)
                 && (forall k | k in w.table :: v.table[k] == w.table[k])
                 && (forall k | k in v.table && k !in w.table :: v.table[k] in b && v.table[k].number == k))
      && v.phase == if w.phase.term && w.queue == [] then Finalizing(last) else Waiting(None, false)
  {
    hide Insert;
    InsertIs(w.table, w.phase.batch);
  }

  lemma {:induction false} InsertIs(table: map<nat, Published>, events: seq<Published>)
    ensures var t := Insert(table, events);
      && (forall k :: k in t <==> k in table || exists e :: e in events && e.number == k)
      && (forall k | k in table :: t[k] == table[k])
      && (forall k | k in t && k !in table :: t[k] in events && t[k].number == k)
  {
    if |events| > 0 {
      var earlier, e := events[..|events| - 1], events[|events| - 1];
      assert events == earlier + [e];
      InsertIs(table, earlier);
    }
  }

  /** An update that goes through stores whether the numbers in the table are as many as the last
      number says, from 0 to it; one that fails stores nothing. Either way the writer is done. */
  lemma FinalizeIs(w: Writer, terminal: bool, last: int, ok: bool)
    requires w.phase.Finalizing?
    ensures Step(w, terminal, last, FinalizeEnds(ok)).Some?
    ensures var v := Step(w, terminal, last, FinalizeEnds(ok)).value; var keys := w.table.Keys;
      && v.queue == w.queue && v.batches == w.batches && v.table == w.table
      && (!ok ==> v.phase == Done(None))
      && (ok ==> v.phase == Done(Some(|keys| == w.phase.last + 1 && 0 in keys && w.phase.last in keys && forall k | k in keys :: k <= w.phase.last)))
  {
    hide Greatest;
    if w.table.Keys != {} { assert Greatest(w.table.Keys) in w.table.Keys && Least(w.table.Keys) in w.table.Keys; }
  }

  /** The race: the queue's front event or the terminal signal wins, possibly both, and only then does
      the loop go on; shutting down ends it at once. */
  lemma RaceIs(w: Writer, terminal: bool, last: int)
    requires w.phase.Waiting?
    ensures var r := Step(w, terminal, last, GetCompletes);
      (r.Some? <==> w.phase.got.None? && w.queue != [])
      && (r.Some? ==> r.value == w.(phase := Waiting(Some(w.queue[0]), w.phase.term), queue := w.queue[1..]))
    ensures var r := Step(w, terminal, last, TermCompletes);
      (r.Some? <==> terminal && !w.phase.term) && (r.Some? ==> r.value == w.(phase := Waiting(w.phase.got, true)))
    ensures var r := Step(w, terminal, last, WaitReturns);
      (r.Some? <==> w.phase.got.Some? || w.phase.term) && (r.Some? ==> r.value == w.(phase := Cancelling(w.phase.got, w.phase.term)))
    ensures Step(w, terminal, last, Shutdown) == Some(w.(phase := ShutDown))
  {
  }
}
