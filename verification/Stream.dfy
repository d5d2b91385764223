/** api/ws.py and api/routes_runtime.py:590-630: one client following a log that keeps growing.
    A step is what runs between two suspension points, so every sequence of steps is one
    interleaving of the publisher with the connection's handler. */
module Stream {
  import opened Wrappers
  import opened Events
  import opened Behaviours
  import opened Folds

  /** Where the handler is suspended: sending the snapshot, sending the rest of the backlog
      (none left: waiting on the queue), sending one queued event, or not running. */
  datatype Phase<+D> = Absent | Snapshotting | Serving(rest: seq<Event<D>>) | Holding(event: Event<D>) | Gone

  /** `base` is what the client starts from: its own number, or the snapshot's `last_seq`. */
  datatype State<+D> = State(
    log: seq<D>, phase: Phase<D>, queue: seq<Event<D>>,
    lastSent: int, sent: seq<Event<D>>, base: int, known: nat)

  datatype Action<+D> = Publish(drafts: seq<D>) | Connect(since: Option<int>)
                      | SendSnapshot | SendBacklog | Take | SendHeld | Disconnect

  predicate Connected<D>(s: State<D>) { !s.phase.Absent? && !s.phase.Gone? }

  /** Subscribe, then `since`, then possibly the snapshot: no suspension in between. `known` is
      the length of the log at that moment. */
  function Joined<D>(log: seq<D>, since: Option<int>): State<D> {
    var backlog := if since.Some? then Since(Ring(log), since.value) else None;
    if backlog.None? then State(log, Snapshotting, [], |log| - 1, [], |log| - 1, |log|)
    else State(log, Serving(backlog.value), [], since.value, [], since.value, |log|)
  }

  /** The state after an action, None when the action cannot happen. */
  function Step<D>(s: State<D>, a: Action<D>): Option<State<D>> {
    match a
    case Publish(drafts) =>
      Some(s.(log := s.log + drafts,
              queue := if Connected(s) then s.queue + Numbered(|s.log|, drafts) else s.queue))
    case Connect(since) => if s.phase.Absent? then Some(Joined(s.log, since)) else None
    case SendSnapshot => if s.phase.Snapshotting? then Some(s.(phase := Serving([]))) else None
    case SendBacklog =>
      if s.phase.Serving? && |s.phase.rest| > 0 then
        var e := s.phase.rest[0];
        Some(s.(phase := Serving(s.phase.rest[1..]), sent := s.sent + [e], lastSent := e.number))
      else None
    case Take =>
      if s.phase == Serving([]) && |s.queue| > 0 then
        var e := s.queue[0];
        Some(s.(queue := s.queue[1..], phase := if e.number <= s.lastSent then s.phase else Holding(e)))
      else None
    case SendHeld =>
      if s.phase.Holding? then
        Some(s.(phase := Serving([]), sent := s.sent + [s.phase.event], lastSent := s.phase.event.number))
      else None
    case Disconnect =>
      if s.phase.Snapshotting? || s.phase.Holding? || (s.phase.Serving? && |s.phase.rest| > 0)
      then Some(s.(phase := Gone)) else None
  }

  ghost predicate Init<D>(s: State<D>) { s == State([], Absent, [], -1, [], -1, 0) }

  ghost predicate Next<D(!new)>(s: State<D>, t: State<D>) { exists a :: Step(s, a) == Some(t) }

  ghost predicate InRun<D(!new)>(s: State<D>) {
    Reachable((x: State<D>) => Init(x), (x: State<D>, y: State<D>) => Next(x, y), s)
  }

  /** The number of the next event the client is owed. */
  function Due<D>(s: State<D>): nat { Resume(s.base) + |s.sent| }

  function Slice<D>(log: seq<D>, lo: nat, hi: nat): seq<Event<D>> {
    if lo <= hi <= |log| then Record(log)[lo..hi] else []
  }

  /** How much of the log has left the queue. */
  function Taken<D>(s: State<D>): int { |s.log| - |s.queue| }

  /** What every interleaving keeps while a client is connected. */
  ghost predicate Inv<D>(s: State<D>) {
    Connected(s) ==>
      && s.known <= Taken(s) && s.queue == Slice(s.log, Taken(s), |s.log|)
      && (|s.sent| > 0 ==> Due(s) <= |s.log|) && s.sent == Slice(s.log, Resume(s.base), Due(s))
      && s.lastSent == (if |s.sent| > 0 then Due(s) - 1 else s.base)
      && match s.phase
         case Snapshotting => Taken(s) == Due(s) == s.known && s.base == s.known - 1 && s.sent == []
         case Serving(rest) =>
           && rest == Slice(s.log, Due(s), s.known)
           && (rest != [] ==> Taken(s) == s.known)
           && (rest == [] ==> Taken(s) <= Due(s))
         case Holding(e) => Due(s) < |s.log| && Taken(s) == Due(s) + 1 && e == Event(Due(s), s.log[Due(s)])
  }

  lemma SliceGrows<D>(log: seq<D>, drafts: seq<D>, lo: nat, hi: nat)
    requires hi <= |log|
    ensures Slice(log + drafts, lo, hi) == Slice(log, lo, hi)
    ensures lo <= |log| ==> Slice(log + drafts, lo, |log + drafts|) == Slice(log, lo, |log|) + Numbered(|log|, drafts)
  {
    RecordGrows(log, drafts);
  }

  lemma SliceParts<D>(log: seq<D>, lo: nat, mid: nat, hi: nat)
    requires lo <= mid <= hi <= |log|
    ensures Slice(log, lo, mid) + Slice(log, mid, hi) == Slice(log, lo, hi)
    ensures mid < hi ==> Slice(log, mid, hi)[0] == Event(mid, log[mid]) && Slice(log, mid, hi)[1..] == Slice(log, mid + 1, hi)
    ensures mid < hi ==> Slice(log, mid, mid + 1) == [Event(mid, log[mid])]
  {
  }

  lemma PublishKeeps<D>(s: State<D>, drafts: seq<D>)
    requires Inv(s)
    ensures Inv(Step(s, Publish(drafts)).value)
  {
    hide Slice;
    if Connected(s) {
      SliceGrows(s.log, drafts, Taken(s), |s.log|);
      if |s.sent| > 0 { SliceGrows(s.log, drafts, Resume(s.base), Due(s)); } else { NothingSent(s.log, s.log + drafts, Resume(s.base)); }
      SliceGrows(s.log, drafts, Due(s), s.known);
    }
  }

  lemma NothingSent<D>(log: seq<D>, more: seq<D>, lo: nat)
    ensures Slice(log, lo, lo) == [] && Slice(more, lo, lo) == []
  {
  }

  lemma ConnectKeeps<D>(s: State<D>, since: Option<int>)
    requires s.phase.Absent?
    ensures Inv(Joined(s.log, since))
  {
    var t := Joined(s.log, since);
    NothingSent(s.log, s.log, Resume(t.base));
    NothingSent(s.log, s.log, |s.log|);
    if since.Some? { SinceIsExact(s.log, since.value); }
    if t.phase.Serving? {
      assert t.phase.rest == Slice(s.log, Resume(since.value), |s.log|);
    }
  }

  lemma BacklogKeeps<D>(s: State<D>)
    requires Inv(s) && Step(s, SendBacklog).Some?
    ensures Inv(Step(s, SendBacklog).value)
  {
    hide Slice;
    var t := Step(s, SendBacklog).value;
    NoRest(s.log, Due(s), s.known);
    SliceParts(s.log, Resume(s.base), Due(s), s.known);
    SliceParts(s.log, Resume(s.base), Due(s), Due(s) + 1);
    assert Due(t) == Due(s) + 1;
    NoRest(s.log, Due(t), s.known);
    assert t.phase.rest == Slice(s.log, Due(t), s.known);
    assert t.sent == Slice(s.log, Resume(s.base), Due(t));
  }

  lemma TakeKeeps<D>(s: State<D>)
    requires Inv(s) && Step(s, Take).Some?
    ensures Inv(Step(s, Take).value)
  {
    hide Slice;
    SliceParts(s.log, Taken(s), Taken(s), |s.log|);
    NoRest(s.log, Due(s), s.known);
  }

  lemma NoRest<D>(log: seq<D>, lo: nat, hi: nat)
    ensures lo >= hi ==> Slice(log, lo, hi) == []
    ensures hi <= |log| && Slice(log, lo, hi) == [] ==> lo >= hi
  {
  }

  lemma HeldKeeps<D>(s: State<D>)
    requires Inv(s) && Step(s, SendHeld).Some?
    ensures Inv(Step(s, SendHeld).value)
  {
    hide Slice;
    SliceParts(s.log, Resume(s.base), Due(s), Due(s) + 1);
    NoRest(s.log, Due(s) + 1, s.known);
  }

  lemma StepKeeps<D>(s: State<D>, a: Action<D>)
    requires Inv(s) && Step(s, a).Some?
    ensures Inv(Step(s, a).value)
  {
    match a
    case Publish(drafts) => PublishKeeps(s, drafts);
    case Connect(since) => ConnectKeeps(s, since);
    case SendSnapshot => NoRest(s.log, Due(s), s.known);
    case SendBacklog => BacklogKeeps(s);
    case Take => TakeKeeps(s);
    case SendHeld => HeldKeeps(s);
    case Disconnect =>
  }

  lemma Always<D(!new)>(s: State<D>)
    requires InRun(s)
    ensures Inv(s)
  {
    forall x: State<D>, y: State<D> | Inv(x) && Next(x, y) ensures Inv(y) {
      var a :| Step(x, a) == Some(y);
      StepKeeps(x, a);
    }
    Invariant((x: State<D>) => Init(x), (x: State<D>, y: State<D>) => Next(x, y), (x: State<D>) => Inv(x), s);
  }

  // --- what a client gets -----------------------------------------------------------------------

  /** At every moment of every interleaving, for every requested number, the events sent are the
      consecutive stretch of the log after the client's starting point: each once, in order. */
  lemma SentIsConsecutive<D(!new)>(s: State<D>)
    requires InRun(s) && Connected(s)
    ensures s.sent == Slice(s.log, Resume(s.base), Resume(s.base) + |s.sent|)
    ensures forall i | 0 <= i < |s.sent| :: Resume(s.base) + i < |s.log| && s.sent[i] == Event(Resume(s.base) + i, s.log[Resume(s.base) + i])
  {
    Always(s);
  }

  /** The handler has sent everything it was given. */
  predicate Drained<D>(s: State<D>) { s.phase == Serving([]) && s.queue == [] }

  /** Once drained the client has everything up to the last published event. */
  lemma DrainedIsCurrent<D(!new)>(s: State<D>)
    requires InRun(s) && Drained(s)
    ensures s.sent == if Resume(s.base) <= |s.log| then Record(s.log)[Resume(s.base)..] else []
  {
    Always(s);
    if Resume(s.base) <= |s.log| {
      assert Due(s) == |s.log|;
      assert Record(s.log)[Resume(s.base)..|s.log|] == Record(s.log)[Resume(s.base)..];
    }
  }

  /** Some event published after the client connected was never sent. */
  ghost predicate Missed<D>(s: State<D>) {
    exists i :: s.known <= i < |s.log| && Event(i, s.log[i]) !in s.sent
  }

  /** A drained client misses a later event if and only if it connected with a number above the
      `last_seq` of that moment (and anything up to that number was published since). */
  lemma MissesExactly<D(!new)>(s: State<D>)
    requires InRun(s) && Drained(s)
    ensures Missed(s) <==> s.base > s.known - 1 && |s.log| > s.known
  {
    Always(s);
    DrainedIsCurrent(s);
    var start := Resume(s.base);
    if s.base > s.known - 1 && |s.log| > s.known {
      assert Event(s.known, s.log[s.known]) !in s.sent;
    }
    if s.base <= s.known - 1 {
      forall i | s.known <= i < |s.log| ensures Event(i, s.log[i]) in s.sent {
        assert s.sent[i - start] == Event(i, s.log[i]);
      }
    }
  }

  // --- snapshot plus events is the current state --------------------------------------------------

  function Drafts<D>(events: seq<Event<D>>): seq<D> {
    seq(|events|, i requires 0 <= i < |events| => events[i].draft)
  }

  /** For any reducer: a client that starts from the state at its starting point and applies what
      it was sent holds the current state as soon as it is drained. */
  lemma CatchesUp<V, D(!new)>(s: State<D>, reduce: (V, D) -> V, v: V)
    requires InRun(s) && Drained(s) && Resume(s.base) <= |s.log|
    ensures Fold(reduce, Fold(reduce, v, s.log[..Resume(s.base)]), Drafts(s.sent)) == Fold(reduce, v, s.log)
  {
    DrainedIsCurrent(s);
    var start := Resume(s.base);
    assert Drafts(s.sent) == s.log[start..];
    assert s.log == s.log[..start] + s.log[start..];
    FoldAppend(reduce, v, s.log[..start], s.log[start..]);
  }

  // --- draining ends -------------------------------------------------------------------------------

  function Effort<D>(s: State<D>): nat {
    2 * |s.queue| + match s.phase
      case Snapshotting => 1
      case Serving(rest) => |rest|
      case Holding(_) => 1
      case _ => 0
  }

  predicate Serves<D>(a: Action<D>) { a.SendSnapshot? || a.SendBacklog? || a.Take? || a.SendHeld? }

  /** While anything is left to send the handler has a step to take, and each one brings it
      nearer to being drained. */
  lemma DrainsUnlessPublished<D(!new)>(s: State<D>)
    requires Connected(s)
    ensures Drained(s) <==> forall a :: Serves(a) ==> Step(s, a) == None
    ensures forall a | Serves(a) && Step(s, a).Some? :: Connected(Step(s, a).value) && Effort(Step(s, a).value) < Effort(s)
  {
    if !Drained(s) {
      var a := match s.phase
        case Snapshotting => SendSnapshot
        case Serving(rest) => if |rest| > 0 then SendBacklog else Take
        case _ => SendHeld;
      assert Serves(a) && Step(s, a).Some?;
    }
  }

  // --- connecting and leaving ----------------------------------------------------------------------

  /** Where a client starts: from its own number with every event above it, as long as none of them
      has left the last 2000; from a snapshot at the present `last_seq` otherwise. */
  lemma ConnectIs<D>(log: seq<D>, since: Option<int>)
    ensures var s := Joined(log, since);
      && s.log == log && s.queue == [] && s.sent == [] && s.known == |log| && s.lastSent == s.base
      && if since.Some? && (log == [] || (since.value >= -1 && since.value + 1 >= |log| - 2000)) then
           && s.base == since.value && s.phase.Serving?
           && |s.phase.rest| == (if log == [] || since.value + 1 >= |log| then 0 else |log| - (since.value + 1))
           && forall i | 0 <= i < |s.phase.rest| :: s.phase.rest[i] == Event(since.value + 1 + i, log[since.value + 1 + i])
         else s.phase == Snapshotting && s.base == |log| - 1
  {
    hide Since, Ring;
    if since.Some? { SinceIs(log, since.value); }
  }

  /** A client that is gone is sent nothing more and its queue is fed no more; one that disconnects
      is gone. */
  lemma GoneIsGone<D>(s: State<D>, a: Action<D>)
    requires Step(s, a).Some?
    ensures a.Disconnect? ==> Step(s, a).value.phase.Gone?
    ensures s.phase.Gone? ==> var t := Step(s, a).value; t.phase.Gone? && t.sent == s.sent && t.queue == s.queue && s.log <= t.log
  {
  }
}
