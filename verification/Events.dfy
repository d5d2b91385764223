/** events/emitter.py and events/bus.py: who numbers events, and who gets them. */
module Events {
  import opened Wrappers

  datatype Event<+D> = Event(number: nat, draft: D)

  /** The drafts as events with consecutive numbers. */
  function Numbered<D>(from: nat, drafts: seq<D>): (events: seq<Event<D>>)
    ensures |events| == |drafts|
    ensures forall i | 0 <= i < |events| :: events[i] == Event(from + i, drafts[i])
  {
    seq(|drafts|, i requires 0 <= i < |drafts| => Event(from + i, drafts[i]))
  }

  /** The complete record: what one emitter has numbered from its first draft on. */
  function Record<D>(log: seq<D>): (events: seq<Event<D>>)
    ensures |events| == |log|
    ensures forall i | 0 <= i < |events| :: events[i] == Event(i, log[i])
  {
    Numbered(0, log)
  }

  /** Emitting batch after batch numbers the concatenation: no gap, no repeat. */
  lemma RecordGrows<D>(log: seq<D>, drafts: seq<D>)
    ensures Record(log + drafts) == Record(log) + Numbered(|log|, drafts)
  {
  }

  class EventEmitter<D> {
    var nextSeq: nat
    ghost var log: seq<D>

    ghost predicate Valid()
      reads this
    {
      nextSeq == |log|
    }

    constructor ()
      ensures Valid() && log == []
    {
      nextSeq := 0;
      log := [];
    }

    function LastSeq(): (last: int)
      requires Valid()
      reads this
      ensures last == |log| - 1
    {
      nextSeq - 1
    }

    /** The loop that hands out numbers one draft at a time. */
    method Emit(drafts: seq<D>) returns (events: seq<Event<D>>)
      requires Valid()
      modifies this
      ensures Valid() && log == old(log) + drafts
      ensures Record(log) == Record(old(log)) + events
    {
      events := [];
      for i := 0 to |drafts|
        invariant nextSeq == old(nextSeq) + i
        invariant events == Numbered(old(nextSeq), drafts[..i])
        invariant log == old(log)
      {
        events := events + [Event(nextSeq, drafts[i])];
        nextSeq := nextSeq + 1;
        assert drafts[..i + 1] == drafts[..i] + [drafts[i]];
      }
      log := log + drafts;
      assert drafts[..|drafts|] == drafts;
    }
  }

  const RING_SIZE: nat := 2000

  /** What a buffer of bounded length keeps of everything appended to it. */
  function LastOf<T>(s: seq<T>, n: nat): (r: seq<T>)
    ensures |r| == if |s| <= n then |s| else n
  {
    if |s| <= n then s else s[|s| - n..]
  }

  /** The ring over a record of events. */
  function Ring<D>(log: seq<D>): seq<Event<D>> { LastOf(Record(log), RING_SIZE) }

  /** `since` on any buffer. None asks the client to start over from a snapshot. */
  function Since<D>(buffer: seq<Event<D>>, after: int): Option<seq<Event<D>>> {
    if |buffer| == 0 then Some([]) else
      if after < buffer[0].number - 1 then None else Some(Later(buffer, after))
  }

  /** The events above a number, in order. */
  function Later<D>(buffer: seq<Event<D>>, after: int): seq<Event<D>> {
    if |buffer| == 0 then [] else
      var e := buffer[|buffer| - 1];
      Later(buffer[..|buffer| - 1], after) + if e.number > after then [e] else []
  }

  /** Some event above the number is in the record but no longer in the ring. */
  ghost predicate Evicted<D>(log: seq<D>, after: int) {
    exists i :: 0 <= i < |log| && i > after && Event(i, log[i]) !in Ring(log)
  }

  lemma RingMembers<D>(log: seq<D>)
    ensures Ring(log) == Record(log)[|log| - |Ring(log)|..]
    ensures forall i | 0 <= i < |log| :: Event(i, log[i]) in Ring(log) <==> i >= |log| - |Ring(log)|
  {
    var first := |log| - |Ring(log)|;
    forall i | first <= i < |log| ensures Event(i, log[i]) in Ring(log) {
      assert Ring(log)[i - first] == Event(i, log[i]);
    }
  }

  lemma SliceEnd<T>(s: seq<T>, lo: nat, hi: nat)
    requires lo < hi <= |s|
    ensures s[lo..hi] == s[lo..hi - 1] + [s[hi - 1]]
    ensures s[lo..hi][..hi - lo - 1] == s[lo..hi - 1] && s[lo..hi][hi - lo - 1] == s[hi - 1]
  {
  }

  lemma {:induction false} LaterIsSuffix<D>(log: seq<D>, lo: nat, hi: nat, after: int)
    requires lo <= hi <= |log|
    ensures Later(Record(log)[lo..hi], after) ==
      var start := if after + 1 < lo then lo else if after + 1 > hi then hi else after + 1; Record(log)[start..hi]
    decreases hi - lo
  {
    if lo < hi {
      var b := Record(log)[lo..hi];
      SliceEnd(Record(log), lo, hi);
      LaterIsSuffix(log, lo, hi - 1, after);
      var start := if after + 1 < lo then lo else if after + 1 > hi then hi else after + 1;
      if start < hi { SliceEnd(Record(log), start, hi); }
    }
  }

  /** Where a client that has seen everything up to `after` must continue. */
  function Resume(after: int): nat { if after < 0 then 0 else after + 1 }

  lemma EvictedExactly<D>(log: seq<D>, after: int)
    ensures Evicted(log, after) <==> Resume(after) < |log| - |Ring(log)|
  {
    hide Ring;
    RingMembers(log);
    if Resume(after) < |log| - |Ring(log)| {
      assert Event(Resume(after), log[Resume(after)]) !in Ring(log);
    }
  }

  lemma RingStart<D>(log: seq<D>)
    ensures |log| == 0 <==> |Ring(log)| == 0
    ensures |log| > 0 ==> Ring(log)[0].number == |log| - |Ring(log)|
  {
  }

  lemma RestOfRecord<D>(log: seq<D>, after: int)
    requires |log| - |Ring(log)| <= after + 1
    ensures Later(Ring(log), after) == if Resume(after) <= |log| then Record(log)[Resume(after)..] else []
  {
    hide Later;
    var first := |log| - |Ring(log)|;
    LaterIsSuffix(log, first, |log|, after);
    assert Ring(log) == Record(log)[first..|log|];
    assert forall k | 0 <= k <= |log| :: Record(log)[k..|log|] == Record(log)[k..];
  }

  /** `since` answers with the whole rest of the record, or with None. It says None exactly when
      an event the client needs has left the ring; a number below -1, which no client was ever
      given, also gets None as soon as there is any event. */
  lemma SinceIsExact<D>(log: seq<D>, after: int)
    ensures Since(Ring(log), after) == None <==> Evicted(log, after) || (after < -1 && |log| > 0)
    ensures var r := Since(Ring(log), after);
      r.Some? ==> r.value == if Resume(after) <= |log| then Record(log)[Resume(after)..] else []
  {
    hide Later, Ring, Evicted, Record;
    EvictedExactly(log, after);
    RingStart(log);
    if Since(Ring(log), after).Some? && |log| > 0 { RestOfRecord(log, after); }
  }

  /** The ring holds the last 2000 events, numbered as they were published. */
  lemma RingIs<D>(log: seq<D>)
    ensures |Ring(log)| == if |log| < 2000 then |log| else 2000
    ensures forall i | 0 <= i < |Ring(log)| :: var k := |log| - |Ring(log)| + i; Ring(log)[i] == Event(k, log[k])
  {
  }

  /** What a client that names a number gets back: nothing to start from if an event it lacks is no
      longer among the last 2000, or if the number is below -1 and there are events; otherwise
      every event above the number, in order. */
  lemma SinceIs<D>(log: seq<D>, after: int)
    ensures Since(Ring(log), after) == None <==> |log| > 0 && (after < -1 || after + 1 < |log| - 2000)
    ensures var r := Since(Ring(log), after); r.Some? ==>
      && |r.value| == (if log == [] || after + 1 >= |log| then 0 else |log| - (after + 1))
      && forall i | 0 <= i < |r.value| :: r.value[i] == Event(after + 1 + i, log[after + 1 + i])
  {
    hide Ring, Evicted, Since;
    SinceIsExact(log, after);
    EvictedExactly(log, after);
    RingIs(log);
  }

  /** An unbounded `asyncio.Queue`. */
  class EventQueue<D(==)> {
    var items: seq<Event<D>>

    constructor ()
      ensures items == []
    {
      items := [];
    }

    method Put(e: Event<D>)
      modifies this
      ensures items == old(items) + [e]
    {
      items := items + [e];
    }

    method Get() returns (e: Event<D>)
      requires items != []
      modifies this
      ensures [e] + items == old(items)
    {
      e := items[0];
      items := items[1..];
    }
  }

  class EventBus<D(==)> {
    var buffer: seq<Event<D>>
    var subscribers: set<EventQueue<D>>
    ghost var log: seq<D>

    ghost predicate Valid()
      reads this
    {
      buffer == Ring(log)
    }

    constructor ()
      ensures Valid() && log == [] && subscribers == {}
    {
      buffer, subscribers, log := [], {}, [];
    }

    /** `for queue in self._subscribers: queue.put_nowait(event)`. */
    method FanOut(e: Event<D>)
      modifies subscribers
      ensures forall q | q in subscribers :: q.items == old(q.items) + [e]
    {
      var todo := subscribers;
      while todo != {}
        invariant todo <= subscribers
        invariant forall q | q in subscribers :: q.items == old(q.items) + (if q in todo then [] else [e])
      {
        var q :| q in todo;
        q.Put(e);
        todo := todo - {q};
      }
    }

    /** Every subscriber gets exactly the published events, in order; the ring forgets from the
        front. */
    method Publish(events: seq<Event<D>>, ghost drafts: seq<D>)
      requires Valid() && events == Numbered(|log|, drafts)
      modifies this`buffer, this`log, subscribers
      ensures Valid() && log == old(log) + drafts
      ensures forall q | q in subscribers :: q.items == old(q.items) + events
    {
      for i := 0 to |events|
        invariant buffer == Ring(old(log) + drafts[..i])
        invariant log == old(log) && subscribers == old(subscribers)
        invariant forall q | q in subscribers :: q.items == old(q.items) + events[..i]
      {
        var e := events[i];
        RingAppend(log + drafts[..i], drafts[i]);
        assert log + drafts[..i + 1] == log + drafts[..i] + [drafts[i]];
        buffer := LastOf(buffer + [e], RING_SIZE);
        FanOut(e);
        assert events[..i + 1] == events[..i] + [e];
      }
      assert drafts[..|drafts|] == drafts && events[..|events|] == events;
      log := log + drafts;
    }

    /** Registered at once: everything published from here on reaches the queue. */
    method Subscribe() returns (q: EventQueue<D>)
      requires Valid()
      modifies this`subscribers
      ensures fresh(q) && q.items == [] && subscribers == old(subscribers) + {q} && Valid()
    {
      q := new EventQueue();
      subscribers := subscribers + {q};
    }

    method Unsubscribe(q: EventQueue<D>)
      requires Valid()
      modifies this`subscribers
      ensures subscribers == old(subscribers) - {q} && Valid()
    {
      subscribers := subscribers - {q};
    }

    /** `since`, with the loop of its comprehension. */
    method EventsSince(after: int) returns (r: Option<seq<Event<D>>>)
      requires Valid()
      ensures r == None <==> Evicted(log, after) || (after < -1 && |log| > 0)
      ensures r.Some? ==> r.value == if Resume(after) <= |log| then Record(log)[Resume(after)..] else []
    {
      SinceIsExact(log, after);
      if |buffer| == 0 { return Some([]); }
      var oldest: int := buffer[0].number;
      if after < oldest - 1 { return None; }
      var found: seq<Event<D>> := [];
      for i := 0 to |buffer|
        invariant found == Later(buffer[..i], after)
      {
        assert buffer[..i + 1][..i] == buffer[..i];
        if buffer[i].number > after { found := found + [buffer[i]]; }
      }
      assert buffer[..|buffer|] == buffer;
      r := Some(found);
    }
  }

  lemma RingAppend<D>(log: seq<D>, d: D)
    ensures LastOf(Ring(log) + [Event(|log|, d)], RING_SIZE) == Ring(log + [d])
  {
    RecordGrows(log, [d]);
  }
}
