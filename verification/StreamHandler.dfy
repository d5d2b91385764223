/** The handler of api/ws.py as it runs: one method per stretch between two suspension points,
    over the program's bus and queue objects, each proved to be one step of `Stream`. */
module StreamHandler {
  import opened Wrappers
  import opened Events
  import opened Stream

  class ExperimentStream<D(==)> {
    const bus: EventBus<D>
    const queue: EventQueue<D>
    var phase: Phase<D>
    var lastSent: int
    var sent: seq<Event<D>>
    ghost var base: int
    ghost var known: nat

    ghost predicate Valid()
      reads this, bus
    {
      bus.Valid() && queue in bus.subscribers && !phase.Absent? && !phase.Gone?
    }

    ghost function Model(): State<D>
      reads this, bus, queue
    {
      State(bus.log, phase, queue.items, lastSent, sent, base, known)
    }

    /** Subscribe first, then read the backlog, then the snapshot's `last_seq`. */
    constructor (bus: EventBus<D>, lastSeq: int, since: Option<int>)
      requires bus.Valid() && lastSeq == |bus.log| - 1
      modifies bus`subscribers
      ensures this.bus == bus && Valid() && fresh(queue) && bus.subscribers == old(bus.subscribers) + {queue}
      ensures Model() == Joined(bus.log, since)
    {
      this.bus := bus;
      var q := bus.Subscribe();
      queue := q;
      var backlog := None;
      if since.Some? {
        backlog := bus.EventsSince(since.value);
        SinceIsExact(bus.log, since.value);
      }
      sent, known := [], |bus.log|;
      if backlog.None? {
        phase, lastSent, base := Snapshotting, lastSeq, lastSeq;
      } else {
        phase, lastSent, base := Serving(backlog.value), since.value, since.value;
      }
    }

    method SnapshotSent()
      requires Valid() && phase.Snapshotting?
      modifies this
      ensures Valid() && Some(Model()) == Step(old(Model()), SendSnapshot)
    {
      phase := Serving([]);
    }

    /** `await send_text(...); last_sent_seq = event.seq` for one backlog event. */
    method BacklogSent()
      requires Valid() && phase.Serving? && |phase.rest| > 0
      modifies this
      ensures Valid() && Some(Model()) == Step(old(Model()), SendBacklog)
    {
      var e := phase.rest[0];
      sent := sent + [e];
      lastSent := e.number;
      phase := Serving(phase.rest[1..]);
    }

    /** `event = await queue.get()` and the de-duplicating test. */
    method TakeNext()
      requires Valid() && phase == Serving([]) && queue.items != []
      modifies this, queue
      ensures Valid() && Some(Model()) == Step(old(Model()), Take)
    {
      var e := queue.Get();
      if e.number <= lastSent { return; }
      phase := Holding(e);
    }

    method HeldSent()
      requires Valid() && phase.Holding?
      modifies this
      ensures Valid() && Some(Model()) == Step(old(Model()), SendHeld)
    {
      sent := sent + [phase.event];
      lastSent := phase.event.number;
      phase := Serving([]);
    }

    /** A publish by anybody else reaches this handler as the Publish step. */
    method Published(events: seq<Event<D>>, ghost drafts: seq<D>)
      requires Valid() && events == Numbered(|bus.log|, drafts)
      modifies bus, bus.subscribers
      ensures Valid() && Some(Model()) == Step(old(Model()), Publish(drafts))
    {
      bus.Publish(events, drafts);
    }

    /** `finally: runner.bus.unsubscribe(queue)` after a send failed. */
    method Closed()
      requires Valid() && (phase.Snapshotting? || phase.Holding? || (phase.Serving? && |phase.rest| > 0))
      modifies this, bus
      ensures Some(Model()) == Step(old(Model()), Disconnect)
      ensures queue !in bus.subscribers && bus.subscribers == old(bus.subscribers) - {queue}
    {
      bus.Unsubscribe(queue);
      phase := Gone;
    }
  }
}
