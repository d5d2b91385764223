/** The writer object of persistence/writer.py: each stretch of its drain task, over the queue it
    subscribed with, is proved to be one step of `WriterProtocol`. */
module WriterObject {
  import opened Wrappers
  import opened World
  import opened Events
  import opened WriterProtocol

  class PostgresWriter {
    const queue: EventQueue<Draft>
    var phase: Phase
    var table: map<nat, Published>
    ghost var batches: seq<Batch>

    ghost function Model(): Writer
      reads this, queue
    {
      Writer(queue.items, phase, batches, table)
    }

    /** `start`: the queue is the one just subscribed; no event has been published yet. */
    constructor (queue: EventQueue<Draft>)
      ensures this.queue == queue
      ensures Model() == Writer(queue.items, Waiting(None, false), [], map[])
    {
      this.queue := queue;
      phase, table, batches := Waiting(None, false), map[], [];
    }

    method GotEvent()
      requires phase.Waiting? && phase.got.None? && queue.items != []
      modifies this, queue
      ensures forall terminal, last :: Some(Model()) == Step(old(Model()), terminal, last, GetCompletes)
    {
      var e := queue.Get();
      phase := Waiting(Some(e), phase.term);
    }

    /** The non-blocking loop of `_drain_loop`: at most the cap, at most what is there. */
    method Collect(first: Option<Published>) returns (batch: seq<Published>)
      modifies queue
      ensures var n := Take(old(queue.items), DRAIN_BATCH_CAP - |Held(first)|);
        batch == Held(first) + old(queue.items)[..n] && queue.items == old(queue.items)[n..]
    {
      batch := Held(first);
      ghost var n: nat := 0;
      while |batch| < DRAIN_BATCH_CAP
        invariant n <= |old(queue.items)| && |batch| == |Held(first)| + n <= DRAIN_BATCH_CAP
        invariant batch == Held(first) + old(queue.items)[..n] && queue.items == old(queue.items)[n..]
      {
        if queue.items == [] { break; }
        var e := queue.Get();
        batch := batch + [e];
        n := n + 1;
      }
    }

    /** From the return of `asyncio.wait` on the cancelled task to the insert, or to the end of
        an iteration that found nothing. */
    method DrainQueue(last: int)
      requires phase.Cancelling?
      modifies this, queue
      ensures forall terminal :: Some(Model()) == Step(old(Model()), terminal, last, Drain)
    {
      var term := phase.term;
      var batch := Collect(phase.got);
      if batch != [] {
        phase := Writing(batch, term);
      } else {
        EndIteration(term, last);
      }
    }

    method EndIteration(term: bool, last: int)
      modifies this
      ensures Model() == NextIteration(old(Model()), term, last)
    {
      if term && queue.items == [] {
        phase := Finalizing(last);
      } else {
        phase := Waiting(None, false);
      }
    }

    /** `executemany` of the insert statement, inside one transaction. */
    method InsertRows(rows: seq<Published>) returns (t: map<nat, Published>)
      ensures t == Insert(table, rows)
    {
      t := table;
      for i := 0 to |rows|
        invariant t == Insert(table, rows[..i])
      {
        assert rows[..i + 1][..i] == rows[..i];
        if rows[i].number !in t { t := t[rows[i].number := rows[i]]; }
      }
      assert rows[..|rows|] == rows;
    }

    /** The insert is over: committed, or failed, logged and skipped. */
    method WroteBatch(ok: bool, last: int)
      requires phase.Writing?
      modifies this
      ensures forall terminal :: Some(Model()) == Step(old(Model()), terminal, last, WriteEnds(ok))
    {
      if ok {
        var t := InsertRows(phase.batch);
        table := t;
      }
      batches := batches + [Batch(phase.batch, ok)];
      EndIteration(phase.term, last);
    }

    /** `_finalize` with its query and the final update, which may fail. */
    method Finalize(updated: bool)
      requires phase.Finalizing?
      modifies this
      ensures forall terminal, last :: Some(Model()) == Step(old(Model()), terminal, last, FinalizeEnds(updated))
    {
      if updated {
        var row := QueryRow(table);
        phase := Done(Some(row.count == phase.last + 1 && row.low == Some(0) && row.high.Some? && row.high.value == phase.last));
      } else {
        phase := Done(None);
      }
    }
  }

  /** `SELECT count(*), min(seq), max(seq)`. */
  method QueryRow(table: map<nat, Published>) returns (row: Row)
    ensures row == Query(table.Keys)
  {
    var todo := table.Keys;
    row := Row(0, None, None);
    while todo != {}
      invariant todo <= table.Keys
      invariant row == Query(table.Keys - todo)
    {
      var k :| k in todo;
      ghost var seen := table.Keys - todo;
      row := Row(row.count + 1,
                 Some(if row.low.Some? && row.low.value < k then row.low.value else k),
                 Some(if row.high.Some? && row.high.value > k then row.high.value else k));
      todo := todo - {k};
      assert table.Keys - todo == seen + {k};
      assert |seen + {k}| == |seen| + 1;
    }
    assert table.Keys - todo == table.Keys;
  }
}
