/** The idempotency ledger with its dead-letter queue, the worker that drives it and the replayer. */
module IngestionLedger {
  import opened Wrappers
  import opened Ingestion
  import opened EventPayload

  datatype Status = Processing | Completed | Failed

  datatype EventRow = EventRow(status: Status, attempts: nat, lastError: Option<string>)

  datatype QueueRow = QueueRow(payload: Json, error: string, createdAt: int)

  datatype Ledger = Ledger(events: map<string, EventRow>, queue: map<string, QueueRow>)

  /** The documents, the ledger and the events the running process remembers. */
  datatype World = World(shelf: Shelf, ledger: Ledger, processed: set<string>)

  function Removed<V>(m: map<string, V>, id: string): map<string, V> {
    map k | k in m && k != id :: m[k]
  }

  predicate Seen(l: Ledger, id: string) {
    id in l.events && l.events[id].status.Completed?
  }

  function Started(l: Ledger, id: string): Ledger {
    l.(events := l.events[id := if id in l.events then l.events[id].(status := Processing, attempts := l.events[id].attempts + 1)
                                else EventRow(Processing, 1, None)])
  }

  function CompletedAt(l: Ledger, id: string): Ledger {
    Ledger(if id in l.events then l.events[id := l.events[id].(status := Completed, lastError := None)] else l.events,
           Removed(l.queue, id))
  }

  function FailedAt(l: Ledger, e: Event, error: string, now: int): Ledger {
    Ledger(if e.id in l.events then l.events[e.id := l.events[e.id].(status := Failed, lastError := Some(error))] else l.events,
           l.queue[e.id := QueueRow(EncodeEvent(e), error, now)])
  }

  function Cut(ws: seq<Write>, budget: nat): seq<Write> {
    if budget < |ws| then ws[..budget] else ws
  }

  /** How a delivery goes: `budget` writes succeed, and a failure carries this error and time. */
  datatype Luck = Luck(budget: nat, error: string, now: int)

  /** One delivery of an event to the worker, and whether it raised. */
  function Handled(w: World, e: Event, luck: Luck, chunker: Chunker): (World, bool) {
    if Seen(w.ledger, e.id) then (w, false)
    else
      var ledger := Started(w.ledger, e.id);
      if e.id in w.processed then (World(w.shelf, CompletedAt(ledger, e.id), w.processed), false)
      else
        var ws := Writes(e.changes, Some(e.id), chunker);
        var shelf := After(w.shelf, Cut(ws, luck.budget));
        if luck.budget < |ws| then (World(shelf, FailedAt(ledger, e, luck.error, luck.now), w.processed), true)
        else (World(shelf, CompletedAt(ledger, e.id), w.processed + {e.id}), false)
  }

  /** Replay one queued row; it leaves the queue unless the worker raised again. */
  function Replayed(w: World, id: string, luck: Luck, chunker: Chunker): (World, bool) {
    if id !in w.ledger.queue then (w, false)
    else
      match DecodeEvent(w.ledger.queue[id].payload)
      case None => (w, true)
      case Some(e) =>
        var (w', raised) := Handled(w, e, luck, chunker);
        if raised then (w', true) else (w'.(ledger := w'.ledger.(queue := Removed(w'.ledger.queue, e.id))), false)
  }

  /** What the queue holds was put there by a failure: each row encodes an event of its own id. */
  ghost predicate Honest(queue: map<string, QueueRow>) {
    forall id :: id in queue ==> exists e: Event :: e.id == id && queue[id].payload == EncodeEvent(e)
  }

  class SqliteEventLedger {
    var events: map<string, EventRow>
    var queue: map<string, QueueRow>

    ghost function State(): Ledger
      reads this
    {
      Ledger(events, queue)
    }

    constructor ()
      ensures State() == Ledger(map[], map[])
    {
      events, queue := map[], map[];
    }

    predicate HasSeen(id: string)
      reads this
    {
      id in events && events[id].status.Completed?
    }

    method Start(id: string)
      modifies this
      ensures State() == Started(old(State()), id)
    {
      if id in events {
        events := events[id := events[id].(status := Processing, attempts := events[id].attempts + 1)];
      } else {
        events := events[id := EventRow(Processing, 1, None)];
      }
    }

    method Complete(id: string)
      modifies this
      ensures State() == CompletedAt(old(State()), id)
    {
      if id in events { events := events[id := events[id].(status := Completed, lastError := None)]; }
      queue := Removed(queue, id);
    }

    method Fail(e: Event, error: string, now: int)
      modifies this
      ensures State() == FailedAt(old(State()), e, error, now)
    {
      if e.id in events { events := events[e.id := events[e.id].(status := Failed, lastError := Some(error))]; }
      queue := queue[e.id := QueueRow(EncodeEvent(e), error, now)];
    }

    method RemoveFromQueue(id: string)
      modifies this
      ensures State() == old(State()).(queue := Removed(old(queue), id))
    {
      queue := Removed(queue, id);
    }

    /** The queued ids, each once. */
    method Queued() returns (ids: seq<string>)
      ensures (forall id :: id in ids <==> id in queue) && forall i, j :: 0 <= i < j < |ids| ==> ids[i] != ids[j]
    {
      ids := [];
      var todo := queue.Keys;
      while todo != {}
        invariant todo <= queue.Keys && (forall id :: id in ids <==> id in queue.Keys && id !in todo)
        invariant forall i, j :: 0 <= i < j < |ids| ==> ids[i] != ids[j]
        decreases |todo|
      {
        var id :| id in todo;
        assert forall x :: x in ids + [id] <==> x in ids || x == id;
        ids, todo := ids + [id], todo - {id};
      }
    }
  }

  class IngestionWorker {
    const pipeline: IngestionPipeline
    const ledger: SqliteEventLedger

    constructor (pipeline: IngestionPipeline, ledger: SqliteEventLedger)
      ensures this.pipeline == pipeline && this.ledger == ledger
    {
      this.pipeline, this.ledger := pipeline, ledger;
    }

    ghost function State(): World
      reads pipeline, pipeline.index, pipeline.catalog, ledger
    {
      World(pipeline.Shelved(), ledger.State(), pipeline.processed)
    }

    /** Deliver an event once; a raised error queues it and is raised again. */
    method Handle(e: Event, luck: Luck) returns (raised: bool)
      modifies pipeline, pipeline.index, pipeline.catalog, ledger
      ensures (State(), raised) == Handled(old(State()), e, luck, pipeline.chunker)
    {
      if ledger.HasSeen(e.id) { return false; }
      ledger.Start(e.id);
      var counts, duplicate := pipeline.Process(e, luck.budget);
      if counts.None? {
        ledger.Fail(e, luck.error, luck.now);
        return true;
      }
      ledger.Complete(e.id);
      raised := false;
    }
  }
}
