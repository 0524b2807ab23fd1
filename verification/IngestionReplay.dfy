/** Replaying the dead-letter queue, and what every run of the worker and the replayer keeps. */
module IngestionReplay {
  import opened Wrappers
  import opened Ingestion
  import opened EventPayload
  import opened IngestionLedger

  /** Luck is drawn per row. */
  type Lucks = string -> Luck

  /** Queued rows replayed one after the other, and how many raised again. */
  function ReplayedInOrder(w: World, ids: seq<string>, lucks: Lucks, chunker: Chunker): (World, nat) {
    if ids == [] then (w, 0)
    else
      var (before, failed) := ReplayedInOrder(w, ids[..|ids| - 1], lucks, chunker);
      var id := ids[|ids| - 1];
      var (after, raised) := Replayed(before, id, lucks(id), chunker);
      (after, failed + if raised then 1 else 0)
  }

  lemma NothingReplayed(w: World, lucks: Lucks, chunker: Chunker)
    ensures ReplayedInOrder(w, [], lucks, chunker) == (w, 0)
  {
  }

  lemma OneMoreReplayed(w: World, ids: seq<string>, i: nat, lucks: Lucks, chunker: Chunker)
    requires i < |ids|
    ensures var before, after := ReplayedInOrder(w, ids[..i], lucks, chunker), ReplayedInOrder(w, ids[..i + 1], lucks, chunker);
            var one := Replayed(before.0, ids[i], lucks(ids[i]), chunker);
            after.0 == one.0 && after.1 == before.1 + if one.1 then 1 else 0
  {
    assert ids[..i + 1][..i] == ids[..i];
  }

  /** An honest row replays as a delivery of the event it encodes, and touches no other row. */
  lemma ReplayIsDelivery(w: World, id: string, luck: Luck, chunker: Chunker) returns (e: Event)
    requires Honest(w.ledger.queue) && id in w.ledger.queue
    ensures e.id == id && w.ledger.queue[id].payload == EncodeEvent(e) && DecodeEvent(w.ledger.queue[id].payload) == Some(e)
    ensures var (w', raised) := Handled(w, e, luck, chunker);
            Replayed(w, id, luck, chunker)
            == if raised then (w', true) else (w'.(ledger := w'.ledger.(queue := Removed(w'.ledger.queue, id))), false)
  {
    e :| e.id == id && w.ledger.queue[id].payload == EncodeEvent(e);
    EventRoundTrip(e);
  }

  lemma HandledKeepsQueue(w: World, e: Event, luck: Luck, chunker: Chunker)
    requires Honest(w.ledger.queue)
    ensures var w' := Handled(w, e, luck, chunker).0;
            && Honest(w'.ledger.queue)
            && forall id :: id != e.id ==> (id in w.ledger.queue <==> id in w'.ledger.queue)
                                           && (id in w.ledger.queue ==> w.ledger.queue[id] == w'.ledger.queue[id])
  {
  }

  lemma ReplayedKeepsQueue(w: World, id: string, luck: Luck, chunker: Chunker)
    requires Honest(w.ledger.queue)
    ensures var w' := Replayed(w, id, luck, chunker).0;
            && Honest(w'.ledger.queue)
            && forall other :: other != id ==> (other in w.ledger.queue <==> other in w'.ledger.queue)
                                               && (other in w.ledger.queue ==> w.ledger.queue[other] == w'.ledger.queue[other])
  {
    if id in w.ledger.queue {
      var e := ReplayIsDelivery(w, id, luck, chunker);
      HandledKeepsQueue(w, e, luck, chunker);
    }
  }

  class DLQReplayer {
    const ledger: SqliteEventLedger
    const worker: IngestionWorker

    constructor (worker: IngestionWorker)
      ensures this.worker == worker && this.ledger == worker.ledger
    {
      this.worker, this.ledger := worker, worker.ledger;
    }

    /** Rebuild one queued event and deliver it again. */
    method ReplayRow(id: string, payload: Json, luck: Luck) returns (raised: bool)
      requires ledger == worker.ledger && Honest(ledger.queue)
      requires id in ledger.queue && ledger.queue[id].payload == payload
      modifies worker.pipeline, worker.pipeline.index, worker.pipeline.catalog, ledger
      ensures (worker.State(), raised) == Replayed(old(worker.State()), id, luck, worker.pipeline.chunker)
    {
      ghost var e := ReplayIsDelivery(worker.State(), id, luck, worker.pipeline.chunker);
      var event := DecodeEvent(payload).value;
      raised := worker.Handle(event, luck);
      if !raised { ledger.RemoveFromQueue(event.id); }
    }

    /** Replay every row that was queued at the start, in the order it was listed. */
    method ReplayAll(lucks: Lucks) returns (replayed: nat, failed: nat, ghost order: seq<string>)
      requires ledger == worker.ledger && Honest(ledger.queue)
      modifies worker.pipeline, worker.pipeline.index, worker.pipeline.catalog, ledger
      ensures (forall id :: id in order <==> id in old(ledger.queue)) && replayed + failed == |order|
      ensures forall i, j :: 0 <= i < j < |order| ==> order[i] != order[j]
      ensures var (world, raised) := ReplayedInOrder(old(worker.State()), order, lucks, worker.pipeline.chunker);
              worker.State() == world && failed == raised
    {
      NothingReplayed(worker.State(), lucks, worker.pipeline.chunker);
      hide Replayed, ReplayedInOrder, Honest;
      var ids := ledger.Queued();
      order := ids;
      var rows := ledger.queue;
      ghost var start, chunker := worker.State(), worker.pipeline.chunker;
      replayed, failed := 0, 0;
      assert ids[..0] == [];
      for i := 0 to |ids|
        invariant replayed + failed == i && Honest(ledger.queue)
        invariant worker.State() == ReplayedInOrder(start, ids[..i], lucks, chunker).0
        invariant failed == ReplayedInOrder(start, ids[..i], lucks, chunker).1
        invariant forall j :: i <= j < |ids| ==> ids[j] in ledger.queue && ledger.queue[ids[j]] == rows[ids[j]]
      {
        OneMoreReplayed(start, ids, i, lucks, chunker);
        ReplayedKeepsQueue(worker.State(), ids[i], lucks(ids[i]), chunker);
        var raised := ReplayRow(ids[i], rows[ids[i]].payload, lucks(ids[i]));
        if raised { failed := failed + 1; } else { replayed := replayed + 1; }
      }
      assert ids[..|ids|] == ids;
    }
  }

  datatype Action =
    | Handle(event: Event, luck: Luck)
    | Replay(id: string, luck: Luck)
    | Crash(event: Event, budget: nat)
    | Restart

  /** A crash starts the delivery, leaves some of its writes and forgets what the process remembered. */
  function Step(w: World, a: Action, chunker: Chunker): World {
    match a
    case Handle(e, luck) => Handled(w, e, luck, chunker).0
    case Replay(id, luck) => Replayed(w, id, luck, chunker).0
    case Restart => w.(processed := {})
    case Crash(e, budget) =>
      if Seen(w.ledger, e.id) then w.(processed := {})
      else World(if e.id in w.processed then w.shelf else After(w.shelf, Cut(Writes(e.changes, Some(e.id), chunker), budget)),
                 Started(w.ledger, e.id), {})
  }

  function Steps(w: World, actions: seq<Action>, chunker: Chunker): World {
    if actions == [] then w else Step(Steps(w, actions[..|actions| - 1], chunker), actions[|actions| - 1], chunker)
  }

  const EMPTY := World(Shelf(map[], map[]), Ledger(map[], map[]), {})

  /** A failed event is queued, a completed one is not, and every row encodes an event of its id. */
  ghost predicate Settled(w: World) {
    && Honest(w.ledger.queue)
    && (forall id :: id in w.ledger.queue ==> !Seen(w.ledger, id))
    && (forall id :: id in w.ledger.events && w.ledger.events[id].status.Failed? ==> id in w.ledger.queue)
  }

  lemma HandledKeepsSettled(w: World, e: Event, luck: Luck, chunker: Chunker)
    requires Settled(w)
    ensures Settled(Handled(w, e, luck, chunker).0)
  {
    hide Writes, After, EncodeEvent;
    HandledKeepsQueue(w, e, luck, chunker);
  }

  lemma StepKeepsSettled(w: World, a: Action, chunker: Chunker)
    requires Settled(w)
    ensures Settled(Step(w, a, chunker))
  {
    hide Writes, After, EncodeEvent, DecodeEvent;
    match a
    case Handle(e, luck) => HandledKeepsSettled(w, e, luck, chunker);
    case Replay(id, luck) =>
      if id in w.ledger.queue {
        var e := ReplayIsDelivery(w, id, luck, chunker);
        HandledKeepsSettled(w, e, luck, chunker);
        ReplayedKeepsQueue(w, id, luck, chunker);
      }
    case Crash(e, budget) =>
    case Restart =>
  }

  lemma {:induction false} EveryRunIsSettled(w: World, actions: seq<Action>, chunker: Chunker)
    requires Settled(w)
    ensures Settled(Steps(w, actions, chunker))
  {
    if actions != [] {
      EveryRunIsSettled(w, actions[..|actions| - 1], chunker);
      StepKeepsSettled(Steps(w, actions[..|actions| - 1], chunker), actions[|actions| - 1], chunker);
    }
  }

  lemma StepKeepsCompleted(w: World, a: Action, chunker: Chunker, id: string)
    requires Settled(w) && Seen(w.ledger, id)
    ensures Seen(Step(w, a, chunker).ledger, id)
  {
    if a.Replay? && a.id in w.ledger.queue { var e := ReplayIsDelivery(w, a.id, a.luck, chunker); }
  }

  /** Once completed an event stays completed, is never queued again, and delivering it again changes nothing. */
  lemma {:induction false} CompletedIsFinal(w: World, actions: seq<Action>, chunker: Chunker, e: Event, luck: Luck)
    requires Settled(w) && Seen(w.ledger, e.id)
    ensures var w' := Steps(w, actions, chunker);
            && Seen(w'.ledger, e.id) && e.id !in w'.ledger.queue
            && Handled(w', e, luck, chunker) == (w', false) && Replayed(w', e.id, luck, chunker) == (w', false)
  {
    EveryRunIsSettled(w, actions, chunker);
    if actions != [] {
      CompletedIsFinal(w, actions[..|actions| - 1], chunker, e, luck);
      EveryRunIsSettled(w, actions[..|actions| - 1], chunker);
      StepKeepsCompleted(Steps(w, actions[..|actions| - 1], chunker), actions[|actions| - 1], chunker, e.id);
    }
  }

  lemma StepKeepsQueued(w: World, a: Action, chunker: Chunker, id: string)
    requires Settled(w) && id in w.ledger.queue
    ensures id in Step(w, a, chunker).ledger.queue || Seen(Step(w, a, chunker).ledger, id)
  {
    hide Writes, After, EncodeEvent, DecodeEvent;
    if a.Replay? && a.id in w.ledger.queue {
      var e := ReplayIsDelivery(w, a.id, a.luck, chunker);
      HandledKeepsQueue(w, e, a.luck, chunker);
    } else if a.Handle? {
      HandledKeepsQueue(w, a.event, a.luck, chunker);
    }
  }

  /** A failed event stays queued until it is completed. */
  lemma {:induction false} QueuedUntilCompleted(w: World, actions: seq<Action>, chunker: Chunker, id: string)
    requires Settled(w) && id in w.ledger.queue
    ensures var w' := Steps(w, actions, chunker); id in w'.ledger.queue || Seen(w'.ledger, id)
  {
    if actions != [] {
      var before := Steps(w, actions[..|actions| - 1], chunker);
      EveryRunIsSettled(w, actions[..|actions| - 1], chunker);
      QueuedUntilCompleted(w, actions[..|actions| - 1], chunker, id);
      if id in before.ledger.queue { StepKeepsQueued(before, actions[|actions| - 1], chunker, id); }
      else { StepKeepsCompleted(before, actions[|actions| - 1], chunker, id); }
    }
  }

  /** The event an action delivers, if any. */
  function Delivers(w: World, a: Action): Option<Event> {
    match a
    case Handle(e, _) => Some(e)
    case Crash(e, _) => Some(e)
    case Replay(id, _) => if id in w.ledger.queue then DecodeEvent(w.ledger.queue[id].payload) else None
    case Restart => None
  }

  /** The action delivers no event with this id and none on these documents. */
  ghost predicate Apart(w: World, a: Action, e: Event) {
    && (a.Replay? ==> a.id != e.id)
    && (Delivers(w, a).Some? ==>
          Delivers(w, a).value.id != e.id && Documents(Delivers(w, a).value.changes) !! Documents(e.changes))
  }

  ghost predicate AllApart(w: World, actions: seq<Action>, chunker: Chunker, e: Event) {
    forall i :: 0 <= i < |actions| ==> Apart(Steps(w, actions[..i], chunker), actions[i], e)
  }

  /** The worlds differ at most in this event and its documents. */
  ghost predicate AlikeBut(a: World, b: World, e: Event) {
    && (forall d :: d !in Documents(e.changes) ==> SameAt(a.shelf, b.shelf, d))
    && (forall id :: id != e.id ==> (id in a.processed <==> id in b.processed))
    && SameBut(a.ledger, b.ledger, e.id)
  }

  ghost predicate SameBut(a: Ledger, b: Ledger, id: string) {
    && (forall k :: k != id ==> (k in a.events <==> k in b.events) && (k in a.events ==> a.events[k] == b.events[k]))
    && (forall k :: k != id ==> (k in a.queue <==> k in b.queue) && (k in a.queue ==> a.queue[k] == b.queue[k]))
  }

  lemma LedgersStayAlike(a: World, b: World, f: Event, luck: Luck, chunker: Chunker, id: string)
    requires SameBut(a.ledger, b.ledger, id) && f.id != id && (f.id in a.processed <==> f.id in b.processed)
    ensures Handled(a, f, luck, chunker).1 == Handled(b, f, luck, chunker).1
    ensures SameBut(Handled(a, f, luck, chunker).0.ledger, Handled(b, f, luck, chunker).0.ledger, id)
  {
    var s, t := Started(a.ledger, f.id), Started(b.ledger, f.id);
    assert Seen(a.ledger, f.id) == Seen(b.ledger, f.id);
    StartedStaysAlike(a.ledger, b.ledger, f.id, id);
    CompletedStaysAlike(s, t, f.id, id);
    FailedStaysAlike(s, t, f, luck, id);
    hide Writes, After, EncodeEvent, SameBut, Started, CompletedAt, FailedAt, Seen;
  }

  lemma StartedStaysAlike(a: Ledger, b: Ledger, key: string, id: string)
    requires SameBut(a, b, id) && key != id
    ensures SameBut(Started(a, key), Started(b, key), id)
  {
  }

  lemma CompletedStaysAlike(a: Ledger, b: Ledger, key: string, id: string)
    requires SameBut(a, b, id) && key != id
    ensures SameBut(CompletedAt(a, key), CompletedAt(b, key), id)
  {
  }

  lemma FailedStaysAlike(a: Ledger, b: Ledger, f: Event, luck: Luck, id: string)
    requires SameBut(a, b, id) && f.id != id
    ensures SameBut(FailedAt(a, f, luck.error, luck.now), FailedAt(b, f, luck.error, luck.now), id)
  {
    hide EncodeEvent;
  }

  lemma ShelvesStayAlike(a: World, b: World, f: Event, luck: Luck, chunker: Chunker, e: Event)
    requires AlikeBut(a, b, e) && f.id != e.id && Documents(f.changes) !! Documents(e.changes)
    ensures forall d :: d !in Documents(e.changes) ==>
              SameAt(Handled(a, f, luck, chunker).0.shelf, Handled(b, f, luck, chunker).0.shelf, d)
    ensures forall id :: id != e.id ==>
              (id in Handled(a, f, luck, chunker).0.processed <==> id in Handled(b, f, luck, chunker).0.processed)
  {
    WritesStayAlike(a.shelf, b.shelf, f, luck.budget, chunker, e);
    hide Writes, After, SameAt, EncodeEvent, Documents;
  }

  lemma DeliveryStaysAlike(a: World, b: World, f: Event, luck: Luck, chunker: Chunker, e: Event)
    requires AlikeBut(a, b, e) && f.id != e.id && Documents(f.changes) !! Documents(e.changes)
    ensures Handled(a, f, luck, chunker).1 == Handled(b, f, luck, chunker).1
    ensures AlikeBut(Handled(a, f, luck, chunker).0, Handled(b, f, luck, chunker).0, e)
  {
    LedgersStayAlike(a, b, f, luck, chunker, e.id);
    ShelvesStayAlike(a, b, f, luck, chunker, e);
    hide Handled, SameBut, SameAt, Documents;
  }

  lemma DeliveryLeavesAlone(a: World, f: Event, luck: Luck, chunker: Chunker, e: Event)
    requires Documents(f.changes) !! Documents(e.changes)
    ensures forall d :: d in Documents(e.changes) ==> SameAt(a.shelf, Handled(a, f, luck, chunker).0.shelf, d)
  {
    WritesStayAlike(a.shelf, a.shelf, f, luck.budget, chunker, e);
  }

  lemma WritesStayAlike(s: Shelf, t: Shelf, f: Event, budget: nat, chunker: Chunker, e: Event)
    requires (forall d :: d !in Documents(e.changes) ==> SameAt(s, t, d)) && Documents(f.changes) !! Documents(e.changes)
    ensures var ws := Cut(Writes(f.changes, Some(f.id), chunker), budget);
            && (forall d :: d !in Documents(e.changes) ==> SameAt(After(s, ws), After(t, ws), d))
            && (forall d :: d in Documents(e.changes) ==> SameAt(s, After(s, ws), d))
  {
    var ws := Cut(Writes(f.changes, Some(f.id), chunker), budget);
    WritesAreOnDocuments(f.changes, Some(f.id), chunker);
    forall d | d !in Documents(e.changes) ensures SameAt(After(s, ws), After(t, ws), d) { AfterKeepsSame(s, t, ws, d); }
    forall d | d in Documents(e.changes) ensures SameAt(s, After(s, ws), d) { AfterLeavesAlone(s, ws, d); }
  }

  lemma ReplayStaysAlike(a: World, b: World, id: string, luck: Luck, chunker: Chunker, e: Event)
    requires Honest(a.ledger.queue) && Honest(b.ledger.queue) && AlikeBut(a, b, e) && Apart(a, Replay(id, luck), e)
    ensures AlikeBut(Replayed(a, id, luck, chunker).0, Replayed(b, id, luck, chunker).0, e)
  {
    if id in a.ledger.queue {
      var f := ReplayIsDelivery(a, id, luck, chunker);
      var g := ReplayIsDelivery(b, id, luck, chunker);
      assert f == g;
      DeliveryStaysAlike(a, b, f, luck, chunker, e);
    }
  }

  lemma CrashStaysAlike(a: World, b: World, f: Event, budget: nat, chunker: Chunker, e: Event)
    requires AlikeBut(a, b, e) && f.id != e.id && Documents(f.changes) !! Documents(e.changes)
    ensures AlikeBut(Step(a, Crash(f, budget), chunker), Step(b, Crash(f, budget), chunker), e)
  {
    WritesStayAlike(a.shelf, b.shelf, f, budget, chunker, e);
  }

  lemma StepStaysAlike(a: World, b: World, action: Action, chunker: Chunker, e: Event)
    requires Honest(a.ledger.queue) && Honest(b.ledger.queue) && AlikeBut(a, b, e) && Apart(a, action, e)
    ensures AlikeBut(Step(a, action, chunker), Step(b, action, chunker), e)
  {
    match action
    case Handle(f, luck) => DeliveryStaysAlike(a, b, f, luck, chunker, e);
    case Replay(id, luck) => ReplayStaysAlike(a, b, id, luck, chunker, e);
    case Crash(f, budget) => CrashStaysAlike(a, b, f, budget, chunker, e);
    case Restart =>
  }

  lemma ApartCarriesOver(a: World, b: World, action: Action, e: Event)
    requires AlikeBut(a, b, e) && Apart(a, action, e)
    ensures Apart(b, action, e)
  {
  }

  lemma StepLeavesAlone(w: World, action: Action, chunker: Chunker, e: Event)
    requires Honest(w.ledger.queue) && Apart(w, action, e)
    ensures forall d :: d in Documents(e.changes) ==> SameAt(w.shelf, Step(w, action, chunker).shelf, d)
  {
    match action
    case Handle(f, luck) => DeliveryLeavesAlone(w, f, luck, chunker, e);
    case Replay(id, luck) =>
      if id in w.ledger.queue {
        var f := ReplayIsDelivery(w, id, luck, chunker);
        DeliveryLeavesAlone(w, f, luck, chunker, e);
      }
    case Crash(f, budget) => WritesStayAlike(w.shelf, w.shelf, f, budget, chunker, e);
    case Restart =>
  }

  lemma {:induction false} StepsStayAlike(a: World, b: World, actions: seq<Action>, chunker: Chunker, e: Event)
    requires Settled(a) && Settled(b) && AlikeBut(a, b, e) && AllApart(a, actions, chunker, e)
    ensures AlikeBut(Steps(a, actions, chunker), Steps(b, actions, chunker), e)
    ensures forall d :: d in Documents(e.changes) ==> SameAt(b.shelf, Steps(b, actions, chunker).shelf, d)
  {
    if actions != [] {
      var n := |actions| - 1;
      assert forall i :: 0 <= i < n ==> actions[..n][..i] == actions[..i];
      StepsStayAlike(a, b, actions[..n], chunker, e);
      EveryRunIsSettled(a, actions[..n], chunker);
      EveryRunIsSettled(b, actions[..n], chunker);
      var a', b' := Steps(a, actions[..n], chunker), Steps(b, actions[..n], chunker);
      StepStaysAlike(a', b', actions[n], chunker, e);
      ApartCarriesOver(a', b', actions[n], e);
      StepLeavesAlone(b', actions[n], chunker, e);
    }
  }

  lemma FailureStaysAlike(w: World, e: Event, failure: Luck, success: Luck, chunker: Chunker)
    requires Settled(w) && !Seen(w.ledger, e.id) && e.id !in w.processed
    ensures AlikeBut(Handled(w, e, failure, chunker).0, Handled(w, e, success, chunker).0, e)
  {
    var ws := Writes(e.changes, Some(e.id), chunker);
    WritesAreOnDocuments(e.changes, Some(e.id), chunker);
    forall d | d !in Documents(e.changes)
      ensures SameAt(After(w.shelf, Cut(ws, failure.budget)), After(w.shelf, Cut(ws, success.budget)), d)
    {
      AfterLeavesAlone(w.shelf, Cut(ws, failure.budget), d);
      AfterLeavesAlone(w.shelf, Cut(ws, success.budget), d);
    }
  }

  lemma {:induction false} UnprocessedStays(w: World, actions: seq<Action>, chunker: Chunker, e: Event)
    requires Settled(w) && AllApart(w, actions, chunker, e) && e.id !in w.processed && e.id in w.ledger.queue
    ensures var w' := Steps(w, actions, chunker);
            e.id !in w'.processed && e.id in w'.ledger.queue && w'.ledger.queue[e.id] == w.ledger.queue[e.id]
  {
    if actions != [] {
      var n := |actions| - 1;
      assert forall i :: 0 <= i < n ==> actions[..n][..i] == actions[..i];
      UnprocessedStays(w, actions[..n], chunker, e);
      EveryRunIsSettled(w, actions[..n], chunker);
      ApartKeepsRow(Steps(w, actions[..n], chunker), actions[n], chunker, e);
    }
  }

  lemma ApartKeepsRow(w: World, a: Action, chunker: Chunker, e: Event)
    requires Settled(w) && Apart(w, a, e) && e.id !in w.processed && e.id in w.ledger.queue
    ensures var w' := Step(w, a, chunker);
            e.id !in w'.processed && e.id in w'.ledger.queue && w'.ledger.queue[e.id] == w.ledger.queue[e.id]
  {
    hide Writes, After, EncodeEvent, DecodeEvent, Documents;
    if a.Replay? && a.id in w.ledger.queue {
      var f := ReplayIsDelivery(w, a.id, a.luck, chunker);
      HandledKeepsQueue(w, f, a.luck, chunker);
    } else if a.Handle? {
      HandledKeepsQueue(w, a.event, a.luck, chunker);
    }
  }

  /** An event that fails after any of its writes and is replayed after unrelated work leaves what success would have left. */
  lemma ReplayEqualsUninterrupted(w: World, e: Event, failure: Luck, success: Luck, between: seq<Action>, again: Luck, chunker: Chunker)
    requires Settled(w) && !Seen(w.ledger, e.id) && e.id !in w.processed
    requires Handled(w, e, failure, chunker).1 && !Handled(w, e, success, chunker).1
    requires AllApart(Handled(w, e, failure, chunker).0, between, chunker, e)
    requires again.budget >= |Writes(e.changes, Some(e.id), chunker)|
    ensures var delayed := Steps(Handled(w, e, failure, chunker).0, between, chunker);
            var (replayed, raised) := Replayed(delayed, e.id, again, chunker);
            && !raised && Seen(replayed.ledger, e.id) && e.id !in replayed.ledger.queue
            && replayed.shelf == Steps(Handled(w, e, success, chunker).0, between, chunker).shelf
  {
    var failed, succeeded := Handled(w, e, failure, chunker).0, Handled(w, e, success, chunker).0;
    HandledKeepsSettled(w, e, failure, chunker);
    HandledKeepsSettled(w, e, success, chunker);
    FailureStaysAlike(w, e, failure, success, chunker);
    StepsStayAlike(failed, succeeded, between, chunker, e);
    UnprocessedStays(failed, between, chunker, e);
    EveryRunIsSettled(failed, between, chunker);
    EventRoundTrip(e);
    var delayed, direct := Steps(failed, between, chunker), Steps(succeeded, between, chunker);
    var replayed := Replayed(delayed, e.id, again, chunker).0;
    assert replayed.shelf == Applied(delayed.shelf, e.changes, Some(e.id), chunker);
    forall d ensures SameAt(replayed.shelf, direct.shelf, d) {
      if d in Documents(e.changes) {
        AppliedDecides(delayed.shelf, w.shelf, e.changes, Some(e.id), chunker, d);
        assert SameAt(succeeded.shelf, direct.shelf, d);
      } else {
        WritesAreOnDocuments(e.changes, Some(e.id), chunker);
        AfterLeavesAlone(delayed.shelf, Writes(e.changes, Some(e.id), chunker), d);
        assert SameAt(delayed.shelf, direct.shelf, d);
      }
    }
    SameEverywhere(replayed.shelf, direct.shelf);
  }
}
