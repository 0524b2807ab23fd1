/** What every run of the Company Brain store keeps: the audit trail and the record lifecycle. */
module StoreHistory {
  import opened Wrappers
  import opened BrainTypes
  import opened BrainStore

  const EMPTY := Tables(map[], [])

  /** The tables after a run of requests; a raising request is rolled back. */
  function Execute(t: Tables, run: seq<Request>): Tables {
    if run == [] then t
    else
      var before := Execute(t, run[..|run| - 1]);
      match Write(before, run[|run| - 1])
      case Ok(after) => after
      case Err(_) => before
  }

  function EventsOf(audit: seq<AuditEvent>, k: RecordKey): seq<AuditEvent> {
    if audit == [] then []
    else
      var n := |audit| - 1;
      EventsOf(audit[..n], k) + if audit[n].record == k then [audit[n]] else []
  }

  lemma EventsOfAppend(audit: seq<AuditEvent>, e: AuditEvent, k: RecordKey)
    ensures EventsOf(audit + [e], k) == EventsOf(audit, k) + if e.record == k then [e] else []
  {
    assert (audit + [e])[..|audit|] == audit;
  }

  /** The trail of one record: versions 1..v without a gap, created first, tombstoned last or never. */
  ghost predicate Audited(t: Tables, k: RecordKey) {
    var events := EventsOf(t.audit, k);
    if k !in t.rows then events == []
    else
      && |events| == t.rows[k].version
      && 1 <= t.rows[k].version
      && (t.rows[k].deletion.Some? ==> 2 <= t.rows[k].version)
      && forall i :: 0 <= i < |events| ==>
           && events[i].version == i + 1
           && (events[i].operation == Created <==> i == 0)
           && (events[i].operation == Tombstoned <==> i == |events| - 1 && t.rows[k].deletion.Some?)
  }

  ghost predicate Sound(t: Tables) {
    forall k :: Audited(t, k)
  }

  /** How one row may change: versions grow, tombstones and holds are final, retention never shortens. */
  predicate RowEvolves(a: Row, b: Row) {
    && a.version <= b.version
    && (a.version == b.version ==> a == b)
    && (a.deletion.Some? ==> a == b)
    && (a.deletion.None? && a.retention.legalHold ==> b.deletion.None? && b.retention.legalHold)
    && (a.retention.retainUntil.Some? ==>
          b.retention.retainUntil.Some? && a.retention.retainUntil.value <= b.retention.retainUntil.value)
  }

  ghost predicate Evolves(t: Tables, t': Tables) {
    && t.audit <= t'.audit
    && forall k :: k in t.rows ==> k in t'.rows && RowEvolves(t.rows[k], t'.rows[k])
  }

  lemma PutRowStep(t: Tables, k: RecordKey, value: Value, p: Provenance, retention: Retention, expected: Option<nat>)
    requires PutRow(t, k, value, p, retention, expected).Ok?
    ensures var t' := PutRow(t, k, value, p, retention, expected).value;
            Evolves(t, t') && (Sound(t) ==> Sound(t'))
  {
    var t' := PutRow(t, k, value, p, retention, expected).value;
    forall j | Sound(t) ensures Audited(t', j) {
      assert Audited(t, j);
      EventsOfAppend(t.audit, t'.audit[|t.audit|], j);
    }
  }

  lemma TombstoneStep(t: Tables, k: RecordKey, reason: string)
    requires Active(t, k) && !t.rows[k].retention.legalHold
    ensures var t' := Tombstone(t, k, reason); Evolves(t, t') && (Sound(t) ==> Sound(t'))
  {
    var t' := Tombstone(t, k, reason);
    forall j | Sound(t) ensures Audited(t', j) {
      assert Audited(t, j);
      EventsOfAppend(t.audit, t'.audit[|t.audit|], j);
    }
  }

  lemma WriteStep(t: Tables, r: Request)
    requires Write(t, r).Ok?
    ensures Evolves(t, Write(t, r).value)
    ensures Sound(t) ==> Sound(Write(t, r).value)
  {
    match r
    case PutEntity(id, fact, p, retention, expected) =>
      PutRowStep(t, EntityRecord(id), EntityValue(fact), p, retention, expected);
    case PutEvidence(id, pointer, p, retention, expected) =>
      PutRowStep(t, EvidenceRecord(id), PointerValue(pointer), p, retention, expected);
      var t' := PutRow(t, EvidenceRecord(id), PointerValue(pointer), p, retention, expected).value;
      PutRowStep(t', EntityRecord(id), EntityValue(StructuralFact(pointer)), p, retention,
                 VersionOf(t', EntityRecord(id)));
    case PutEdge(edge, evidence, p, retention, expected) =>
      PutRowStep(t, EdgeRecord(edge), EdgeValue(evidence), p, retention, expected);
    case DeleteEntity(id, _, reason) =>
      TombstoneStep(t, EntityRecord(id), reason);
    case DeleteEvidence(id, _, reason) =>
      TombstoneStep(t, EvidenceRecord(id), reason);
      TombstoneStep(Tombstone(t, EvidenceRecord(id), reason), EntityRecord(id), reason);
    case DeleteEdge(edge, _, reason) =>
      TombstoneStep(t, EdgeRecord(edge), reason);
  }

  /** Over every run, every record's audit trail is complete and in order. */
  lemma {:induction false} EveryRunIsAudited(run: seq<Request>)
    ensures Sound(Execute(EMPTY, run))
  {
    if run != [] {
      EveryRunIsAudited(run[..|run| - 1]);
      var before := Execute(EMPTY, run[..|run| - 1]);
      if Write(before, run[|run| - 1]).Ok? { WriteStep(before, run[|run| - 1]); }
    }
  }

  /** Between any two points of any run every record only evolves: no tombstone is revived, no hold
      lifted, no retention shortened, no audit event lost. */
  lemma {:induction false} EveryRunEvolves(t: Tables, run: seq<Request>, n: nat)
    requires n <= |run|
    ensures Evolves(Execute(t, run[..n]), Execute(t, run))
    decreases |run|
  {
    if n == |run| {
      assert run[..n] == run;
    } else {
      var shorter := run[..|run| - 1];
      assert shorter[..n] == run[..n];
      EveryRunEvolves(t, shorter, n);
      var before := Execute(t, shorter);
      if Write(before, run[|run| - 1]).Ok? { WriteStep(before, run[|run| - 1]); }
    }
  }

  /** The record and version a conditional request names. */
  function Condition(r: Request): Option<(RecordKey, nat)> {
    match r
    case PutEntity(id, _, _, _, v) => if v.Some? then Some((EntityRecord(id), v.value)) else None
    case PutEvidence(id, _, _, _, v) => if v.Some? then Some((EvidenceRecord(id), v.value)) else None
    case PutEdge(edge, _, _, _, v) => if v.Some? then Some((EdgeRecord(edge), v.value)) else None
    case DeleteEntity(id, v, _) => Some((EntityRecord(id), v))
    case DeleteEvidence(id, v, _) => Some((EvidenceRecord(id), v))
    case DeleteEdge(edge, v, _) => Some((EdgeRecord(edge), v))
  }

  /** Compare-and-swap: of two writes conditioned on one version of one record, whatever runs in
      between, at most one succeeds. */
  lemma OneConditionalWriteWins(t: Tables, first: Request, between: seq<Request>, second: Request)
    requires Condition(first).Some? && Condition(first) == Condition(second)
    requires Write(t, first).Ok?
    ensures Write(Execute(Write(t, first).value, between), second).Err?
  {
    var t1 := Write(t, first).value;
    var k := Condition(first).value.0;
    assert k in t1.rows && t1.rows[k].version == Condition(first).value.1 + 1;
    EveryRunEvolves(t1, between, 0);
    assert Execute(t1, between[..0]) == t1;
  }
}
