/** The durable Company Brain store: versioned, tombstoned, audited records of one tenant. */
module BrainStore {
  import opened Wrappers
  import opened BrainTypes

  /** The three tables have the same lifecycle columns; a key says which table it is in. */
  datatype RecordKey =
    | EntityRecord(id: EntityId)
    | EvidenceRecord(id: EntityId)
    | EdgeRecord(edge: EdgeKey)

  datatype Value =
    | EntityValue(fact: EntityFact)
    | PointerValue(pointer: Pointer)
    | EdgeValue(evidence: set<EntityId>)

  datatype Retention = Retention(retainUntil: Option<int>, legalHold: bool)

  const DEFAULT_RETENTION := Retention(None, false)

  datatype Row = Row(
    value: Value, version: nat, provenance: Provenance, retention: Retention, deletion: Option<string>)

  datatype Operation = Created | Updated | Tombstoned

  datatype AuditEvent = AuditEvent(
    record: RecordKey, operation: Operation, version: nat, provenance: Provenance, reason: Option<string>)

  datatype Tables = Tables(rows: map<RecordKey, Row>, audit: seq<AuditEvent>)

  datatype StoreError = VersionConflict | RetentionConflict | Rejected

  datatype Request =
    | PutEntity(id: EntityId, fact: EntityFact, provenance: Provenance, retention: Retention, ifVersion: Option<nat>)
    | PutEvidence(id: EntityId, pointer: Pointer, provenance: Provenance, retention: Retention, ifVersion: Option<nat>)
    | PutEdge(edge: EdgeKey, evidence: set<EntityId>, provenance: Provenance, retention: Retention, ifVersion: Option<nat>)
    | DeleteEntity(id: EntityId, version: nat, reason: string)
    | DeleteEvidence(id: EntityId, version: nat, reason: string)
    | DeleteEdge(edge: EdgeKey, version: nat, reason: string)

  predicate Active(t: Tables, k: RecordKey) {
    k in t.rows && t.rows[k].deletion.None?
  }

  function VersionOf(t: Tables, k: RecordKey): Option<nat> {
    if k in t.rows then Some(t.rows[k].version) else None
  }

  predicate Expected(current: Option<nat>, expected: Option<nat>) {
    expected.Some? ==> current == expected
  }

  /** The error an ordinary update of an existing row meets, if any. */
  function Immutable(current: Row, requested: Retention): Option<StoreError> {
    if current.deletion.Some? then Some(Rejected)
    else if current.retention.legalHold && !requested.legalHold then Some(RetentionConflict)
    else if current.retention.retainUntil.Some? &&
            (requested.retainUntil.None? || requested.retainUntil.value < current.retention.retainUntil.value)
    then Some(RetentionConflict)
    else None
  }

  function PutRow(t: Tables, k: RecordKey, value: Value, provenance: Provenance, retention: Retention,
                  ifVersion: Option<nat>): Result<Tables, StoreError>
  {
    if !Expected(VersionOf(t, k), ifVersion) then Err(VersionConflict)
    else if k in t.rows && Immutable(t.rows[k], retention).Some? then Err(Immutable(t.rows[k], retention).value)
    else
      var version := if k in t.rows then t.rows[k].version + 1 else 1;
      var operation := if k in t.rows then Updated else Created;
      Ok(Tables(t.rows[k := Row(value, version, provenance, retention, None)],
                t.audit + [AuditEvent(k, operation, version, provenance, None)]))
  }

  /** Tombstone an existing row, keeping its value and provenance. */
  function Tombstone(t: Tables, k: RecordKey, reason: string): Tables
    requires k in t.rows
  {
    var row := t.rows[k];
    Tables(t.rows[k := row.(version := row.version + 1, deletion := Some(reason))],
           t.audit + [AuditEvent(k, Tombstoned, row.version + 1, row.provenance, Some(reason))])
  }

  /** Why a row cannot be tombstoned at the given version, if anything prevents it. */
  function Undeletable(t: Tables, k: RecordKey, version: nat): Option<StoreError> {
    if k !in t.rows then Some(Rejected)
    else if t.rows[k].version != version then Some(VersionConflict)
    else if t.rows[k].deletion.Some? then Some(Rejected)
    else if t.rows[k].retention.legalHold then Some(RetentionConflict)
    else None
  }

  /** An edge may be written only between active entities and on active evidence. */
  predicate Supported(t: Tables, edge: EdgeKey, evidence: set<EntityId>) {
    && edge.source != edge.target
    && Active(t, EntityRecord(edge.source))
    && Active(t, EntityRecord(edge.target))
    && forall e :: e in evidence ==> Active(t, EvidenceRecord(e))
  }

  /** The effect of one transaction; an error leaves the tables as they were. */
  function Write(t: Tables, r: Request): Result<Tables, StoreError> {
    match r
    case PutEntity(id, fact, p, retention, expected) =>
      PutRow(t, EntityRecord(id), EntityValue(fact), p, retention, expected)
    case PutEvidence(id, pointer, p, retention, expected) =>
      (match PutRow(t, EvidenceRecord(id), PointerValue(pointer), p, retention, expected)
       case Err(e) => Err(e)
       case Ok(t') =>
         PutRow(t', EntityRecord(id), EntityValue(StructuralFact(pointer)), p, retention,
                VersionOf(t', EntityRecord(id))))
    case PutEdge(edge, evidence, p, retention, expected) =>
      if !Supported(t, edge, evidence) then Err(Rejected)
      else PutRow(t, EdgeRecord(edge), EdgeValue(evidence), p, retention, expected)
    case DeleteEntity(id, version, reason) =>
      var k := EntityRecord(id);
      if k !in t.rows then Err(Rejected)
      else if t.rows[k].version != version then Err(VersionConflict)
      else if t.rows[k].deletion.Some? || id.kind == Evidence then Err(Rejected)
      else if t.rows[k].retention.legalHold then Err(RetentionConflict)
      else Ok(Tombstone(t, k, reason))
    case DeleteEvidence(id, version, reason) =>
      var k, s := EvidenceRecord(id), EntityRecord(id);
      if Undeletable(t, k, version).Some? then Err(Undeletable(t, k, version).value)
      else if s !in t.rows || id.kind != Evidence || t.rows[s].deletion.Some? then Err(Rejected)
      else if t.rows[s].retention.legalHold then Err(RetentionConflict)
      else Ok(Tombstone(Tombstone(t, k, reason), s, reason))
    case DeleteEdge(edge, version, reason) =>
      var k := EdgeRecord(edge);
      if Undeletable(t, k, version).Some? then Err(Undeletable(t, k, version).value)
      else Ok(Tombstone(t, k, reason))
  }

  /** What a transaction leaves in the tables: its effect, or nothing when it raises. */
  ghost predicate Transacted(before: Tables, r: Request, after: Tables, error: Option<StoreError>) {
    match Write(before, r)
    case Ok(t) => error.None? && after == t
    case Err(e) => error == Some(e) && after == before
  }

  class CompanyBrainStore {
    var rows: map<RecordKey, Row>
    var audit: seq<AuditEvent>

    ghost function State(): Tables
      reads this
    {
      Tables(rows, audit)
    }

    constructor ()
      ensures State() == Tables(map[], [])
    {
      rows, audit := map[], [];
    }

    method WriteRow(k: RecordKey, row: Row, operation: Operation)
      modifies this
      ensures rows == old(rows)[k := row]
      ensures audit == old(audit) + [AuditEvent(k, operation, row.version, row.provenance, row.deletion)]
    {
      rows := rows[k := row];
      audit := audit + [AuditEvent(k, operation, row.version, row.provenance, row.deletion)];
    }

    method Put(k: RecordKey, value: Value, provenance: Provenance, retention: Retention, ifVersion: Option<nat>)
      returns (error: Option<StoreError>)
      modifies this
      ensures match PutRow(old(State()), k, value, provenance, retention, ifVersion)
              case Ok(t) => error.None? && State() == t
              case Err(e) => error == Some(e) && State() == old(State())
    {
      if ifVersion.Some? && (k !in rows || rows[k].version != ifVersion.value) { return Some(VersionConflict); }
      if k in rows {
        var current := rows[k];
        if current.deletion.Some? { return Some(Rejected); }
        if current.retention.legalHold && !retention.legalHold { return Some(RetentionConflict); }
        if current.retention.retainUntil.Some? &&
           (retention.retainUntil.None? || retention.retainUntil.value < current.retention.retainUntil.value) {
          return Some(RetentionConflict);
        }
        WriteRow(k, Row(value, current.version + 1, provenance, retention, None), Updated);
      } else {
        WriteRow(k, Row(value, 1, provenance, retention, None), Created);
      }
      return None;
    }

    method PutEvidence(id: EntityId, pointer: Pointer, provenance: Provenance, retention: Retention,
                       ifVersion: Option<nat>) returns (error: Option<StoreError>)
      modifies this
      ensures Transacted(old(State()), Request.PutEvidence(id, pointer, provenance, retention, ifVersion), State(), error)
    {
      var savedRows, savedAudit := rows, audit;
      error := Put(EvidenceRecord(id), PointerValue(pointer), provenance, retention, ifVersion);
      if error.Some? { return; }
      var current := if EntityRecord(id) in rows then Some(rows[EntityRecord(id)].version) else None;
      error := Put(EntityRecord(id), EntityValue(StructuralFact(pointer)), provenance, retention, current);
      if error.Some? {
        rows, audit := savedRows, savedAudit;
      }
    }

    method PutEdge(edge: EdgeKey, evidence: set<EntityId>, provenance: Provenance, retention: Retention,
                   ifVersion: Option<nat>) returns (error: Option<StoreError>)
      modifies this
      ensures Transacted(old(State()), Request.PutEdge(edge, evidence, provenance, retention, ifVersion), State(), error)
    {
      if edge.source == edge.target { return Some(Rejected); }
      if EntityRecord(edge.source) !in rows || rows[EntityRecord(edge.source)].deletion.Some? { return Some(Rejected); }
      if EntityRecord(edge.target) !in rows || rows[EntityRecord(edge.target)].deletion.Some? { return Some(Rejected); }
      var unchecked := evidence;
      while unchecked != {}
        invariant unchecked <= evidence
        invariant forall e :: e in evidence - unchecked ==> Active(State(), EvidenceRecord(e))
      {
        var e :| e in unchecked;
        if EvidenceRecord(e) !in rows || rows[EvidenceRecord(e)].deletion.Some? { return Some(Rejected); }
        unchecked := unchecked - {e};
      }
      error := Put(EdgeRecord(edge), EdgeValue(evidence), provenance, retention, ifVersion);
    }

    method DeleteEntity(id: EntityId, version: nat, reason: string) returns (error: Option<StoreError>)
      modifies this
      ensures Transacted(old(State()), Request.DeleteEntity(id, version, reason), State(), error)
    {
      var k := EntityRecord(id);
      if k !in rows { return Some(Rejected); }
      var current := rows[k];
      if current.version != version { return Some(VersionConflict); }
      if current.deletion.Some? || id.kind == Evidence { return Some(Rejected); }
      if current.retention.legalHold { return Some(RetentionConflict); }
      WriteRow(k, current.(version := current.version + 1, deletion := Some(reason)), Tombstoned);
      return None;
    }

    method DeleteEvidence(id: EntityId, version: nat, reason: string) returns (error: Option<StoreError>)
      modifies this
      ensures Transacted(old(State()), Request.DeleteEvidence(id, version, reason), State(), error)
    {
      var k, s := EvidenceRecord(id), EntityRecord(id);
      if k !in rows { return Some(Rejected); }
      var current := rows[k];
      if current.version != version { return Some(VersionConflict); }
      if current.deletion.Some? { return Some(Rejected); }
      if current.retention.legalHold { return Some(RetentionConflict); }
      if s !in rows || id.kind != Evidence || rows[s].deletion.Some? { return Some(Rejected); }
      var structural := rows[s];
      if structural.retention.legalHold { return Some(RetentionConflict); }
      WriteRow(k, current.(version := current.version + 1, deletion := Some(reason)), Tombstoned);
      WriteRow(s, structural.(version := structural.version + 1, deletion := Some(reason)), Tombstoned);
      return None;
    }

    method DeleteEdge(edge: EdgeKey, version: nat, reason: string) returns (error: Option<StoreError>)
      modifies this
      ensures Transacted(old(State()), Request.DeleteEdge(edge, version, reason), State(), error)
    {
      var k := EdgeRecord(edge);
      if k !in rows { return Some(Rejected); }
      var current := rows[k];
      if current.version != version { return Some(VersionConflict); }
      if current.deletion.Some? { return Some(Rejected); }
      if current.retention.legalHold { return Some(RetentionConflict); }
      WriteRow(k, current.(version := current.version + 1, deletion := Some(reason)), Tombstoned);
      return None;
    }
  }
}
