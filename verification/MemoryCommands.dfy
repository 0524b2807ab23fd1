/** The store writes a projection makes, as commands that each settle their own records. */
module MemoryCommands {
  import opened Wrappers
  import opened BrainTypes
  import opened BrainStore

  /** Each command reads the record it is about and writes only if it is not yet as wanted. */
  datatype Command =
    | EnsureEntity(id: EntityId, fact: EntityFact, provenance: Provenance)
    | EnsureEvidence(id: EntityId, pointer: Pointer, provenance: Provenance)
    | SettleEdge(edge: EdgeKey, evidence: set<EntityId>, provenance: Provenance)
    | RetireEvidence(id: EntityId)
    | RetireEntity(id: EntityId)

  const NO_CONTRIBUTOR := "source projection no longer contributes this relationship"
  const SUPERSEDED := "source projection is superseded or deleted"

  function Perform(t: Tables, c: Command): Result<Tables, StoreError> {
    match c
    case EnsureEntity(id, fact, p) =>
      if Holds(t, EntityRecord(id), EntityValue(fact)) then Ok(t)
      else Write(t, PutEntity(id, fact, p, DEFAULT_RETENTION, None))
    case EnsureEvidence(id, pointer, p) =>
      if Holds(t, EvidenceRecord(id), PointerValue(pointer)) then Ok(t)
      else Write(t, PutEvidence(id, pointer, p, DEFAULT_RETENTION, None))
    case SettleEdge(edge, evidence, p) =>
      if evidence == {} then
        if !Active(t, EdgeRecord(edge)) then Ok(t)
        else Write(t, DeleteEdge(edge, t.rows[EdgeRecord(edge)].version, NO_CONTRIBUTOR))
      else if Holds(t, EdgeRecord(edge), EdgeValue(evidence)) then Ok(t)
      else Write(t, PutEdge(edge, evidence, p, DEFAULT_RETENTION, None))
    case RetireEvidence(id) =>
      if !Active(t, EvidenceRecord(id)) then Ok(t)
      else Write(t, DeleteEvidence(id, t.rows[EvidenceRecord(id)].version, SUPERSEDED))
    case RetireEntity(id) =>
      if !Active(t, EntityRecord(id)) then Ok(t)
      else Write(t, DeleteEntity(id, t.rows[EntityRecord(id)].version, SUPERSEDED))
  }

  predicate Holds(t: Tables, k: RecordKey, value: Value) {
    Active(t, k) && t.rows[k].value == value
  }

  /** The tables after a list of commands; the first raising command ends the run. */
  function RunAll(t: Tables, cs: seq<Command>): Result<Tables, StoreError> {
    if cs == [] then Ok(t)
    else
      match RunAll(t, cs[..|cs| - 1])
      case Err(e) => Err(e)
      case Ok(t') => Perform(t', cs[|cs| - 1])
  }

  /** The records a command may write. */
  function Targets(c: Command): set<RecordKey> {
    match c
    case EnsureEntity(id, _, _) => {EntityRecord(id)}
    case EnsureEvidence(id, _, _) => {EvidenceRecord(id), EntityRecord(id)}
    case SettleEdge(edge, _, _) => {EdgeRecord(edge)}
    case RetireEvidence(id) => {EvidenceRecord(id), EntityRecord(id)}
    case RetireEntity(id) => {EntityRecord(id)}
  }

  /** The record is already as the command wants it. */
  predicate Settled(t: Tables, c: Command) {
    match c
    case EnsureEntity(id, fact, _) => Holds(t, EntityRecord(id), EntityValue(fact))
    case EnsureEvidence(id, pointer, _) => Holds(t, EvidenceRecord(id), PointerValue(pointer))
    case SettleEdge(edge, evidence, _) =>
      if evidence == {} then !Active(t, EdgeRecord(edge)) else Holds(t, EdgeRecord(edge), EdgeValue(evidence))
    case RetireEvidence(id) => !Active(t, EvidenceRecord(id))
    case RetireEntity(id) => !Active(t, EntityRecord(id))
  }

  predicate SameRow(t: Tables, t': Tables, k: RecordKey) {
    (k in t.rows <==> k in t'.rows) && (k in t.rows ==> t.rows[k] == t'.rows[k])
  }

  /** No two commands write the same record. */
  ghost predicate Independent(cs: seq<Command>) {
    forall i, j :: 0 <= i < j < |cs| ==> Targets(cs[i]) !! Targets(cs[j])
  }

  lemma PerformSettles(t: Tables, c: Command)
    requires Perform(t, c).Ok?
    ensures Settled(Perform(t, c).value, c)
    ensures forall k :: k !in Targets(c) ==> SameRow(t, Perform(t, c).value, k)
  {
  }

  lemma SettledIsNoop(t: Tables, c: Command)
    requires Settled(t, c)
    ensures Perform(t, c) == Ok(t)
  {
  }

  lemma RunStep(t: Tables, cs: seq<Command>, c: Command)
    ensures RunAll(t, cs + [c]) == (match RunAll(t, cs) case Ok(t') => Perform(t', c) case Err(e) => Err(e))
  {
    assert (cs + [c])[..|cs|] == cs;
  }

  lemma {:induction false} RunSplit(t: Tables, cs: seq<Command>, n: nat)
    requires n <= |cs|
    ensures RunAll(t, cs).Ok? ==> RunAll(t, cs[..n]).Ok?
    ensures RunAll(t, cs[..n]).Ok? ==> RunAll(t, cs) == RunAll(RunAll(t, cs[..n]).value, cs[n..])
    ensures RunAll(t, cs[..n]).Err? ==> RunAll(t, cs) == RunAll(t, cs[..n])
    decreases |cs|
  {
    if n == |cs| {
      assert cs[..n] == cs;
    } else {
      var shorter, c := cs[..|cs| - 1], cs[|cs| - 1];
      RunSplit(t, shorter, n);
      assert shorter[..n] == cs[..n] && cs == shorter + [c] && cs[n..] == shorter[n..] + [c];
      RunStep(t, shorter, c);
      if RunAll(t, cs[..n]).Ok? { RunStep(RunAll(t, cs[..n]).value, shorter[n..], c); }
    }
  }

  lemma SettledElsewhere(t: Tables, t': Tables, c: Command)
    requires Settled(t, c)
    requires forall k :: k in Targets(c) ==> SameRow(t, t', k)
    ensures Settled(t', c)
  {
    match c
    case EnsureEntity(id, _, _) => assert SameRow(t, t', EntityRecord(id));
    case EnsureEvidence(id, _, _) => assert SameRow(t, t', EvidenceRecord(id));
    case SettleEdge(edge, _, _) => assert SameRow(t, t', EdgeRecord(edge));
    case RetireEvidence(id) => assert SameRow(t, t', EvidenceRecord(id));
    case RetireEntity(id) => assert SameRow(t, t', EntityRecord(id));
  }

  /** No command of the list writes the record. */
  ghost predicate Untouched(cs: seq<Command>, k: RecordKey) {
    forall i :: 0 <= i < |cs| ==> k !in Targets(cs[i])
  }

  lemma {:induction false} RunKeeps(t: Tables, cs: seq<Command>, k: RecordKey)
    requires RunAll(t, cs).Ok? && Untouched(cs, k)
    ensures SameRow(t, RunAll(t, cs).value, k)
  {
    if cs != [] {
      RunKeeps(t, cs[..|cs| - 1], k);
      PerformSettles(RunAll(t, cs[..|cs| - 1]).value, cs[|cs| - 1]);
    }
  }

  /** A finished run has settled every one of its commands. */
  lemma {:induction false} RunSettles(t: Tables, cs: seq<Command>, i: nat)
    requires Independent(cs) && RunAll(t, cs).Ok? && i < |cs|
    ensures Settled(RunAll(t, cs).value, cs[i])
  {
    RunSplit(t, cs, i + 1);
    var mid := RunAll(t, cs[..i + 1]).value;
    assert cs[..i + 1][..i] == cs[..i];
    PerformSettles(RunAll(t, cs[..i]).value, cs[i]);
    forall k | k in Targets(cs[i]) ensures SameRow(mid, RunAll(t, cs).value, k) {
      RunKeeps(mid, cs[i + 1..], k);
    }
    SettledElsewhere(mid, RunAll(t, cs).value, cs[i]);
  }

  lemma {:induction false} SettledRunIsNoop(t: Tables, cs: seq<Command>)
    requires forall i :: 0 <= i < |cs| ==> Settled(t, cs[i])
    ensures RunAll(t, cs) == Ok(t)
  {
    if cs != [] {
      SettledRunIsNoop(t, cs[..|cs| - 1]);
      SettledIsNoop(t, cs[|cs| - 1]);
    }
  }

  /** Running the same commands again after any prefix of them continues where it stopped: the
      tables, versions and audit trail are those of one uninterrupted run. */
  lemma RerunResumes(t: Tables, cs: seq<Command>, n: nat)
    requires n <= |cs| && Independent(cs) && RunAll(t, cs[..n]).Ok?
    ensures RunAll(RunAll(t, cs[..n]).value, cs) == RunAll(t, cs)
  {
    var mid := RunAll(t, cs[..n]).value;
    assert Independent(cs[..n]);
    forall i | 0 <= i < n ensures Settled(mid, cs[..n][i]) { RunSettles(t, cs[..n], i); }
    SettledRunIsNoop(mid, cs[..n]);
    RunSplit(mid, cs, n);
    RunSplit(t, cs, n);
  }
}
