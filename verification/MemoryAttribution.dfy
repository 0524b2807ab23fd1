/** What a finished call leaves in each record it writes: its content, whose contribution it is, and the one audit event. */
module MemoryAttribution {
  import opened Wrappers
  import opened BrainTypes
  import opened BrainStore
  import opened StoreHistory
  import opened MemoryCommands
  import opened BrainMemory
  import opened MemoryPlans
  import Brain = CompanyBrain

  /** The row keeps what it said and is marked as removed for this reason. */
  predicate TakenOut(t: Tables, k: RecordKey, row: Row, reason: string) {
    k in t.rows && row == t.rows[k].(version := t.rows[k].version + 1, deletion := Some(reason))
  }

  predicate Stated(row: Row, value: Value, p: Provenance) {
    row.value == value && row.provenance == p && row.deletion.None?
  }

  /** What a command leaves in a record it writes. */
  predicate Left(t: Tables, c: Command, k: RecordKey, row: Row) {
    match c
    case EnsureEntity(_, fact, p) => Stated(row, EntityValue(fact), p)
    case EnsureEvidence(_, pointer, p) =>
      Stated(row, if k.EvidenceRecord? then PointerValue(pointer) else EntityValue(StructuralFact(pointer)), p)
    case SettleEdge(_, evidence, p) =>
      if evidence == {} then TakenOut(t, k, row, "source projection no longer contributes this relationship")
      else Stated(row, EdgeValue(evidence), p)
    case RetireEvidence(_) => TakenOut(t, k, row, "source projection is superseded or deleted")
    case RetireEntity(_) => TakenOut(t, k, row, "source projection is superseded or deleted")
  }

  /** The record was written once more, and the one event about it tells the row's new version and provenance. */
  ghost predicate Logged(t: Tables, t': Tables, k: RecordKey) {
    && k in t'.rows
    && var row := t'.rows[k];
       var operation := if row.deletion.Some? then Tombstoned else if k in t.rows then Updated else Created;
       && row.version == (if k in t.rows then t.rows[k].version + 1 else 1)
       && EventsOf(t'.audit, k) == EventsOf(t.audit, k) + [AuditEvent(k, operation, row.version, row.provenance, row.deletion)]
  }

  ghost predicate Kept(t: Tables, t': Tables, k: RecordKey) {
    SameRow(t, t', k) && EventsOf(t'.audit, k) == EventsOf(t.audit, k)
  }

  lemma PutLeaves(t: Tables, k: RecordKey, value: Value, p: Provenance, retention: Retention, version: Option<nat>, j: RecordKey)
    requires PutRow(t, k, value, p, retention, version).Ok?
    ensures var t' := PutRow(t, k, value, p, retention, version).value;
            if j == k then k in t'.rows && Stated(t'.rows[k], value, p) && Logged(t, t', k) else Kept(t, t', j)
  {
    hide EventsOf;
    var t' := PutRow(t, k, value, p, retention, version).value;
    EventsOfAppend(t.audit, t'.audit[|t.audit|], j);
  }

  lemma TombstoneLeaves(t: Tables, k: RecordKey, reason: string, j: RecordKey)
    requires Active(t, k)
    ensures var t' := Tombstone(t, k, reason);
            if j == k then TakenOut(t, k, t'.rows[k], reason) && Logged(t, t', k) else Kept(t, t', j)
  {
    hide EventsOf;
    EventsOfAppend(t.audit, Tombstone(t, k, reason).audit[|t.audit|], j);
  }

  lemma KeptThrough(t: Tables, mid: Tables, t': Tables, k: RecordKey)
    requires Kept(t, mid, k)
    ensures Kept(mid, t', k) ==> Kept(t, t', k)
    ensures Logged(mid, t', k) ==> Logged(t, t', k)
    ensures forall reason :: k in t'.rows && TakenOut(mid, k, t'.rows[k], reason) ==> TakenOut(t, k, t'.rows[k], reason)
  {
    hide EventsOf;
  }

  lemma LoggedThrough(t: Tables, mid: Tables, t': Tables, k: RecordKey)
    requires Logged(t, mid, k) && Kept(mid, t', k)
    ensures Logged(t, t', k) && k in t'.rows && t'.rows[k] == mid.rows[k]
  {
    hide EventsOf;
  }

  lemma PutEvidenceLeaves(t: Tables, id: EntityId, pointer: Pointer, p: Provenance, j: RecordKey)
    requires Write(t, PutEvidence(id, pointer, p, DEFAULT_RETENTION, None)).Ok?
    ensures var t' := Write(t, PutEvidence(id, pointer, p, DEFAULT_RETENTION, None)).value;
            if j == EvidenceRecord(id) || j == EntityRecord(id)
            then j in t'.rows && Left(t, EnsureEvidence(id, pointer, p), j, t'.rows[j]) && Logged(t, t', j) else Kept(t, t', j)
  {
    var mid := PutRow(t, EvidenceRecord(id), PointerValue(pointer), p, DEFAULT_RETENTION, None).value;
    var k, t' := EntityRecord(id), Write(t, PutEvidence(id, pointer, p, DEFAULT_RETENTION, None)).value;
    PutLeaves(t, EvidenceRecord(id), PointerValue(pointer), p, DEFAULT_RETENTION, None, j);
    PutLeaves(mid, k, EntityValue(StructuralFact(pointer)), p, DEFAULT_RETENTION, VersionOf(mid, k), j);
    hide Logged, Kept;
    if j == EvidenceRecord(id) { LoggedThrough(t, mid, t', j); } else { KeptThrough(t, mid, t', j); }
  }

  lemma DeleteEvidenceLeaves(t: Tables, id: EntityId, version: nat, reason: string, j: RecordKey)
    requires Write(t, DeleteEvidence(id, version, reason)).Ok?
    ensures var t' := Write(t, DeleteEvidence(id, version, reason)).value;
            if j == EvidenceRecord(id) || j == EntityRecord(id)
            then j in t'.rows && TakenOut(t, j, t'.rows[j], reason) && Logged(t, t', j) else Kept(t, t', j)
  {
    var k, s := EvidenceRecord(id), EntityRecord(id);
    var mid := Tombstone(t, k, reason);
    var t' := Tombstone(mid, s, reason);
    TombstoneLeaves(t, k, reason, j);
    TombstoneLeaves(mid, s, reason, j);
    hide Logged, Kept;
    if j == k { LoggedThrough(t, mid, t', j); } else { KeptThrough(t, mid, t', j); }
  }

  /** A command leaves a record as it is, or leaves in it what it asks for, with one event about it. */
  lemma PerformLeaves(t: Tables, c: Command, k: RecordKey)
    requires Perform(t, c).Ok?
    ensures var t' := Perform(t, c).value;
            Kept(t, t', k) || (k in Targets(c) && k in t'.rows && Left(t, c, k, t'.rows[k]) && Logged(t, t', k))
  {
    hide Logged, EventsOf;
    match c
    case EnsureEntity(id, fact, p) =>
      if !Settled(t, c) { PutLeaves(t, EntityRecord(id), EntityValue(fact), p, DEFAULT_RETENTION, None, k); }
    case EnsureEvidence(id, pointer, p) =>
      if !Settled(t, c) { PutEvidenceLeaves(t, id, pointer, p, k); }
    case SettleEdge(edge, evidence, p) =>
      if !Settled(t, c) {
        if evidence == {} { TombstoneLeaves(t, EdgeRecord(edge), NO_CONTRIBUTOR, k); }
        else { PutLeaves(t, EdgeRecord(edge), EdgeValue(evidence), p, DEFAULT_RETENTION, None, k); }
      }
    case RetireEvidence(id) =>
      if !Settled(t, c) { DeleteEvidenceLeaves(t, id, t.rows[EvidenceRecord(id)].version, SUPERSEDED, k); }
    case RetireEntity(id) =>
      if !Settled(t, c) { TombstoneLeaves(t, EntityRecord(id), SUPERSEDED, k); }
  }

  lemma {:induction false} RunLeavesAlone(t: Tables, cs: seq<Command>, k: RecordKey)
    requires RunAll(t, cs).Ok? && Untouched(cs, k)
    ensures Kept(t, RunAll(t, cs).value, k)
  {
    if cs != [] {
      var mid, last := RunAll(t, cs[..|cs| - 1]).value, cs[|cs| - 1];
      RunLeavesAlone(t, cs[..|cs| - 1], k);
      PerformLeaves(mid, last, k);
      hide Logged;
      KeptThrough(t, mid, RunAll(t, cs).value, k);
    }
  }

  lemma LeftThrough(t: Tables, mid: Tables, c: Command, k: RecordKey, t': Tables)
    requires Kept(t, mid, k) && k in t'.rows && Left(mid, c, k, t'.rows[k]) && Logged(mid, t', k)
    ensures Left(t, c, k, t'.rows[k]) && Logged(t, t', k)
  {
    KeptThrough(t, mid, t', k);
    hide Logged, EventsOf;
  }

  lemma OthersLeaveItAlone(cs: seq<Command>, i: nat, k: RecordKey)
    requires Independent(cs) && i < |cs| && k in Targets(cs[i])
    ensures Untouched(cs[..i], k) && Untouched(cs[i + 1..], k)
  {
    forall j | 0 <= j < |cs| && j != i ensures k !in Targets(cs[j]) {
      if j < i { assert Targets(cs[j]) !! Targets(cs[i]); } else { assert Targets(cs[i]) !! Targets(cs[j]); }
    }
  }

  /** Of independent commands only one is about a record; after all of them it holds what that one left. */
  lemma RunLeaves(t: Tables, cs: seq<Command>, i: nat, k: RecordKey)
    requires Independent(cs) && RunAll(t, cs).Ok? && i < |cs| && k in Targets(cs[i])
    ensures var t' := RunAll(t, cs).value;
            Kept(t, t', k) || (k in t'.rows && Left(t, cs[i], k, t'.rows[k]) && Logged(t, t', k))
  {
    hide Left, Logged, Kept, Untouched, Independent, Targets, Perform;
    var t' := RunAll(t, cs).value;
    OthersLeaveItAlone(cs, i, k);
    RunSplit(t, cs, i);
    RunSplit(t, cs, i + 1);
    assert cs[..i + 1][..i] == cs[..i];
    var before, after := RunAll(t, cs[..i]).value, RunAll(t, cs[..i + 1]).value;
    RunLeavesAlone(t, cs[..i], k);
    PerformLeaves(before, cs[i], k);
    RunLeavesAlone(after, cs[i + 1..], k);
    if Kept(before, after, k) {
      KeptThrough(t, before, after, k);
      KeptThrough(t, after, t', k);
    } else {
      LeftThrough(t, before, cs[i], k, after);
      LoggedThrough(t, after, t', k);
    }
  }

  /** The first of the rows that contribute the edge. */
  ghost predicate FirstContributor(rows: seq<Projection>, i: nat, edge: EdgeKey) {
    i < |rows| && edge in rows[i].edges && forall j :: 0 <= j < i ==> edge !in rows[j].edges
  }

  lemma {:induction false} ProvenanceOfTheFirst(rows: seq<Projection>, edge: EdgeKey, otherwise: Provenance, q: Projection)
    returns (i: nat)
    requires q in rows && edge in q.edges
    ensures FirstContributor(rows, i, edge) && FirstProvenance(rows, edge, otherwise) == rows[i].provenance
  {
    if edge in rows[0].edges {
      i := 0;
    } else {
      i := ProvenanceOfTheFirst(rows[1..], edge, otherwise, q);
      i := i + 1;
    }
  }

  lemma CarriedEdgeIsAttributed(o: Collation, journal: map<SourceKey, Projection>, source: SourceKey, next: Option<Projection>,
                                em: Option<Brain.Emission>, p: Provenance, cs: seq<Command>, t: Tables, edge: EdgeKey)
    requires Sorts(o) && Carries(o, journal, source, next, em, p, cs) && RunAll(t, cs).Ok?
    ensures var t', k, rows := RunAll(t, cs).value, EdgeRecord(edge), Candidates(journal, source, next);
            || Kept(t, t', k)
            || (&& k in t'.rows && Logged(t, t', k)
                && if exists q :: q in rows && edge in q.edges && q.evidence != {}
                   then t'.rows[k].deletion.None? && t'.rows[k].value == EdgeValue(Membership(rows, edge))
                        && exists i: nat :: FirstContributor(o.rows(rows), i, edge) && t'.rows[k].provenance == o.rows(rows)[i].provenance
                   else TakenOut(t, k, t'.rows[k], "source projection no longer contributes this relationship"))
  {
    hide Logged, Kept;
    var k, rows, t' := EdgeRecord(edge), Candidates(journal, source, next), RunAll(t, cs).value;
    if i :| 0 <= i < |cs| && k in Targets(cs[i]) {
      RunLeaves(t, cs, i, k);
      assert cs[i] in cs;
      assert cs[i].edge == edge && cs[i].evidence == Membership(rows, edge);
      if q :| q in rows && edge in q.edges && q.evidence != {} {
        var e :| e in q.evidence;
        assert e in Membership(rows, edge);
        assert Lists(o.rows(rows), rows);
        var j := ProvenanceOfTheFirst(o.rows(rows), edge, p, q);
        assert FirstContributor(o.rows(rows), j, edge);
      } else {
        assert Membership(rows, edge) == {};
      }
    } else {
      RunLeavesAlone(t, cs, k);
    }
  }

  /** Who contributes an edge once the call is done: the call's own new row, and the active rows of the other sources. */
  ghost predicate Contributes(m: Memory, call: Call, row: Projection, q: Projection) {
    || (!call.Remove? && q == row)
    || (exists s :: s in m.journal && s != SourceOf(call) && m.journal[s] == q && q.state.ActiveSource?)
  }

  /** An edge a finished call wrote rests on all the evidence of its contributors and carries the provenance of the
      first of them as they are listed, in its row and in its one event; with no contributor left it is removed. */
  lemma WrittenEdgeIsAttributed(o: Collation, m: Memory, call: Call, edge: EdgeKey)
    requires Sorts(o) && JournalOk(m) && PlanOf(o, m, call).Work? && Complete(o, m, call).Ok?
    ensures var t, t', k, row := m.tables, Complete(o, m, call).value.tables, EdgeRecord(edge), PlanOf(o, m, call).row;
            || Kept(t, t', k)
            || (&& k in t'.rows && Logged(t, t', k)
                && if exists q :: Contributes(m, call, row, q) && edge in q.edges && q.evidence != {}
                   then && t'.rows[k].deletion.None? && t'.rows[k].value.EdgeValue?
                        && (forall e :: e in t'.rows[k].value.evidence <==>
                              exists q :: Contributes(m, call, row, q) && edge in q.edges && e in q.evidence)
                        && var order := o.rows(Candidates(m.journal, SourceOf(call), NextOf(call, row)));
                        && (forall q :: q in order <==> Contributes(m, call, row, q))
                        && exists i: nat :: FirstContributor(order, i, edge) && t'.rows[k].provenance == order[i].provenance
                   else TakenOut(t, k, t'.rows[k], "source projection no longer contributes this relationship"))
  {
    hide PlanOf, Logged, Kept, Carries;
    var row := PlanOf(o, m, call).row;
    var rows := Candidates(m.journal, SourceOf(call), NextOf(call, row));
    PlanCarries(o, m, call);
    CarriedEdgeIsAttributed(o, m.journal, SourceOf(call), NextOf(call, row), EmittedBy(m.tables, call), ProvenanceOf(call),
                            PlanOf(o, m, call).commands, m.tables, edge);
    CandidatesContribute(m, call, row);
    assert Lists(o.rows(rows), rows);
    MembershipIs(rows, edge);
    hide Candidates, Contributes, Membership, FirstContributor;
  }

  lemma CandidatesContribute(m: Memory, call: Call, row: Projection)
    ensures forall q :: q in Candidates(m.journal, SourceOf(call), NextOf(call, row)) <==> Contributes(m, call, row, q)
  {
  }

  lemma MembershipIs(rows: set<Projection>, edge: EdgeKey)
    ensures forall e :: e in Membership(rows, edge) <==> exists q :: q in rows && edge in q.edges && e in q.evidence
  {
  }

  /** The record of an entity or a pointer repeats what the source's record states. */
  predicate Repeats(em: Brain.Emission, k: RecordKey, value: Value)
    requires !k.EdgeRecord?
  {
    if k.EvidenceRecord? then k.id == em.evidenceId && value == PointerValue(em.pointer)
    else if k.id == em.evidenceId then value == EntityValue(StructuralFact(em.pointer))
    else k.id in em.facts && value == EntityValue(em.facts[k.id])
  }

  lemma CarriedFactIsAttributed(o: Collation, journal: map<SourceKey, Projection>, source: SourceKey, next: Option<Projection>,
                                em: Option<Brain.Emission>, p: Provenance, cs: seq<Command>, t: Tables, k: RecordKey)
    requires Carries(o, journal, source, next, em, p, cs) && RunAll(t, cs).Ok? && !k.EdgeRecord?
    ensures var t' := RunAll(t, cs).value;
            || Kept(t, t', k)
            || (&& k in t'.rows && Logged(t, t', k)
                && if t'.rows[k].deletion.Some? then TakenOut(t, k, t'.rows[k], "source projection is superseded or deleted")
                   else && em.Some? && t'.rows[k].provenance == p
                        && Repeats(em.value, k, t'.rows[k].value))
  {
    hide Logged, Kept;
    if i :| 0 <= i < |cs| && k in Targets(cs[i]) {
      RunLeaves(t, cs, i, k);
      assert cs[i] in cs;
    } else {
      RunLeavesAlone(t, cs, k);
    }
  }

  /** An entity or a pointer a finished call wrote says what the source's record says, under the provenance of this
      very call, or is removed as superseded, keeping what it said. */
  lemma WrittenFactIsAttributed(o: Collation, m: Memory, call: Call, k: RecordKey)
    requires Sorts(o) && JournalOk(m) && PlanOf(o, m, call).Work? && Complete(o, m, call).Ok? && !k.EdgeRecord?
    ensures var t, t' := m.tables, Complete(o, m, call).value.tables;
            || Kept(t, t', k)
            || (&& k in t'.rows && Logged(t, t', k)
                && if t'.rows[k].deletion.Some? then TakenOut(t, k, t'.rows[k], "source projection is superseded or deleted")
                   else && !call.Remove? && t'.rows[k].provenance == ProvenanceOf(call)
                        && Repeats(EmissionOf(t, call), k, t'.rows[k].value))
  {
    hide PlanOf, Logged, Kept, Carries;
    PlanCarries(o, m, call);
    CarriedFactIsAttributed(o, m.journal, SourceOf(call), NextOf(call, PlanOf(o, m, call).row), EmittedBy(m.tables, call),
                            ProvenanceOf(call), PlanOf(o, m, call).commands, m.tables, k);
  }

  /** A call is attributed to the system, the source, the revision and the event it came with. */
  lemma ProvenanceNamesTheCall(call: Call)
    ensures match call
            case UpsertFile(c, e) =>
              ProvenanceOf(call) == Provenance(c.provider, FileSource(c.provider, c.repository, c.branch, c.path), c.commit,
                                               "company-brain-file-change-projection:v1", e)
            case UpsertDocument(d, e) =>
              ProvenanceOf(call) == Provenance(d.provider, KnowledgeSource(d.provider, d.sourceType, d.sourceId), d.revision,
                                               "company-brain-knowledge-document-projection:v1", e)
            case Remove(s, revision, e) =>
              && ProvenanceOf(call).source == s && ProvenanceOf(call).sourceSystem == s.provider
              && ProvenanceOf(call).revision == revision && ProvenanceOf(call).eventId == e
              && ProvenanceOf(call).policy == (if s.FileSource? then "company-brain-file-change-projection:v1"
                                               else "company-brain-knowledge-document-projection:v1")
  {
  }

  /** Whether the journal already holds just this state of the source. */
  predicate Journaled(m: Memory, call: Call) {
    var s := SourceOf(call);
    && s in m.journal && (m.journal[s].state.DeletedSource? <==> call.Remove?)
    && m.journal[s].fingerprint == match call
                                   case UpsertFile(c, _) => FileContent(c)
                                   case UpsertDocument(d, _) => DocumentContent(d)
                                   case Remove(source, _, _) => Removed(source)
  }

  /** When a call is refused before it writes: its event already projected something else of this source, or it
      brings something new that cannot be projected because the snapshot is unreadable or the incident names itself. */
  lemma RefusedExactlyWhen(o: Collation, m: Memory, call: Call)
    requires Sorts(o)
    ensures var s := SourceOf(call);
            var reused := call.eventId.Some? && s in m.journal && m.journal[s].provenance.eventId == call.eventId;
            && (PlanOf(o, m, call).Refuse? <==>
                  if reused && !Journaled(m, call) then true
                  else !call.Remove? && !Journaled(m, call)
                       && (!Closed(m.tables) || (call.UpsertDocument? && Brain.SelfReferring(call.document))))
            && (PlanOf(o, m, call).Unchanged? <==>
                  !PlanOf(o, m, call).Refuse? && if call.Remove? then s in m.journal && m.journal[s].state.DeletedSource? else Journaled(m, call))
  {
    hide Closed, Contribution, ReconcileCommands, EnsureCommands, EmissionOf, Candidates;
  }

  /** The row a finished call journals: the new content of an upsert, or what the source last contributed, marked as deleted. */
  lemma FinishedRowSays(o: Collation, m: Memory, call: Call)
    requires Sorts(o) && PlanOf(o, m, call).Work? && Complete(o, m, call).Ok?
    ensures var s, m' := SourceOf(call), Complete(o, m, call).value;
            && m'.journal.Keys == m.journal.Keys + {s} && (forall r :: r in m.journal && r != s ==> m'.journal[r] == m.journal[r])
            && var row := m'.journal[s];
               && row.source == s && row.provenance == ProvenanceOf(call) && Journaled(m', call)
               && if call.Remove? then
                    if s in m.journal then row.entityIds == m.journal[s].entityIds && row.owned == m.journal[s].owned
                                           && row.evidence == m.journal[s].evidence && row.edges == m.journal[s].edges
                    else row.entityIds == {} && row.owned == {} && row.evidence == {} && row.edges == {}
                  else
                    var em := EmissionOf(m.tables, call);
                    && row.entityIds == em.facts.Keys && row.evidence == {em.evidenceId}
                    && (forall id :: id in row.owned <==> id in em.facts && id.kind !in {Repository, Service, Team, Owner})
                    && (forall edge :: edge in row.edges <==>
                          edge in em.edges || (Visible(m.tables, edge) && em.evidenceId in EvidenceOf(m.tables, edge)))
  {
    hide Closed, ReconcileCommands, EnsureCommands, EmissionOf, Candidates, RunAll;
    if !call.Remove? { RowIsTheContribution(o, m, call); }
  }

  lemma RowIsTheContribution(o: Collation, m: Memory, call: Call)
    requires Sorts(o) && !call.Remove? && PlanOf(o, m, call).Work?
    ensures PlanOf(o, m, call).row == Contribution(m.tables, SourceOf(call), FingerprintOf(call), ProvenanceOf(call), EmissionOf(m.tables, call))
    ensures var em := EmissionOf(m.tables, call);
            forall edge :: edge in EdgesCiting(m.tables, em.evidenceId) <==>
              Visible(m.tables, edge) && em.evidenceId in EvidenceOf(m.tables, edge)
  {
    hide Closed, ReconcileCommands, EnsureCommands, EmissionOf, Candidates;
  }
}
