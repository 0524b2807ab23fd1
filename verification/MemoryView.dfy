/** The incrementally maintained store equals recomputation from the journal. */
module MemoryView {
  import opened Wrappers
  import opened BrainTypes
  import opened BrainStore
  import opened MemoryCommands
  import opened BrainMemory
  import opened MemoryPlans
  import Brain = CompanyBrain

  /** The active records are exactly what the rows contribute: an edge is active exactly when some row
      contributes it and cites the union of the contributions, the active evidence and the active
      source-owned entities are the unions of the rows' own. */
  ghost predicate Mirrors(t: Tables, rows: set<Projection>) {
    && (forall edge :: EdgeSettled(t, edge, Membership(rows, edge)))
    && (forall e :: Active(t, EvidenceRecord(e)) <==> e in EvidenceHeld(rows))
    && (forall id: EntityId :: SourceOwned(id.kind) && id.kind != Evidence ==>
          (Active(t, EntityRecord(id)) <==> id in OwnedHeld(rows)))
  }

  ghost predicate InView(m: Memory) {
    Mirrors(m.tables, ActiveRows(m.journal))
  }

  /** Journaling the new row makes the candidate rows the active ones. */
  lemma RowsAfter(journal: map<SourceKey, Projection>, source: SourceKey, row: Projection, next: Option<Projection>)
    requires next == (if row.state.ActiveSource? then Some(row) else None)
    ensures ActiveRows(journal[source := row]) == Candidates(journal, source, next)
  {
    var j := journal[source := row];
    forall q | q in Candidates(journal, source, next) ensures q in ActiveRows(j) {
      if next == Some(q) {
        assert j[source] == q;
      } else {
        var s :| s in journal && s != source && journal[s].state.ActiveSource? && journal[s] == q;
        assert j[s] == q;
      }
    }
  }

  /** What the other rows contribute is not affected by replacing one row. */
  lemma OthersContribute(journal: map<SourceKey, Projection>, source: SourceKey, next: Option<Projection>)
    ensures forall q :: q in Candidates(journal, source, next) && next != Some(q) ==> q in ActiveRows(journal)
    ensures forall q :: q in ActiveRows(journal) && q !in Candidates(journal, source, next) ==>
              source in journal && q == journal[source]
  {
  }

  lemma ViewStep(o: Collation, journal: map<SourceKey, Projection>, source: SourceKey, next: Option<Projection>,
                 em: Option<Brain.Emission>, p: Provenance, cs: seq<Command>, t: Tables)
    requires Carries(o, journal, source, next, em, p, cs) && RunAll(t, cs).Ok?
    requires Mirrors(t, ActiveRows(journal))
    ensures Mirrors(RunAll(t, cs).value, Candidates(journal, source, next))
  {
    var rows, t' := Candidates(journal, source, next), RunAll(t, cs).value;
    OthersContribute(journal, source, next);
    if next.Some? { assert next.value in rows; }
    forall edge ensures EdgeSettled(t', edge, Membership(rows, edge)) {
      CarriedEdge(o, journal, source, next, em, p, cs, t, edge);
      if SameRow(t, t', EdgeRecord(edge)) && edge !in EdgesOf(next) && (source in journal ==> edge !in journal[source].edges) {
        assert Membership(rows, edge) == Membership(ActiveRows(journal), edge);
        assert EdgeSettled(t, edge, Membership(ActiveRows(journal), edge));
      }
    }
    forall e ensures Active(t', EvidenceRecord(e)) <==> e in EvidenceHeld(rows) {
      CarriedEvidence(o, journal, source, next, em, p, cs, t, e);
      assert Active(t, EvidenceRecord(e)) <==> e in EvidenceHeld(ActiveRows(journal));
    }
    forall id: EntityId | SourceOwned(id.kind) && id.kind != Evidence
      ensures Active(t', EntityRecord(id)) <==> id in OwnedHeld(rows)
    {
      CarriedEntity(o, journal, source, next, em, p, cs, t, id);
      assert Active(t, EntityRecord(id)) <==> id in OwnedHeld(ActiveRows(journal));
    }
  }

  /** One call that returns normally keeps the store equal to the view of the journal. */
  lemma CallKeepsView(o: Collation, m: Memory, call: Call)
    requires Sorts(o) && JournalOk(m) && InView(m) && Complete(o, m, call).Ok?
    ensures JournalOk(Complete(o, m, call).value) && InView(Complete(o, m, call).value)
  {
    if PlanOf(o, m, call).Work? {
      var Work(cs, row) := PlanOf(o, m, call);
      PlanCarries(o, m, call);
      ViewStep(o, m.journal, SourceOf(call), NextOf(call, row), EmittedBy(m.tables, call), ProvenanceOf(call), cs, m.tables);
      RowsAfter(m.journal, SourceOf(call), row, NextOf(call, row));
    }
  }

  /** A run of calls, each of which must return normally. */
  ghost function RunCalls(o: Collation, m: Memory, calls: seq<Call>): Result<Memory, ()>
    requires Sorts(o)
  {
    if calls == [] then Ok(m)
    else
      match RunCalls(o, m, calls[..|calls| - 1])
      case Err(_) => Err(())
      case Ok(m') => Complete(o, m', calls[|calls| - 1])
  }

  const BLANK := Memory(Tables(map[], []), map[])

  /** After any sequence of upserts and removals that return normally, the incrementally maintained
      store is the one recomputed from the journal. */
  lemma {:induction false} StoreIsTheViewOfTheJournal(o: Collation, calls: seq<Call>)
    requires Sorts(o) && RunCalls(o, BLANK, calls).Ok?
    ensures InView(RunCalls(o, BLANK, calls).value) && JournalOk(RunCalls(o, BLANK, calls).value)
  {
    if calls != [] {
      StoreIsTheViewOfTheJournal(o, calls[..|calls| - 1]);
      CallKeepsView(o, RunCalls(o, BLANK, calls[..|calls| - 1]).value, calls[|calls| - 1]);
    }
  }

  /** An active source of the journal contributes this evidence to this edge. */
  ghost predicate Supplies(m: Memory, s: SourceKey, edge: EdgeKey, e: EntityId) {
    s in m.journal && m.journal[s].state.ActiveSource? && edge in m.journal[s].edges && e in m.journal[s].evidence
  }

  /** The same, record by record: an edge is active exactly when some active source contributes it, and it cites
      exactly the evidence of all those that do; a pointer, or an entity a single source owns, is active exactly when
      some active source holds it. */
  lemma EveryRecordIsAsJournaled(o: Collation, calls: seq<Call>, edge: EdgeKey, id: EntityId)
    requires Sorts(o) && RunCalls(o, BLANK, calls).Ok?
    ensures var m := RunCalls(o, BLANK, calls).value;
            && (Active(m.tables, EdgeRecord(edge)) <==> exists s, e :: Supplies(m, s, edge, e))
            && (Active(m.tables, EdgeRecord(edge)) ==>
                  && m.tables.rows[EdgeRecord(edge)].value.EdgeValue?
                  && forall e :: e in m.tables.rows[EdgeRecord(edge)].value.evidence <==> exists s :: Supplies(m, s, edge, e))
            && (Active(m.tables, EvidenceRecord(id)) <==>
                  exists s :: s in m.journal && m.journal[s].state.ActiveSource? && id in m.journal[s].evidence)
            && (id.kind !in {Repository, Service, Team, Owner, Evidence} ==>
                  (Active(m.tables, EntityRecord(id)) <==>
                     exists s :: s in m.journal && m.journal[s].state.ActiveSource? && id in m.journal[s].owned))
  {
    StoreIsTheViewOfTheJournal(o, calls);
    var m := RunCalls(o, BLANK, calls).value;
    hide RunCalls;
    MirrorSays(m, edge, id);
  }

  lemma MirrorSays(m: Memory, edge: EdgeKey, id: EntityId)
    requires InView(m)
    ensures Active(m.tables, EdgeRecord(edge)) <==> exists s, e :: Supplies(m, s, edge, e)
    ensures Active(m.tables, EdgeRecord(edge)) ==>
              && m.tables.rows[EdgeRecord(edge)].value.EdgeValue?
              && forall e :: e in m.tables.rows[EdgeRecord(edge)].value.evidence <==> exists s :: Supplies(m, s, edge, e)
    ensures Active(m.tables, EvidenceRecord(id)) <==>
              exists s :: s in m.journal && m.journal[s].state.ActiveSource? && id in m.journal[s].evidence
    ensures id.kind !in {Repository, Service, Team, Owner, Evidence} ==>
              (Active(m.tables, EntityRecord(id)) <==>
                 exists s :: s in m.journal && m.journal[s].state.ActiveSource? && id in m.journal[s].owned)
  {
    var rows := ActiveRows(m.journal);
    assert EdgeSettled(m.tables, edge, Membership(rows, edge));
    forall e ensures e in Membership(rows, edge) <==> exists s :: Supplies(m, s, edge, e) { SuppliedIs(m, edge, e); }
    assert Active(m.tables, EvidenceRecord(id)) <==> id in EvidenceHeld(rows);
    HeldIs(m.journal, id);
    hide Membership, ActiveRows;
    if Membership(rows, edge) != {} {
      var e :| e in Membership(rows, edge);
      var s :| Supplies(m, s, edge, e);
    }
    if s, e :| Supplies(m, s, edge, e) { assert e in Membership(rows, edge); }
  }

  lemma SuppliedIs(m: Memory, edge: EdgeKey, e: EntityId)
    ensures e in Membership(ActiveRows(m.journal), edge) <==> exists s :: Supplies(m, s, edge, e)
  {
    if e in Membership(ActiveRows(m.journal), edge) {
      var p :| p in ActiveRows(m.journal) && edge in p.edges && e in p.evidence;
      var s :| s in m.journal && m.journal[s].state.ActiveSource? && m.journal[s] == p;
      assert Supplies(m, s, edge, e);
    }
    if s :| Supplies(m, s, edge, e) { assert m.journal[s] in ActiveRows(m.journal); }
  }

  lemma HeldIs(journal: map<SourceKey, Projection>, id: EntityId)
    ensures id in EvidenceHeld(ActiveRows(journal)) <==>
              exists s :: s in journal && journal[s].state.ActiveSource? && id in journal[s].evidence
    ensures id in OwnedHeld(ActiveRows(journal)) <==>
              exists s :: s in journal && journal[s].state.ActiveSource? && id in journal[s].owned
  {
    if s :| s in journal && journal[s].state.ActiveSource? && id in journal[s].evidence { assert journal[s] in ActiveRows(journal); }
    if s :| s in journal && journal[s].state.ActiveSource? && id in journal[s].owned { assert journal[s] in ActiveRows(journal); }
  }
}
