/** The projector object: it reads a snapshot, writes the store record by record and journals last. */
module MemoryProjector {
  import opened Wrappers
  import opened BrainTypes
  import opened BrainStore
  import opened MemoryCommands
  import opened BrainMemory
  import Brain = CompanyBrain
  import BrainProjector

  function FactIn(v: Value): EntityFact {
    match v
    case EntityValue(fact) => fact
    case _ => EntityFact("", map[])
  }

  function PointerIn(v: Value): Pointer {
    match v
    case PointerValue(p) => p
    case _ => Pointer("", "", "", {}, {})
  }

  function VisibleEdges(t: Tables): set<EdgeKey> {
    set k | k in t.rows && k.EdgeRecord? && Visible(t, k.edge) :: k.edge
  }

  function ActiveEvidence(t: Tables): set<EntityId> {
    set k | k in t.rows && k.EvidenceRecord? && Active(t, k) :: k.id
  }

  /** The active records as an in-memory model. */
  function SnapshotOf(t: Tables): Brain.Model {
    Brain.Model(
      map id | id in ActiveEntities(t) :: FactIn(t.rows[EntityRecord(id)].value),
      map e | e in ActiveEvidence(t) :: PointerIn(t.rows[EvidenceRecord(e)].value),
      SnapshotEdges(t))
  }

  function SnapshotEdges(t: Tables): map<EdgeKey, set<EntityId>> {
    map edge | edge in VisibleEdges(t) :: EvidenceOf(t, edge)
  }

  lemma CitedAfter(before: map<EdgeKey, set<EntityId>>, ks: set<EdgeKey>, e: EntityId, k: EdgeKey)
    ensures k in Brain.Cite(before, ks, e) && e in Brain.Cite(before, ks, e)[k] <==> k in ks || (k in before && e in before[k])
  {
  }

  /** The edges of the projected model that cite the new evidence are those the row will journal. */
  lemma ProjectedEdges(t: Tables, em: Brain.Emission)
    ensures var edges := Brain.Cite(SnapshotEdges(t), em.edges, em.evidenceId);
            (set k | k in edges && em.evidenceId in edges[k]) == em.edges + EdgesCiting(t, em.evidenceId)
  {
    forall k { CitedAfter(SnapshotEdges(t), em.edges, em.evidenceId, k); }
  }

  /** One command ran to its end, or raised and changed nothing. */
  ghost predicate Performed(t: Tables, c: Command, t': Tables, error: Option<StoreError>) {
    match Perform(t, c)
    case Ok(after) => error.None? && t' == after
    case Err(e) => error == Some(e) && t' == t
  }

  /** A list of commands ran to its end, or up to the one that raised. */
  ghost predicate Ran(t: Tables, cs: seq<Command>, t': Tables, error: Option<StoreError>) {
    if error.None? then RunAll(t, cs) == Ok(t')
    else RunAll(t, cs).Err? && exists n :: 0 <= n < |cs| && RunAll(t, cs[..n]) == Ok(t')
  }

  lemma RanUpTo(t: Tables, cs: seq<Command>, i: nat, t': Tables, error: Option<StoreError>)
    requires i < |cs| && RunAll(t, cs[..i]) == Ok(t')
    requires Perform(t', cs[i]).Err? && error.Some?
    ensures Ran(t, cs, t', error)
  {
    assert cs[..i + 1][..i] == cs[..i];
    RunSplit(t, cs, i + 1);
  }

  lemma RanAll(t: Tables, cs: seq<Command>, t': Tables)
    requires RunAll(t, cs) == Ok(t')
    ensures Ran(t, cs, t', None)
  {
  }

  lemma RanOneMore(t: Tables, cs: seq<Command>, i: nat)
    requires i < |cs| && RunAll(t, cs[..i]).Ok?
    ensures RunAll(t, cs[..i + 1]) == Perform(RunAll(t, cs[..i]).value, cs[i])
  {
    assert cs[..i + 1][..i] == cs[..i];
  }

  lemma RanBoth(t: Tables, a: seq<Command>, mid: Tables, b: seq<Command>, t': Tables, error: Option<StoreError>)
    requires Ran(t, a, mid, None) && Ran(mid, b, t', error)
    ensures Ran(t, a + b, t', error)
  {
    assert (a + b)[..|a|] == a && (a + b)[|a|..] == b;
    RunSplit(t, a + b, |a|);
    if error.Some? {
      var n :| 0 <= n < |b| && RunAll(mid, b[..n]) == Ok(t');
      assert (a + b)[..|a| + n][..|a|] == a && (a + b)[..|a| + n][|a|..] == b[..n];
      RunSplit(t, (a + b)[..|a| + n], |a|);
    }
  }

  lemma RanFirst(t: Tables, a: seq<Command>, b: seq<Command>, t': Tables, error: Option<StoreError>)
    requires error.Some? && Ran(t, a, t', error)
    ensures Ran(t, a + b, t', error)
  {
    assert (a + b)[..|a|] == a;
    RunSplit(t, a + b, |a|);
    var n :| 0 <= n < |a| && RunAll(t, a[..n]) == Ok(t');
    assert (a + b)[..n] == a[..n];
  }

  /** What a call leaves: its whole effect, or the effect of a prefix of its writes. */
  ghost predicate Leaves(o: Collation, m: Memory, call: Call, raised: bool, m': Memory)
    requires Sorts(o)
  {
    if raised then Complete(o, m, call).Err? && exists n :: Reaches(o, m, call, n) && m' == Interrupted(o, m, call, n)
    else Complete(o, m, call) == Ok(m')
  }

  lemma PlanOutcome(o: Collation, m: Memory, call: Call, cs: seq<Command>, row: Projection, m': Memory, raised: bool)
    requires Sorts(o) && PlanOf(o, m, call) == Work(cs, row)
    requires raised <==> RunAll(m.tables, cs).Err?
    requires !raised ==> RunAll(m.tables, cs) == Ok(m'.tables) && m'.journal == m.journal[row.source := row]
    requires raised ==> m'.journal == m.journal && exists n :: 0 <= n <= |cs| && RunAll(m.tables, cs[..n]) == Ok(m'.tables)
    ensures Leaves(o, m, call, raised, m')
  {
    hide PlanOf, RunAll;
    if raised {
      var n :| 0 <= n <= |cs| && RunAll(m.tables, cs[..n]) == Ok(m'.tables);
      assert Reaches(o, m, call, n) && m' == Interrupted(o, m, call, n);
    }
  }

  lemma UpsertPlan(o: Collation, m: Memory, call: Call, row: Projection, m': Memory, raised: bool)
    requires Sorts(o) && !call.Remove? && Closed(m.tables)
    requires call.UpsertDocument? ==> !Brain.SelfReferring(call.document)
    requires Changes(m, call)
    requires var em, p := EmissionOf(m.tables, call), ProvenanceOf(call);
             && row == Contribution(m.tables, SourceOf(call), FingerprintOf(call), p, em)
             && Materialized(o, m, em, row, m', raised)
    ensures Leaves(o, m, call, raised, m')
  {
    var em, p := EmissionOf(m.tables, call), ProvenanceOf(call);
    PlanOutcome(o, m, call, UpsertCommands(o, m, em, row), row, m', raised);
  }

  /** A new or changed record whose snapshot or projection raises is refused before anything is written. */
  lemma RefusedUpsertLeaves(o: Collation, m: Memory, call: Call)
    requires Sorts(o) && !call.Remove? && Changes(m, call)
    requires !Closed(m.tables) || (call.UpsertDocument? && Brain.SelfReferring(call.document))
    ensures Leaves(o, m, call, true, m)
  {
    assert Reaches(o, m, call, 0) && m == Interrupted(o, m, call, 0);
  }

  /** The call is an upsert that conflicts with nothing and is not a replay of what is journaled. */
  predicate Changes(m: Memory, call: Call) {
    var previous := Previous(m, SourceOf(call));
    && !ConflictingReplay(previous, ActiveSource, FingerprintOf(call), ProvenanceOf(call))
    && !(previous.Some? && previous.value.state.ActiveSource? && previous.value.fingerprint == FingerprintOf(call))
  }

  ghost function UpsertCommands(o: Collation, m: Memory, em: Brain.Emission, row: Projection): seq<Command>
    requires Sorts(o)
  {
    assert Lists(o.ids(em.facts.Keys), em.facts.Keys);
    EnsureCommands(o.ids(em.facts.Keys), em, row.provenance)
    + ReconcileCommands(o, Previous(m, row.source), Some(row), Candidates(m.journal, row.source, Some(row)), row.provenance)
  }

  ghost predicate Materialized(o: Collation, m: Memory, em: Brain.Emission, row: Projection, m': Memory, raised: bool)
    requires Sorts(o)
  {
    var cs := UpsertCommands(o, m, em, row);
    && (raised <==> RunAll(m.tables, cs).Err?)
    && (!raised ==> RunAll(m.tables, cs) == Ok(m'.tables) && m'.journal == m.journal[row.source := row])
    && (raised ==> m'.journal == m.journal && exists n :: 0 <= n <= |cs| && RunAll(m.tables, cs[..n]) == Ok(m'.tables))
  }

  lemma SnapshotReads(t: Tables)
    ensures SnapshotOf(t).entities.Keys == ActiveEntities(t) && SnapshotOf(t).edges == SnapshotEdges(t)
  {
  }

  lemma ContributionNames(t: Tables, call: Call, em: Brain.Emission, row: Projection)
    requires row == Contribution(t, SourceOf(call), FingerprintOf(call), ProvenanceOf(call), em)
    ensures row.source == SourceOf(call)
  {
  }

  lemma RelatableIffGrounded(t: Tables, edge: EdgeKey)
    requires edge in VisibleEdges(t)
    ensures edge.source in ActiveEntities(t) && edge.target in ActiveEntities(t)
    ensures Grounded(t, edge) <==> edge.source != edge.target && EvidenceOf(t, edge) <= ActiveEvidence(t)
  {
    forall e ensures e in ActiveEvidence(t) <==> Active(t, EvidenceRecord(e)) {}
  }

  class Projector {
    const store: CompanyBrainStore
    const o: Collation
    var journal: map<SourceKey, Projection>

    ghost function State(): Memory
      reads this, store
    {
      Memory(store.State(), journal)
    }

    constructor (store: CompanyBrainStore, o: Collation)
      ensures this.store == store && this.o == o && journal == map[]
    {
      this.store, this.o, journal := store, o, map[];
    }

    method EnsureEntityFact(id: EntityId, fact: EntityFact, p: Provenance) returns (error: Option<StoreError>)
      modifies store
      ensures Performed(old(store.State()), EnsureEntity(id, fact, p), store.State(), error)
    {
      var k := EntityRecord(id);
      if k in store.rows && store.rows[k].deletion.None? && store.rows[k].value == EntityValue(fact) { return None; }
      error := store.Put(k, EntityValue(fact), p, DEFAULT_RETENTION, None);
    }

    method EnsurePointer(id: EntityId, pointer: Pointer, p: Provenance) returns (error: Option<StoreError>)
      modifies store
      ensures Performed(old(store.State()), EnsureEvidence(id, pointer, p), store.State(), error)
    {
      var k := EvidenceRecord(id);
      if k in store.rows && store.rows[k].deletion.None? && store.rows[k].value == PointerValue(pointer) { return None; }
      error := store.PutEvidence(id, pointer, p, DEFAULT_RETENTION, None);
    }

    method Settle(edge: EdgeKey, evidence: set<EntityId>, p: Provenance) returns (error: Option<StoreError>)
      modifies store
      ensures Performed(old(store.State()), SettleEdge(edge, evidence, p), store.State(), error)
    {
      var k := EdgeRecord(edge);
      var current := if k in store.rows && store.rows[k].deletion.None? then Some(store.rows[k]) else None;
      if evidence == {} {
        if current.None? { return None; }
        error := store.DeleteEdge(edge, current.value.version, NO_CONTRIBUTOR);
      } else {
        if current.Some? && current.value.value == EdgeValue(evidence) { return None; }
        error := store.PutEdge(edge, evidence, p, DEFAULT_RETENTION, None);
      }
    }

    method RetirePointer(id: EntityId) returns (error: Option<StoreError>)
      modifies store
      ensures Performed(old(store.State()), RetireEvidence(id), store.State(), error)
    {
      var k := EvidenceRecord(id);
      if k !in store.rows || store.rows[k].deletion.Some? { return None; }
      error := store.DeleteEvidence(id, store.rows[k].version, SUPERSEDED);
    }

    method RetireFact(id: EntityId) returns (error: Option<StoreError>)
      modifies store
      ensures Performed(old(store.State()), RetireEntity(id), store.State(), error)
    {
      var k := EntityRecord(id);
      if k !in store.rows || store.rows[k].deletion.Some? { return None; }
      error := store.DeleteEntity(id, store.rows[k].version, SUPERSEDED);
    }

    /** Write the entities and the evidence of an emission. */
    method Ensure(ids: seq<EntityId>, em: Brain.Emission, p: Provenance) returns (error: Option<StoreError>)
      requires forall id :: id in ids ==> id in em.facts
      modifies store
      ensures Ran(old(store.State()), EnsureCommands(ids, em, p), store.State(), error)
    {
      ghost var t, cs := store.State(), EnsureCommands(ids, em, p);
      for i := 0 to |ids|
        invariant RunAll(t, cs[..i]) == Ok(store.State())
      {
        RanOneMore(t, cs, i);
        error := EnsureEntityFact(ids[i], em.facts[ids[i]], p);
        if error.Some? {
          RanUpTo(t, cs, i, store.State(), error);
          return;
        }
      }
      RanOneMore(t, cs, |ids|);
      error := EnsurePointer(em.evidenceId, em.pointer, p);
      if error.Some? { RanUpTo(t, cs, |ids|, store.State(), error); }
      assert cs[..|ids| + 1] == cs;
    }

    /** Bring every affected edge to the evidence its contributing rows hold. */
    method ReconcileRelationships(edges: seq<EdgeKey>, rows: set<Projection>, p: Provenance) returns (error: Option<StoreError>)
      modifies store
      ensures Ran(old(store.State()), SettleCommands(edges, rows, o.rows(rows), p), store.State(), error)
    {
      ghost var t, cs := store.State(), SettleCommands(edges, rows, o.rows(rows), p);
      var order := o.rows(rows);
      for i := 0 to |edges|
        invariant RunAll(t, cs[..i]) == Ok(store.State())
      {
        RanOneMore(t, cs, i);
        error := Settle(edges[i], Membership(rows, edges[i]), FirstProvenance(order, edges[i], p));
        if error.Some? {
          RanUpTo(t, cs, i, store.State(), error);
          return;
        }
      }
      error := None;
      assert cs[..|edges|] == cs;
    }

    /** Tombstone the evidence and the owned entities no row needs any more. */
    method RetireUnreferenced(evidence: seq<EntityId>, owned: seq<EntityId>) returns (error: Option<StoreError>)
      modifies store
      ensures Ran(old(store.State()), RetireCommands(evidence, owned), store.State(), error)
    {
      ghost var t, cs := store.State(), RetireCommands(evidence, owned);
      assert cs[..0] == [];
      assert RunAll(t, cs[..0]) == Ok(t);
      hide Perform, RunAll, Ran;
      for i := 0 to |evidence|
        invariant RunAll(t, cs[..i]) == Ok(store.State())
      {
        RanOneMore(t, cs, i);
        error := RetirePointer(evidence[i]);
        if error.Some? {
          RanUpTo(t, cs, i, store.State(), error);
          return;
        }
      }
      for i := 0 to |owned|
        invariant RunAll(t, cs[..|evidence| + i]) == Ok(store.State())
      {
        RanOneMore(t, cs, |evidence| + i);
        error := RetireFact(owned[i]);
        if error.Some? {
          RanUpTo(t, cs, |evidence| + i, store.State(), error);
          return;
        }
      }
      error := None;
      assert cs[..|evidence| + |owned|] == cs;
      RanAll(t, cs, store.State());
    }

    method Reconcile(previous: Option<Projection>, next: Option<Projection>, rows: set<Projection>, p: Provenance)
      returns (error: Option<StoreError>)
      modifies store
      ensures Ran(old(store.State()), ReconcileCommands(o, previous, next, rows, p), store.State(), error)
    {
      ghost var t := store.State();
      var edges := o.edges(EdgesOf(previous) + EdgesOf(next));
      var evidence, owned := o.ids(EvidenceIn(previous) - EvidenceHeld(rows)), o.ids(OwnedIn(previous) - OwnedHeld(rows));
      ghost var a, b := SettleCommands(edges, rows, o.rows(rows), p), RetireCommands(evidence, owned);
      error := ReconcileRelationships(edges, rows, p);
      if error.Some? {
        RanFirst(t, a, b, store.State(), error);
        return;
      }
      ghost var mid := store.State();
      error := RetireUnreferenced(evidence, owned);
      RanBoth(t, a, mid, b, store.State(), error);
    }

    /** Relate every visible edge; it fails exactly when one of them lacks its ground. */
    method RelateAll(brain: Brain.CompanyBrain, visible: set<EdgeKey>, ghost t: Tables) returns (raised: bool)
      requires store.State() == t && visible == VisibleEdges(t)
      requires brain.entities.Keys == ActiveEntities(t) && brain.evidence.Keys == ActiveEvidence(t) && brain.edges == map[]
      modifies brain`edges
      ensures !raised <==> forall edge :: edge in visible ==> Grounded(t, edge)
      ensures !raised ==> brain.edges == map edge | edge in visible :: EvidenceOf(t, edge)
    {
      hide Active, Visible, VisibleEdges, ActiveEntities, ActiveEvidence, EvidenceOf, Grounded;
      var todo := visible;
      while todo != {}
        invariant todo <= visible && brain.edges.Keys == visible - todo
        invariant forall edge :: edge in visible - todo ==> brain.edges[edge] == EvidenceOf(t, edge) && Grounded(t, edge)
        decreases |todo|
      {
        var edge :| edge in todo;
        var cited := EvidenceOf(Tables(store.rows, store.audit), edge);
        RelatableIffGrounded(t, edge);
        raised := brain.Relate(edge, cited);
        if raised { return; }
        todo := todo - {edge};
      }
      raised := false;
    }

    /** Rebuild the active model. */
    method Snapshot() returns (raised: bool, brain: Brain.CompanyBrain)
      ensures fresh(brain)
      ensures !raised <==> Closed(store.State())
      ensures !raised ==> brain.State() == SnapshotOf(store.State())
    {
      brain := new Brain.CompanyBrain();
      var t := Tables(store.rows, store.audit);
      brain.entities := map id | id in ActiveEntities(t) :: FactIn(t.rows[EntityRecord(id)].value);
      brain.evidence := map e | e in ActiveEvidence(t) :: PointerIn(t.rows[EvidenceRecord(e)].value);
      raised := RelateAll(brain, VisibleEdges(t), t);
      assert forall edge :: edge in VisibleEdges(t) <==> Visible(t, edge);
    }

    /** Write an emission and its edges, retire what is superseded, then journal the row. */
    method Materialize(previous: Option<Projection>, em: Brain.Emission, row: Projection) returns (raised: bool)
      requires Sorts(o) && previous == Previous(State(), row.source)
      modifies this`journal, store
      ensures Materialized(o, old(State()), em, row, State(), raised)
    {
      ghost var t := store.State();
      var rows := Candidates(journal, row.source, Some(row));
      assert Lists(o.ids(em.facts.Keys), em.facts.Keys);
      ghost var a := EnsureCommands(o.ids(em.facts.Keys), em, row.provenance);
      ghost var b := ReconcileCommands(o, previous, Some(row), rows, row.provenance);
      var error := Ensure(o.ids(em.facts.Keys), em, row.provenance);
      if error.Some? {
        RanFirst(t, a, b, store.State(), error);
        return true;
      }
      ghost var mid := store.State();
      error := Reconcile(previous, Some(row), rows, row.provenance);
      RanBoth(t, a, mid, b, store.State(), error);
      if error.Some? { return true; }
      journal := journal[row.source := row];
      raised := false;
    }

    /** Reconcile and retire a removed source's contribution, then journal its tombstone. */
    method Delete(source: SourceKey, f: Fingerprint, p: Provenance, ghost call: Call) returns (raised: bool)
      requires Sorts(o) && call.Remove? && source == SourceOf(call) && f == FingerprintOf(call) && p == ProvenanceOf(call)
      requires !ConflictingReplay(Previous(State(), source), DeletedSource, f, p)
      modifies this`journal, store
      ensures Leaves(o, old(State()), call, raised, State())
    {
      ghost var m := State();
      if source !in journal {
        journal := journal[source := Projection(source, DeletedSource, f, p, {}, {}, {}, {})];
        return false;
      }
      var previous := journal[source];
      if previous.state.DeletedSource? { return false; }
      var rows := Candidates(journal, source, None);
      ghost var cs := ReconcileCommands(o, Some(previous), None, rows, p);
      var error := Reconcile(Some(previous), None, rows, p);
      if error.Some? {
        ghost var n :| 0 <= n < |cs| && RunAll(m.tables, cs[..n]) == Ok(store.State());
        assert Reaches(o, m, call, n) && State() == Interrupted(o, m, call, n);
        return true;
      }
      journal := journal[source := TombstoneRow(previous, source, f, p)];
      raised := false;
    }

    /** Project the record into the snapshot and read its contribution back. */
    method Contribute(call: Call, brain: Brain.CompanyBrain, ghost t: Tables)
      returns (raised: bool, em: Brain.Emission, row: Projection)
      requires !call.Remove? && brain.entities.Keys == ActiveEntities(t) && brain.edges == SnapshotEdges(t)
      modifies brain
      ensures raised <==> call.UpsertDocument? && Brain.SelfReferring(call.document)
      ensures !raised ==> em == EmissionOf(t, call)
      ensures !raised ==> row == Contribution(t, SourceOf(call), FingerprintOf(call), ProvenanceOf(call), em)
    {
      var projector := new BrainProjector.CompanyBrainProjector(brain);
      raised := false;
      if call.UpsertFile? {
        em := Brain.FileEmission(call.change);
        projector.ProjectFileChange(call.change);
      } else {
        em := Brain.DocumentEmission(call.document, brain.entities.Keys);
        var unresolved;
        raised, unresolved := projector.ProjectKnowledgeDocument(call.document);
      }
      ProjectedEdges(t, em);
      row := Projection(SourceOf(call), ActiveSource, FingerprintOf(call), ProvenanceOf(call), em.facts.Keys,
                        set id | id in em.facts && SourceOwned(id.kind) :: id, {em.evidenceId},
                        set k | k in brain.edges && em.evidenceId in brain.edges[k]);
    }

    /** Project a new or changed record: snapshot, emission, writes, journal. */
    method Upsert(call: Call) returns (raised: bool)
      requires Sorts(o) && !call.Remove? && Changes(State(), call)
      modifies this`journal, store
      ensures Leaves(o, old(State()), call, raised, State())
    {
      hide Leaves, Materialized, Contribution, EmissionOf, SnapshotEdges, Closed, Changes, ActiveEntities;
      ghost var m := State();
      var failed, brain := Snapshot();
      if failed {
        RefusedUpsertLeaves(o, m, call);
        return true;
      }
      SnapshotReads(m.tables);
      var refused, em, row := Contribute(call, brain, m.tables);
      if refused {
        RefusedUpsertLeaves(o, m, call);
        return true;
      }
      ContributionNames(m.tables, call, em, row);
      var previous := if row.source in journal then Some(journal[row.source]) else None;
      raised := Materialize(previous, em, row);
      UpsertPlan(o, m, call, row, State(), raised);
    }

    /** One governed change: it returns with its whole effect, or raises after a prefix of its writes. */
    method ProjectChange(call: Call) returns (raised: bool)
      requires Sorts(o)
      modifies this`journal, store
      ensures Leaves(o, old(State()), call, raised, State())
    {
      var source, f, p := SourceOf(call), FingerprintOf(call), ProvenanceOf(call);
      var previous := if source in journal then Some(journal[source]) else None;
      if ConflictingReplay(previous, StateOf(call), f, p) {
        assert Reaches(o, State(), call, 0) && State() == Interrupted(o, State(), call, 0);
        return true;
      }
      if call.Remove? {
        raised := Delete(source, f, p, call);
      } else if previous.Some? && previous.value.state.ActiveSource? && previous.value.fingerprint == f {
        raised := false;
      } else {
        raised := Upsert(call);
      }
    }
  }
}
