/** What the commands of a call are, and that no two of them write the same record. */
module MemoryPlans {
  import opened Wrappers
  import opened BrainTypes
  import opened BrainStore
  import opened MemoryCommands
  import opened BrainMemory
  import Brain = CompanyBrain

  /** A journal row holds evidence of its own source only, and owns no shared and no structural entity. */
  ghost predicate RowOk(s: SourceKey, p: Projection) {
    && p.source == s
    && (forall e :: e in p.evidence ==> e.kind == Evidence && e.name.Revision? && e.name.source == s)
    && (forall e, e' :: e in p.evidence && e' in p.evidence ==> e == e')
    && (forall id :: id in p.owned ==> SourceOwned(id.kind) && id.kind != Evidence)
    && (p.state.ActiveSource? ==> p.evidence != {})
  }

  ghost predicate JournalOk(m: Memory) {
    forall s :: s in m.journal ==> RowOk(s, m.journal[s])
  }

  predicate EmissionOk(source: SourceKey, em: Brain.Emission) {
    && em.evidenceId.kind == Evidence && em.evidenceId.name.Revision? && em.evidenceId.name.source == source
    && forall id :: id in em.facts ==> id.kind != Evidence
  }

  lemma EmissionsAreOk(t: Tables, call: Call)
    requires !call.Remove?
    ensures EmissionOk(SourceOf(call), EmissionOf(t, call))
  {
  }

  lemma ContributionIsOk(t: Tables, s: SourceKey, f: Fingerprint, p: Provenance, em: Brain.Emission)
    requires EmissionOk(s, em)
    ensures RowOk(s, Contribution(t, s, f, p, em))
  {
  }

  /** The row a call journals is well formed, so the journal stays so. */
  lemma PlannedRowIsOk(o: Collation, m: Memory, call: Call)
    requires Sorts(o) && JournalOk(m) && PlanOf(o, m, call).Work?
    ensures RowOk(SourceOf(call), PlanOf(o, m, call).row)
  {
    if !call.Remove? {
      EmissionsAreOk(m.tables, call);
      ContributionIsOk(m.tables, SourceOf(call), FingerprintOf(call), ProvenanceOf(call), EmissionOf(m.tables, call));
    }
  }

  lemma IndependentConcat(a: seq<Command>, b: seq<Command>)
    requires Independent(a) && Independent(b)
    requires forall c, d :: c in a && d in b ==> Targets(c) !! Targets(d)
    ensures Independent(a + b)
  {
  }

  lemma EnsureShape(ids: seq<EntityId>, em: Brain.Emission, p: Provenance, c: Command)
    requires forall id :: id in ids ==> id in em.facts
    ensures c in EnsureCommands(ids, em, p) <==>
              || (c.EnsureEntity? && c.id in ids && c == EnsureEntity(c.id, em.facts[c.id], p))
              || c == EnsureEvidence(em.evidenceId, em.pointer, p)
  {
    var cs := EnsureCommands(ids, em, p);
    if c.EnsureEntity? && c.id in ids && c == EnsureEntity(c.id, em.facts[c.id], p) {
      var i :| 0 <= i < |ids| && ids[i] == c.id;
      assert cs[i] == c;
    }
    if c == EnsureEvidence(em.evidenceId, em.pointer, p) { assert cs[|ids|] == c; }
  }

  lemma SettleShape(edges: seq<EdgeKey>, rows: set<Projection>, order: seq<Projection>, p: Provenance, c: Command)
    ensures c in SettleCommands(edges, rows, order, p) <==>
              c.SettleEdge? && c.edge in edges &&
              c == SettleEdge(c.edge, Membership(rows, c.edge), FirstProvenance(order, c.edge, p))
  {
    var cs := SettleCommands(edges, rows, order, p);
    if c.SettleEdge? && c.edge in edges && c == SettleEdge(c.edge, Membership(rows, c.edge), FirstProvenance(order, c.edge, p)) {
      var i :| 0 <= i < |edges| && edges[i] == c.edge;
      assert cs[i] == c;
    }
  }

  lemma RetireShape(evidence: seq<EntityId>, owned: seq<EntityId>, c: Command)
    ensures c in RetireCommands(evidence, owned) <==>
              (c.RetireEvidence? && c.id in evidence) || (c.RetireEntity? && c.id in owned)
  {
    var cs := RetireCommands(evidence, owned);
    if c.RetireEvidence? && c.id in evidence {
      var i :| 0 <= i < |evidence| && evidence[i] == c.id;
      assert cs[i] == c;
    }
    if c.RetireEntity? && c.id in owned {
      var i :| 0 <= i < |owned| && owned[i] == c.id;
      assert cs[|evidence| + i] == c;
    }
  }

  /** The commands that reconcile a source from `previous` to `next` when `rows` are the rows that count. */
  ghost predicate Reconciling(o: Collation, previous: Option<Projection>, next: Option<Projection>,
                              rows: set<Projection>, p: Provenance, c: Command)
  {
    match c
    case SettleEdge(edge, evidence, provenance) =>
      && edge in EdgesOf(previous) + EdgesOf(next)
      && evidence == Membership(rows, edge) && provenance == FirstProvenance(o.rows(rows), edge, p)
    case RetireEvidence(id) => id in EvidenceIn(previous) - EvidenceHeld(rows)
    case RetireEntity(id) => id in OwnedIn(previous) - OwnedHeld(rows)
    case _ => false
  }

  lemma ReconcileShape(o: Collation, previous: Option<Projection>, next: Option<Projection>,
                       rows: set<Projection>, p: Provenance, c: Command)
    requires Sorts(o)
    ensures c in ReconcileCommands(o, previous, next, rows, p) <==> Reconciling(o, previous, next, rows, p, c)
  {
    var edges := o.edges(EdgesOf(previous) + EdgesOf(next));
    var evidence, owned := o.ids(EvidenceIn(previous) - EvidenceHeld(rows)), o.ids(OwnedIn(previous) - OwnedHeld(rows));
    SettleShape(edges, rows, o.rows(rows), p, c);
    RetireShape(evidence, owned, c);
    assert Lists(edges, EdgesOf(previous) + EdgesOf(next));
    assert Lists(evidence, EvidenceIn(previous) - EvidenceHeld(rows));
    assert Lists(owned, OwnedIn(previous) - OwnedHeld(rows));
  }

  ghost predicate Distinct<T(!new)>(q: seq<T>) {
    forall i, j :: 0 <= i < j < |q| ==> q[i] != q[j]
  }

  lemma RetireIsIndependent(evidence: seq<EntityId>, owned: seq<EntityId>)
    requires Distinct(evidence) && Distinct(owned)
    requires forall e :: e in evidence ==> e.kind == Evidence
    requires forall id :: id in owned ==> id.kind != Evidence
    ensures Independent(RetireCommands(evidence, owned))
  {
    var a := seq(|evidence|, i requires 0 <= i < |evidence| => RetireEvidence(evidence[i]));
    var b := seq(|owned|, i requires 0 <= i < |owned| => RetireEntity(owned[i]));
    forall c, d | c in a && d in b ensures Targets(c) !! Targets(d) {
      assert c.id in evidence && d.id in owned;
    }
    IndependentConcat(a, b);
  }

  lemma EnsureIsIndependent(ids: seq<EntityId>, em: Brain.Emission, p: Provenance)
    requires Distinct(ids) && forall id :: id in ids ==> id in em.facts && id.kind != Evidence
    requires em.evidenceId.kind == Evidence
    ensures Independent(EnsureCommands(ids, em, p))
  {
    var a := seq(|ids|, i requires 0 <= i < |ids| => EnsureEntity(ids[i], em.facts[ids[i]], p));
    var b := [EnsureEvidence(em.evidenceId, em.pointer, p)];
    forall c, d | c in a && d in b ensures Targets(c) !! Targets(d) {
      assert c.id in ids;
    }
    IndependentConcat(a, b);
  }

  lemma ReconcileIsIndependent(o: Collation, previous: Option<Projection>, next: Option<Projection>,
                               rows: set<Projection>, p: Provenance)
    requires Sorts(o)
    requires previous.Some? ==> RowOk(previous.value.source, previous.value)
    ensures Independent(ReconcileCommands(o, previous, next, rows, p))
  {
    var edges := o.edges(EdgesOf(previous) + EdgesOf(next));
    var evidence, owned := o.ids(EvidenceIn(previous) - EvidenceHeld(rows)), o.ids(OwnedIn(previous) - OwnedHeld(rows));
    assert Lists(edges, EdgesOf(previous) + EdgesOf(next));
    assert Lists(evidence, EvidenceIn(previous) - EvidenceHeld(rows));
    assert Lists(owned, OwnedIn(previous) - OwnedHeld(rows));
    var settle, retire := SettleCommands(edges, rows, o.rows(rows), p), RetireCommands(evidence, owned);
    assert Independent(settle);
    RetireIsIndependent(evidence, owned);
    forall c, d | c in settle && d in retire ensures Targets(c) !! Targets(d) {
      SettleShape(edges, rows, o.rows(rows), p, c);
      RetireShape(evidence, owned, d);
    }
    IndependentConcat(settle, retire);
  }

  lemma UpsertIsIndependent(o: Collation, previous: Option<Projection>, next: Projection, em: Brain.Emission,
                            rows: set<Projection>, p: Provenance, source: SourceKey)
    requires Sorts(o) && EmissionOk(source, em)
    requires previous.Some? ==> RowOk(previous.value.source, previous.value)
    requires next in rows && next.evidence == {em.evidenceId}
    requires forall id :: id in em.facts && SourceOwned(id.kind) ==> id in next.owned
    requires forall id :: id in o.ids(em.facts.Keys) ==> id in em.facts
    ensures Independent(EnsureCommands(o.ids(em.facts.Keys), em, p) + ReconcileCommands(o, previous, Some(next), rows, p))
  {
    var ids := o.ids(em.facts.Keys);
    assert Lists(ids, em.facts.Keys);
    var ensure, reconcile := EnsureCommands(ids, em, p), ReconcileCommands(o, previous, Some(next), rows, p);
    EnsureIsIndependent(ids, em, p);
    ReconcileIsIndependent(o, previous, Some(next), rows, p);
    forall c, d | c in ensure && d in reconcile ensures Targets(c) !! Targets(d) {
      EnsureShape(ids, em, p, c);
      ReconcileShape(o, previous, Some(next), rows, p, d);
    }
    IndependentConcat(ensure, reconcile);
  }

  /** No two store writes of a call touch the same record. */
  lemma PlanIsIndependent(o: Collation, m: Memory, call: Call)
    requires Sorts(o) && JournalOk(m)
    ensures Independent(CommandsOf(PlanOf(o, m, call)))
  {
    var plan, source, p := PlanOf(o, m, call), SourceOf(call), ProvenanceOf(call);
    var previous := Previous(m, source);
    if plan.Work? && call.Remove? {
      if previous.Some? { ReconcileIsIndependent(o, previous, None, Candidates(m.journal, source, None), p); }
    } else if plan.Work? {
      var em := EmissionOf(m.tables, call);
      assert Lists(o.ids(em.facts.Keys), em.facts.Keys);
      EmissionsAreOk(m.tables, call);
      UpsertIsIndependent(o, previous, plan.row, em, Candidates(m.journal, source, Some(plan.row)), p, source);
    }
  }

  /** The new row of an upsert; a removal has none. */
  function NextOf(call: Call, row: Projection): Option<Projection> {
    if call.Remove? then None else Some(row)
  }

  function EmittedBy(t: Tables, call: Call): Option<Brain.Emission> {
    if call.Remove? then None else Some(EmissionOf(t, call))
  }

  /** Which commands a change of one source is made of. */
  ghost predicate Wants(o: Collation, previous: Option<Projection>, next: Option<Projection>, rows: set<Projection>,
                        em: Option<Brain.Emission>, p: Provenance, c: Command)
  {
    || (em.Some? && c.EnsureEntity? && c.id in em.value.facts && c == EnsureEntity(c.id, em.value.facts[c.id], p))
    || (em.Some? && c == EnsureEvidence(em.value.evidenceId, em.value.pointer, p))
    || Reconciling(o, previous, next, rows, p, c)
  }

  /** The new row and the emission it was made of belong together. */
  ghost predicate Matches(source: SourceKey, next: Option<Projection>, em: Option<Brain.Emission>) {
    && (next.Some? <==> em.Some?)
    && (next.Some? ==>
          && RowOk(source, next.value) && EmissionOk(source, em.value)
          && next.value.evidence == {em.value.evidenceId}
          && next.value.owned == (set id | id in em.value.facts && SourceOwned(id.kind) :: id))
  }

  /** `cs` are the writes that take one source of a journal from its previous row to `next`. */
  ghost predicate Carries(o: Collation, journal: map<SourceKey, Projection>, source: SourceKey,
                          next: Option<Projection>, em: Option<Brain.Emission>, p: Provenance, cs: seq<Command>)
  {
    var previous := if source in journal then Some(journal[source]) else None;
    && Independent(cs) && Phased(cs)
    && Matches(source, next, em)
    && (previous.Some? ==> RowOk(source, previous.value))
    && forall c :: c in cs <==> Wants(o, previous, next, Candidates(journal, source, next), em, p, c)
  }

  /** Facts first, then edges, then evidence is retired, then entities. */
  function Phase(c: Command): nat {
    match c
    case EnsureEntity(_, _, _) => 0
    case EnsureEvidence(_, _, _) => 0
    case SettleEdge(_, _, _) => 1
    case RetireEvidence(_) => 2
    case RetireEntity(_) => 3
  }

  ghost predicate Phased(cs: seq<Command>) {
    forall i, j :: 0 <= i < j < |cs| ==> Phase(cs[i]) <= Phase(cs[j])
  }

  lemma ReconcileIsPhased(o: Collation, previous: Option<Projection>, next: Option<Projection>,
                          rows: set<Projection>, p: Provenance)
    ensures Phased(ReconcileCommands(o, previous, next, rows, p))
    ensures forall c :: c in ReconcileCommands(o, previous, next, rows, p) ==> Phase(c) > 0
  {
  }

  lemma PlanIsPhased(o: Collation, m: Memory, call: Call)
    requires Sorts(o)
    ensures Phased(CommandsOf(PlanOf(o, m, call)))
  {
    var plan, source, p := PlanOf(o, m, call), SourceOf(call), ProvenanceOf(call);
    var previous := Previous(m, source);
    if plan.Work? {
      var next := NextOf(call, plan.row);
      ReconcileIsPhased(o, previous, next, Candidates(m.journal, source, next), p);
      if !call.Remove? {
        var em := EmissionOf(m.tables, call);
        assert Lists(o.ids(em.facts.Keys), em.facts.Keys);
        assert forall c :: c in EnsureCommands(o.ids(em.facts.Keys), em, p) ==> Phase(c) == 0;
      }
    }
  }

  /** The plan of a call carries its source to the planned row. */
  lemma PlanCarries(o: Collation, m: Memory, call: Call)
    requires Sorts(o) && JournalOk(m) && PlanOf(o, m, call).Work?
    ensures var Work(cs, row) := PlanOf(o, m, call);
            && row.source == SourceOf(call) && RowOk(row.source, row)
            && (row.state.ActiveSource? <==> !call.Remove?)
            && Carries(o, m.journal, SourceOf(call), NextOf(call, row), EmittedBy(m.tables, call), ProvenanceOf(call), cs)
  {
    var plan, source, p := PlanOf(o, m, call), SourceOf(call), ProvenanceOf(call);
    var previous, next := Previous(m, source), NextOf(call, plan.row);
    PlannedRowIsOk(o, m, call);
    PlanIsIndependent(o, m, call);
    PlanIsPhased(o, m, call);
    var rows := Candidates(m.journal, source, next);
    if call.Remove? {
      forall c ensures c in plan.commands <==> Wants(o, previous, next, rows, None, p, c) {
        if previous.Some? { ReconcileShape(o, previous, next, rows, p, c); }
      }
    } else {
      var em := EmissionOf(m.tables, call);
      EmissionsAreOk(m.tables, call);
      var ids := o.ids(em.facts.Keys);
      assert Lists(ids, em.facts.Keys);
      forall c ensures c in plan.commands <==> Wants(o, previous, next, rows, Some(em), p, c) {
        EnsureShape(ids, em, p, c);
        ReconcileShape(o, previous, next, rows, p, c);
      }
    }
  }

  ghost predicate EdgeSettled(t: Tables, edge: EdgeKey, evidence: set<EntityId>) {
    if evidence == {} then !Active(t, EdgeRecord(edge)) else Holds(t, EdgeRecord(edge), EdgeValue(evidence))
  }

  lemma CarriedIsSettled(t: Tables, cs: seq<Command>, c: Command)
    requires Independent(cs) && RunAll(t, cs).Ok? && c in cs
    ensures Settled(RunAll(t, cs).value, c)
  {
    var i :| 0 <= i < |cs| && cs[i] == c;
    RunSettles(t, cs, i);
  }

  lemma CarriedEdge(o: Collation, journal: map<SourceKey, Projection>, source: SourceKey, next: Option<Projection>,
                    em: Option<Brain.Emission>, p: Provenance, cs: seq<Command>, t: Tables, edge: EdgeKey)
    requires Carries(o, journal, source, next, em, p, cs) && RunAll(t, cs).Ok?
    ensures var previous := if source in journal then Some(journal[source]) else None;
            var rows := Candidates(journal, source, next);
            if edge in EdgesOf(previous) + EdgesOf(next)
            then EdgeSettled(RunAll(t, cs).value, edge, Membership(rows, edge))
            else SameRow(t, RunAll(t, cs).value, EdgeRecord(edge))
  {
    var previous := if source in journal then Some(journal[source]) else None;
    var rows := Candidates(journal, source, next);
    if edge in EdgesOf(previous) + EdgesOf(next) {
      CarriedIsSettled(t, cs, SettleEdge(edge, Membership(rows, edge), FirstProvenance(o.rows(rows), edge, p)));
    } else {
      forall i | 0 <= i < |cs| ensures EdgeRecord(edge) !in Targets(cs[i]) { assert cs[i] in cs; }
      RunKeeps(t, cs, EdgeRecord(edge));
    }
  }

  lemma CarriedEvidence(o: Collation, journal: map<SourceKey, Projection>, source: SourceKey, next: Option<Projection>,
                        em: Option<Brain.Emission>, p: Provenance, cs: seq<Command>, t: Tables, e: EntityId)
    requires Carries(o, journal, source, next, em, p, cs) && RunAll(t, cs).Ok?
    ensures var previous := if source in journal then Some(journal[source]) else None;
            var rows := Candidates(journal, source, next);
            if e in EvidenceIn(next) then Active(RunAll(t, cs).value, EvidenceRecord(e))
            else if e in EvidenceIn(previous) - EvidenceHeld(rows) then !Active(RunAll(t, cs).value, EvidenceRecord(e))
            else SameRow(t, RunAll(t, cs).value, EvidenceRecord(e))
  {
    var previous := if source in journal then Some(journal[source]) else None;
    if e in EvidenceIn(next) {
      CarriedIsSettled(t, cs, EnsureEvidence(em.value.evidenceId, em.value.pointer, p));
    } else if e in EvidenceIn(previous) - EvidenceHeld(Candidates(journal, source, next)) {
      CarriedIsSettled(t, cs, RetireEvidence(e));
    } else {
      forall i | 0 <= i < |cs| ensures EvidenceRecord(e) !in Targets(cs[i]) { assert cs[i] in cs; }
      RunKeeps(t, cs, EvidenceRecord(e));
    }
  }

  lemma CarriedEntity(o: Collation, journal: map<SourceKey, Projection>, source: SourceKey, next: Option<Projection>,
                      em: Option<Brain.Emission>, p: Provenance, cs: seq<Command>, t: Tables, id: EntityId)
    requires Carries(o, journal, source, next, em, p, cs) && RunAll(t, cs).Ok?
    requires SourceOwned(id.kind) && id.kind != Evidence
    ensures var previous := if source in journal then Some(journal[source]) else None;
            var rows := Candidates(journal, source, next);
            if id in OwnedIn(next) then Active(RunAll(t, cs).value, EntityRecord(id))
            else if id in OwnedIn(previous) - OwnedHeld(rows) then !Active(RunAll(t, cs).value, EntityRecord(id))
            else SameRow(t, RunAll(t, cs).value, EntityRecord(id))
  {
    var previous := if source in journal then Some(journal[source]) else None;
    if id in OwnedIn(next) {
      CarriedIsSettled(t, cs, EnsureEntity(id, em.value.facts[id], p));
    } else if id in OwnedIn(previous) - OwnedHeld(Candidates(journal, source, next)) {
      CarriedIsSettled(t, cs, RetireEntity(id));
    } else {
      forall i | 0 <= i < |cs| ensures EntityRecord(id) !in Targets(cs[i]) { assert cs[i] in cs; }
      RunKeeps(t, cs, EntityRecord(id));
    }
  }
}
