/** Running a cut-off change again gives what one uninterrupted run would have given. */
module MemoryReplay {
  import opened Wrappers
  import opened BrainTypes
  import opened BrainStore
  import opened MemoryCommands
  import opened BrainMemory
  import opened MemoryPlans
  import opened MemoryClosure
  import opened MemoryRuns
  import opened MemoryRetries
  import Brain = CompanyBrain

  /** The entities a change takes out of service, structural evidence entities included. */
  function RetiredIds(journal: map<SourceKey, Projection>, source: SourceKey, next: Option<Projection>): set<EntityId> {
    Retiring(journal, source, next) + (OwnedIn(PreviousIn(journal, source)) - OwnedHeld(Candidates(journal, source, next)))
  }

  /** An upsert that relates its record to an entity the same upsert retires. */
  ghost predicate RetiresItsOwn(o: Collation, m: Memory, call: Call)
    requires Sorts(o)
  {
    var plan := PlanOf(o, m, call);
    plan.Work? && !call.Remove? &&
    exists edge :: edge in plan.row.edges &&
      {edge.source, edge.target} * RetiredIds(m.journal, SourceOf(call), Some(plan.row)) != {}
  }

  lemma RetiredByARetirement(o: Collation, journal: map<SourceKey, Projection>, source: SourceKey, next: Option<Projection>,
                             em: Option<Brain.Emission>, p: Provenance, cs: seq<Command>, id: EntityId)
    requires Carries(o, journal, source, next, em, p, cs)
    ensures id in RetiredIds(journal, source, next) <==>
              exists c :: c in cs && (c.RetireEvidence? || c.RetireEntity?) && c.id == id
  {
    if id in Retiring(journal, source, next) {
      assert RetireEvidence(id) in cs;
    } else if id in RetiredIds(journal, source, next) {
      assert RetireEntity(id) in cs;
    }
  }

  /** An entity that is not retired stays active at every write. */
  lemma StaysActive(o: Collation, journal: map<SourceKey, Projection>, source: SourceKey, next: Option<Projection>,
                    em: Option<Brain.Emission>, p: Provenance, cs: seq<Command>, t: Tables, n: nat, id: EntityId)
    requires Carries(o, journal, source, next, em, p, cs) && n <= |cs| && RunAll(t, cs[..n]).Ok?
    requires Active(t, EntityRecord(id)) && id !in RetiredIds(journal, source, next)
    ensures Active(RunAll(t, cs[..n]).value, EntityRecord(id))
  {
    RetiredByARetirement(o, journal, source, next, em, p, cs, id);
    forall i | 0 <= i < n && EntityRecord(id) in Targets(cs[..n][i])
      ensures !cs[..n][i].RetireEvidence? && !cs[..n][i].RetireEntity?
    {
      assert cs[i] in cs;
    }
    RunKeepsActive(t, cs[..n], id);
  }

  /** Only the command that ensures an entity makes it active. */
  lemma PerformConjures(t: Tables, c: Command, id: EntityId)
    requires Perform(t, c).Ok? && Active(Perform(t, c).value, EntityRecord(id))
    requires c.EnsureEntity? || c.EnsureEvidence? ==> c.id != id
    ensures Active(t, EntityRecord(id))
  {
    PerformEvolves(t, c);
    if EntityRecord(id) !in Targets(c) { PerformSettles(t, c); }
  }

  lemma {:induction false} NotConjured(t: Tables, cs: seq<Command>, id: EntityId)
    requires RunAll(t, cs).Ok? && Active(RunAll(t, cs).value, EntityRecord(id))
    requires forall c :: c in cs && (c.EnsureEntity? || c.EnsureEvidence?) ==> c.id != id
    ensures Active(t, EntityRecord(id))
  {
    if cs != [] {
      var shorter, c := cs[..|cs| - 1], cs[|cs| - 1];
      assert cs == shorter + [c] && c in cs;
      RunStep(t, shorter, c);
      PerformConjures(RunAll(t, shorter).value, c, id);
      NotConjured(t, shorter, id);
    }
  }

  /** After any of its writes the snapshot ties the same edges to the evidence being projected. */
  lemma SameEdgesCited(o: Collation, m: Memory, source: SourceKey, next: Projection,
                       em: Brain.Emission, p: Provenance, cs: seq<Command>, n: nat)
    requires JournalOk(m) && Anchored(m.tables) && Carries(o, m.journal, source, Some(next), Some(em), p, cs)
    requires n <= |cs| && RunAll(m.tables, cs[..n]).Ok?
    requires next.edges == em.edges + EdgesCiting(m.tables, em.evidenceId)
    requires forall edge :: edge in next.edges ==>
               edge.source !in RetiredIds(m.journal, source, Some(next)) && edge.target !in RetiredIds(m.journal, source, Some(next))
    ensures em.edges + EdgesCiting(RunAll(m.tables, cs[..n]).value, em.evidenceId) == next.edges
  {
    var t, mid, e := m.tables, RunAll(m.tables, cs[..n]).value, em.evidenceId;
    forall edge | edge in EdgesCiting(mid, e) ensures edge in next.edges {
      CitedByARow(o, m.journal, source, Some(next), Some(em), p, cs, t, n, edge, e);
      if edge !in EdgesCiting(t, e) { ContributorOf(m.journal, source, Some(next), edge, e, source); }
    }
    forall edge | edge in EdgesCiting(t, e) ensures edge in EdgesCiting(mid, e) {
      StaysActive(o, m.journal, source, Some(next), Some(em), p, cs, t, n, edge.source);
      StaysActive(o, m.journal, source, Some(next), Some(em), p, cs, t, n, edge.target);
      StaysCited(o, m.journal, source, next, em, p, cs, t, n, edge);
    }
  }

  lemma StaysCited(o: Collation, journal: map<SourceKey, Projection>, source: SourceKey, next: Projection,
                   em: Brain.Emission, p: Provenance, cs: seq<Command>, t: Tables, n: nat, edge: EdgeKey)
    requires Carries(o, journal, source, Some(next), Some(em), p, cs) && n <= |cs| && RunAll(t, cs[..n]).Ok?
    requires edge in next.edges && Active(t, EdgeRecord(edge)) && em.evidenceId in EvidenceOf(t, edge)
    ensures Active(RunAll(t, cs[..n]).value, EdgeRecord(edge)) && em.evidenceId in EvidenceOf(RunAll(t, cs[..n]).value, edge)
  {
    if i :| 0 <= i < n && EdgeRecord(edge) in Targets(cs[i]) {
      var rows := Candidates(journal, source, Some(next));
      assert next in rows;
      assert em.evidenceId in Membership(rows, edge);
      assert cs[i] in cs && cs[..n][i] == cs[i];
      assert Independent(cs[..n]);
      RunSettles(t, cs[..n], i);
    } else {
      assert Untouched(cs[..n], EdgeRecord(edge));
      RunKeeps(t, cs[..n], EdgeRecord(edge));
    }
  }

  /** Whether an entity the change does not itself emit is known does not change at any of its writes. */
  lemma SameKnown(o: Collation, journal: map<SourceKey, Projection>, source: SourceKey, next: Projection,
                  em: Brain.Emission, p: Provenance, cs: seq<Command>, t: Tables, n: nat, id: EntityId)
    requires Carries(o, journal, source, Some(next), Some(em), p, cs) && n <= |cs| && RunAll(t, cs[..n]).Ok?
    requires id !in em.facts && id != em.evidenceId
    requires Active(t, EntityRecord(id)) ==> id !in RetiredIds(journal, source, Some(next))
    ensures Active(t, EntityRecord(id)) <==> Active(RunAll(t, cs[..n]).value, EntityRecord(id))
  {
    if Active(t, EntityRecord(id)) {
      StaysActive(o, journal, source, Some(next), Some(em), p, cs, t, n, id);
    }
    if Active(RunAll(t, cs[..n]).value, EntityRecord(id)) {
      forall c | c in cs[..n] && (c.EnsureEntity? || c.EnsureEvidence?) ensures c.id != id { assert c in cs; }
      NotConjured(t, cs[..n], id);
    }
  }

  /** The declared edges depend only on whether the two declared records are known. */
  lemma DeclaredDependsOn(d: Brain.KnowledgeDocument, known: set<EntityId>, known': set<EntityId>)
    requires d.causedBy.Some? ==> (d.causedBy.value in known <==> d.causedBy.value in known')
    requires d.resolvedBy.Some? ==> (d.resolvedBy.value in known <==> d.resolvedBy.value in known')
    ensures Brain.DeclaredEdges(d, known) == Brain.DeclaredEdges(d, known')
  {
  }

  /** What a document declares is resolved the same way after any of its writes. */
  lemma SameDocument(o: Collation, journal: map<SourceKey, Projection>, source: SourceKey, next: Projection,
                     d: Brain.KnowledgeDocument, p: Provenance, cs: seq<Command>, t: Tables, n: nat)
    requires var em := Brain.DocumentEmission(d, ActiveEntities(t));
             && Carries(o, journal, source, Some(next), Some(em), p, cs) && n <= |cs| && RunAll(t, cs[..n]).Ok?
             && em.edges <= next.edges
    requires forall edge :: edge in next.edges ==>
               edge.source !in RetiredIds(journal, source, Some(next)) && edge.target !in RetiredIds(journal, source, Some(next))
    ensures Brain.DocumentEmission(d, ActiveEntities(RunAll(t, cs[..n]).value)) == Brain.DocumentEmission(d, ActiveEntities(t))
  {
    if d.sourceType.IncidentSource? {
      var em, mid := Brain.DocumentEmission(d, ActiveEntities(t)), RunAll(t, cs[..n]).value;
      var own := em.facts.Keys + {em.evidenceId};
      if d.causedBy.Some? && d.causedBy.value !in own {
        assert d.causedBy.value in ActiveEntities(t) ==> EdgeKey(d.causedBy.value, Caused, Brain.ArtifactId(d)) in em.edges;
        assert Active(t, EntityRecord(d.causedBy.value)) ==> d.causedBy.value in ActiveEntities(t);
        SameKnown(o, journal, source, next, em, p, cs, t, n, d.causedBy.value);
      }
      if d.resolvedBy.Some? && d.resolvedBy.value !in own {
        assert d.resolvedBy.value in ActiveEntities(t) ==> EdgeKey(Brain.ArtifactId(d), ResolvedBy, d.resolvedBy.value) in em.edges;
        assert Active(t, EntityRecord(d.resolvedBy.value)) ==> d.resolvedBy.value in ActiveEntities(t);
        SameKnown(o, journal, source, next, em, p, cs, t, n, d.resolvedBy.value);
      }
      assert forall id :: id in ActiveEntities(mid) <==> Active(mid, EntityRecord(id));
      DeclaredDependsOn(d, ActiveEntities(t) + em.facts.Keys + {em.evidenceId}, ActiveEntities(mid) + em.facts.Keys + {em.evidenceId});
    }
  }

  lemma SameInputsSamePlan(o: Collation, m: Memory, m': Memory, call: Call)
    requires Sorts(o) && PlanOf(o, m, call).Work? && !call.Remove?
    requires m'.journal == m.journal && Closed(m'.tables)
    requires EmissionOf(m'.tables, call) == EmissionOf(m.tables, call)
    requires EmissionOf(m.tables, call).edges + EdgesCiting(m'.tables, EmissionOf(m.tables, call).evidenceId)
          == EmissionOf(m.tables, call).edges + EdgesCiting(m.tables, EmissionOf(m.tables, call).evidenceId)
    ensures PlanOf(o, m', call) == PlanOf(o, m, call)
  {
    var source, f, p, em := SourceOf(call), FingerprintOf(call), ProvenanceOf(call), EmissionOf(m.tables, call);
    assert Contribution(m'.tables, source, f, p, em) == Contribution(m.tables, source, f, p, em);
    assert PlanUpsert(o, m', source, f, p, em) == PlanUpsert(o, m, source, f, p, em);
  }

  lemma RowOfUpsert(o: Collation, m: Memory, call: Call)
    requires Sorts(o) && PlanOf(o, m, call).Work? && !call.Remove?
    ensures var em := EmissionOf(m.tables, call);
            PlanOf(o, m, call).row.edges == em.edges + EdgesCiting(m.tables, em.evidenceId)
  {
  }

  lemma OwnEdgesStand(o: Collation, m: Memory, call: Call, edge: EdgeKey)
    requires Sorts(o) && PlanOf(o, m, call).Work? && !call.Remove? && !RetiresItsOwn(o, m, call)
    requires edge in PlanOf(o, m, call).row.edges
    ensures edge.source !in RetiredIds(m.journal, SourceOf(call), Some(PlanOf(o, m, call).row))
    ensures edge.target !in RetiredIds(m.journal, SourceOf(call), Some(PlanOf(o, m, call).row))
  {
    hide PlanOf, RetiredIds;
    var retired := RetiredIds(m.journal, SourceOf(call), Some(PlanOf(o, m, call).row));
    assert {edge.source, edge.target} * retired == {};
    assert edge.source in retired ==> edge.source in {edge.source, edge.target} * retired;
    assert edge.target in retired ==> edge.target in {edge.source, edge.target} * retired;
  }

  lemma SameUpsertPlan(o: Collation, m: Memory, call: Call, n: nat)
    requires Sorts(o) && JournalOk(m) && Anchored(m.tables) && Reaches(o, m, call, n) && !RetiresItsOwn(o, m, call)
    requires PlanOf(o, m, call).Work? && !call.Remove? && Closed(Interrupted(o, m, call, n).tables)
    ensures PlanOf(o, Interrupted(o, m, call, n), call) == PlanOf(o, m, call)
  {
    hide PlanOf, Carries, EmissionOf, RetiredIds, Closed, EdgesCiting;
    var plan, m' := PlanOf(o, m, call), Interrupted(o, m, call, n);
    PlanCarries(o, m, call);
    RowOfUpsert(o, m, call);
    forall edge | edge in plan.row.edges
      ensures edge.source !in RetiredIds(m.journal, SourceOf(call), Some(plan.row))
      ensures edge.target !in RetiredIds(m.journal, SourceOf(call), Some(plan.row))
    {
      OwnEdgesStand(o, m, call, edge);
    }
    SameReadings(o, m, call, plan.row, plan.commands, n);
    SameInputsSamePlan(o, m, m', call);
  }

  lemma UnreadableRefuses(o: Collation, m: Memory, t: Tables, call: Call)
    requires Sorts(o) && PlanOf(o, m, call).Work? && !call.Remove? && !Closed(t)
    ensures PlanOf(o, Memory(t, m.journal), call).Refuse?
  {
  }

  /** After any of its writes a call that does not retire what it relates makes the same plan again, or
      is refused because the snapshot cannot be rebuilt. */
  lemma SamePlan(o: Collation, m: Memory, call: Call, n: nat)
    requires Sorts(o) && JournalOk(m) && Anchored(m.tables) && Reaches(o, m, call, n) && !RetiresItsOwn(o, m, call)
    ensures if PlanOf(o, m, call).Work? && !call.Remove? && !Closed(Interrupted(o, m, call, n).tables)
            then PlanOf(o, Interrupted(o, m, call, n), call).Refuse?
            else PlanOf(o, Interrupted(o, m, call, n), call) == PlanOf(o, m, call)
  {
    var m' := Interrupted(o, m, call, n);
    if PlanOf(o, m, call).Work? && !call.Remove? {
      if Closed(m'.tables) { SameUpsertPlan(o, m, call, n); } else { UnreadableRefuses(o, m, m'.tables, call); }
    } else {
      hide Anchored, RetiresItsOwn;
    }
  }

  /** The snapshot after `n` writes yields the same emission and the same edges to journal. */
  lemma SameReadings(o: Collation, m: Memory, call: Call, row: Projection, cs: seq<Command>, n: nat)
    requires !call.Remove? && JournalOk(m) && Anchored(m.tables)
    requires var source, em, p := SourceOf(call), EmissionOf(m.tables, call), ProvenanceOf(call);
             && Carries(o, m.journal, source, Some(row), Some(em), p, cs)
             && row.edges == em.edges + EdgesCiting(m.tables, em.evidenceId)
    requires n <= |cs| && RunAll(m.tables, cs[..n]).Ok?
    requires forall edge :: edge in row.edges ==>
               edge.source !in RetiredIds(m.journal, SourceOf(call), Some(row)) && edge.target !in RetiredIds(m.journal, SourceOf(call), Some(row))
    ensures var t, em := RunAll(m.tables, cs[..n]).value, EmissionOf(m.tables, call);
            EmissionOf(t, call) == em && em.edges + EdgesCiting(t, em.evidenceId) == row.edges
  {
    var source, em, p := SourceOf(call), EmissionOf(m.tables, call), ProvenanceOf(call);
    SameEdgesCited(o, m, source, row, em, p, cs, n);
    if call.UpsertDocument? {
      SameDocument(o, m.journal, source, row, call.document, p, cs, m.tables, n);
    }
  }

  /** Cut off after any of its writes, a call that retires nothing it relates either finds a snapshot that
      cannot be rebuilt, and then its second run is refused, or ends as it would have ended uninterrupted:
      the same records with the same versions, the same audit trail, the same journal row. */
  lemma RerunEqualsUninterrupted(o: Collation, m: Memory, call: Call, n: nat)
    requires Sorts(o) && JournalOk(m) && Anchored(m.tables) && Reaches(o, m, call, n) && !RetiresItsOwn(o, m, call)
    ensures Complete(o, Interrupted(o, m, call, n), call).Ok? || call.Remove? || Closed(Interrupted(o, m, call, n).tables) ==>
              Complete(o, Interrupted(o, m, call, n), call) == Complete(o, m, call)
  {
    SamePlan(o, m, call, n);
    PlanIsIndependent(o, m, call);
    hide RetiresItsOwn, Closed, Anchored, PlanOf;
    if PlanOf(o, m, call).Work? { RerunResumes(m.tables, PlanOf(o, m, call).commands, n); }
  }

  lemma FileEndpoints(c: Brain.FileChange, edge: EdgeKey, id: EntityId)
    requires edge in Brain.FileEdges(c) && id in {edge.source, edge.target}
    ensures id in Brain.FileFacts(c) || id == Brain.FileEvidenceId(c)
  {
  }

  lemma DocumentEndpoints(d: Brain.KnowledgeDocument, known: set<EntityId>, edge: EdgeKey, id: EntityId)
    requires edge in Brain.DocumentEdges(d) + Brain.DeclaredEdges(d, known) && id in {edge.source, edge.target}
    ensures id in Brain.DocumentFacts(d) || id == Brain.DocumentEvidenceId(d) || id in known
  {
  }

  /** An emission relates its own entities and entities that were already known. */
  lemma EmissionEndpoints(t: Tables, call: Call, edge: EdgeKey, id: EntityId)
    requires !call.Remove? && edge in EmissionOf(t, call).edges && id in {edge.source, edge.target}
    ensures id in EmissionOf(t, call).facts || id == EmissionOf(t, call).evidenceId || id in ActiveEntities(t)
  {
    match call
    case UpsertFile(c, _) => FileEndpoints(c, edge, id);
    case UpsertDocument(d, _) =>
      DocumentEndpoints(d, ActiveEntities(t) + Brain.DocumentFacts(d).Keys + {Brain.DocumentEvidenceId(d)}, edge, id);
  }

  lemma RetiredIsForeign(o: Collation, journal: map<SourceKey, Projection>, source: SourceKey, next: Projection,
                         em: Brain.Emission, p: Provenance, cs: seq<Command>, t: Tables, x: EntityId)
    requires Carries(o, journal, source, Some(next), Some(em), p, cs) && RunAll(t, cs).Ok? && Paired(t)
    requires x in RetiredIds(journal, source, Some(next))
    ensures x !in em.facts && x != em.evidenceId && !Active(RunAll(t, cs).value, EntityRecord(x))
  {
    assert next in Candidates(journal, source, Some(next));
    if x in Retiring(journal, source, Some(next)) {
      CarriedIsSettled(t, cs, RetireEvidence(x));
      RunKeepsPaired(t, cs);
    } else {
      assert x in em.facts ==> x in next.owned;
      assert next.owned <= OwnedHeld(Candidates(journal, source, Some(next)));
      CarriedIsSettled(t, cs, RetireEntity(x));
    }
  }

  /** A later emission of the same record differs at most in what it declares about others. */
  lemma SameIdentity(t: Tables, t': Tables, call: Call)
    requires !call.Remove?
    ensures EmissionOf(t', call).facts == EmissionOf(t, call).facts
    ensures EmissionOf(t', call).evidenceId == EmissionOf(t, call).evidenceId
  {
  }

  lemma RowWithout(t: Tables, call: Call, edge: EdgeKey, x: EntityId)
    requires !call.Remove? && x in {edge.source, edge.target} && !Active(t, EntityRecord(x))
    requires x !in EmissionOf(t, call).facts && x != EmissionOf(t, call).evidenceId
    ensures edge !in Contribution(t, SourceOf(call), FingerprintOf(call), ProvenanceOf(call), EmissionOf(t, call)).edges
  {
    if edge in EmissionOf(t, call).edges { EmissionEndpoints(t, call, edge, x); }
  }

  /** The journal row a finished upsert leaves is the contribution read off the snapshot it started from. */
  lemma FinishedRow(o: Collation, m: Memory, call: Call)
    requires Sorts(o) && !call.Remove? && PlanOf(o, m, call).Work? && Complete(o, m, call).Ok?
    ensures SourceOf(call) in Complete(o, m, call).value.journal
    ensures Complete(o, m, call).value.journal[SourceOf(call)]
         == Contribution(m.tables, SourceOf(call), FingerprintOf(call), ProvenanceOf(call), EmissionOf(m.tables, call))
  {
  }

  lemma StillNotUnchanged(o: Collation, m: Memory, t: Tables, call: Call)
    requires Sorts(o) && PlanOf(o, m, call).Work?
    ensures !PlanOf(o, Memory(t, m.journal), call).Unchanged?
  {
  }

  /** If an upsert relates its record to one it retires, then, cut off just before the journal write
      and run again, it does not end as it would have ended uninterrupted. */
  lemma RerunDiffersWhenItRetiresItsOwn(o: Collation, m: Memory, call: Call)
    requires Sorts(o) && Sound(m) && RetiresItsOwn(o, m, call) && Complete(o, m, call).Ok?
    ensures var n := |CommandsOf(PlanOf(o, m, call))|;
            Reaches(o, m, call, n) && Complete(o, Interrupted(o, m, call, n), call) != Complete(o, m, call)
  {
    var plan, source := PlanOf(o, m, call), SourceOf(call);
    var cs, em := plan.commands, EmissionOf(m.tables, call);
    assert cs[..|cs|] == cs;
    PlanCarries(o, m, call);
    var edge :| edge in plan.row.edges && {edge.source, edge.target} * RetiredIds(m.journal, source, Some(plan.row)) != {};
    var x :| x in {edge.source, edge.target} && x in RetiredIds(m.journal, source, Some(plan.row));
    RetiredIsForeign(o, m.journal, source, plan.row, em, ProvenanceOf(call), cs, m.tables, x);
    var m' := Interrupted(o, m, call, |cs|);
    SameIdentity(m.tables, m'.tables, call);
    RowWithout(m'.tables, call, edge, x);
    FinishedRow(o, m, call);
    StillNotUnchanged(o, m, m'.tables, call);
    if Complete(o, m', call).Ok? { FinishedRow(o, m', call); }
  }

  lemma ReadableBefore(o: Collation, m: Memory, call: Call)
    requires Sorts(o) && !call.Remove? && PlanOf(o, m, call).Work?
    ensures Closed(m.tables)
  {
  }

  /** If an upsert strands an edge, then, cut off right after the evidence is retired, its second run is refused. */
  lemma RerunRefusedWhenItStrands(o: Collation, m: Memory, call: Call)
    requires Sorts(o) && JournalOk(m) && Anchored(m.tables) && Complete(o, m, call).Ok?
    requires !call.Remove? && StrandsAnEdge(o, m, call)
    ensures exists n :: Reaches(o, m, call, n) && Complete(o, Interrupted(o, m, call, n), call).Err?
  {
    CallIsClosedThroughoutIff(o, m, call);
    var n :| Reaches(o, m, call, n) && !Closed(Interrupted(o, m, call, n).tables);
    UnreadableRefuses(o, m, Interrupted(o, m, call, n).tables, call);
    assert Complete(o, Interrupted(o, m, call, n), call).Err?;
  }

  /** Whether a call can be cut off anywhere and simply be run again can be decided before it starts:
      it must retire no endpoint of its own edges and strand no edge of anyone's. */
  lemma RerunEqualsUninterruptedIff(o: Collation, m: Memory, call: Call)
    requires Sorts(o) && Sound(m) && Complete(o, m, call).Ok?
    ensures (forall n :: Reaches(o, m, call, n) ==> Complete(o, Interrupted(o, m, call, n), call) == Complete(o, m, call))
            <==> call.Remove? || (!RetiresItsOwn(o, m, call) && !StrandsAnEdge(o, m, call))
  {
    hide Closed, Anchored, Paired;
    if RetiresItsOwn(o, m, call) {
      RerunDiffersWhenItRetiresItsOwn(o, m, call);
    } else if !call.Remove? && StrandsAnEdge(o, m, call) {
      RerunRefusedWhenItStrands(o, m, call);
    } else {
      forall n | Reaches(o, m, call, n) ensures Complete(o, Interrupted(o, m, call, n), call) == Complete(o, m, call) {
        if !call.Remove? && PlanOf(o, m, call).Work? {
          ReadableBefore(o, m, call);
          CallIsClosedThroughoutIff(o, m, call);
        } else if !call.Remove? {
          SamePlan(o, m, call, n);
        }
        RerunEqualsUninterrupted(o, m, call, n);
      }
    }
  }

  /** Attempts `i` to `j` of a history are all stops of one call. */
  ghost predicate StopsOf(attempts: seq<Attempt>, call: Call, i: nat, j: nat) {
    i <= j <= |attempts| && forall k :: i <= k < j ==> attempts[k].Stop? && attempts[k].call == call
  }

  /** If the call returns from `m'` it returns what it returns from `m`. */
  ghost predicate Follows(o: Collation, m: Memory, m': Memory, call: Call)
    requires Sorts(o)
  {
    Complete(o, m', call).Ok? ==> Complete(o, m', call) == Complete(o, m, call)
  }

  /** The call is refused, or retires nothing it relates. */
  ghost predicate MayRetry(o: Collation, m: Memory, call: Call)
    requires Sorts(o)
  {
    PlanOf(o, m, call).Refuse? || !RetiresItsOwn(o, m, call)
  }

  /** If the call may be retried at `m`, it may be at `m'`, and there it follows `m`. */
  ghost predicate Retries(o: Collation, m: Memory, m': Memory, call: Call)
    requires Sorts(o)
  {
    MayRetry(o, m, call) ==> Follows(o, m, m', call) && MayRetry(o, m', call)
  }

  lemma StopRetries(o: Collation, m: Memory, call: Call, n: nat)
    requires Sorts(o) && Sound(m) && Reaches(o, m, call, n)
    ensures Retries(o, m, Interrupted(o, m, call, n), call)
  {
    if !MayRetry(o, m, call) {
    } else if PlanOf(o, m, call).Refuse? {
      assert Interrupted(o, m, call, n) == m;
    } else {
      SamePlan(o, m, call, n);
      RerunEqualsUninterrupted(o, m, call, n);
    }
  }

  lemma StoppedRetries(o: Collation, states: seq<Memory>, attempts: seq<Attempt>, k: nat)
    requires Sorts(o) && History(o, states, attempts) && k < |attempts| && attempts[k].Stop?
    ensures Retries(o, states[k], states[k + 1], attempts[k].call)
  {
    EveryStateIsSound(o, states, attempts, k);
    hide Reaches, Interrupted, Complete, Retries, Sound;
    OutcomeIsAfter(o, states[k], attempts[k], states[k + 1]);
    StopRetries(o, states[k], attempts[k].call, attempts[k].writes);
  }

  lemma RetriesCompose(o: Collation, m: Memory, m': Memory, m'': Memory, call: Call)
    requires Sorts(o) && Retries(o, m, m', call) && Retries(o, m', m'', call)
    ensures Retries(o, m, m'', call)
  {
    hide MayRetry, Complete;
  }

  lemma {:induction false} StopsRetry(o: Collation, states: seq<Memory>, attempts: seq<Attempt>, i: nat, j: nat, call: Call)
    requires Sorts(o) && History(o, states, attempts) && StopsOf(attempts, call, i, j)
    ensures Retries(o, states[i], states[j], call)
    decreases j
  {
    hide PlanOf, Retries, Outcomes;
    if i < j {
      StopsRetry(o, states, attempts, i, j - 1, call);
      StoppedRetries(o, states, attempts, j - 1);
      RetriesCompose(o, states[i], states[j - 1], states[j], call);
    } else {
      RetriesItself(o, states[i], call);
    }
  }

  lemma RetriedReturns(o: Collation, m: Memory, m': Memory, call: Call)
    requires Sorts(o) && Retries(o, m, m', call) && !RetiresItsOwn(o, m, call) && Complete(o, m', call).Ok?
    ensures Complete(o, m', call) == Complete(o, m, call)
  {
    hide PlanOf, RetiresItsOwn, Complete;
  }

  lemma RetriesItself(o: Collation, m: Memory, call: Call)
    requires Sorts(o)
    ensures Retries(o, m, m, call)
  {
  }

  /** In every history, whatever was cut off or failed before: a call that retires nothing it relates and is
      stopped any number of times, each time after any of its writes, ends, once it returns, exactly as if
      it had not been stopped. */
  lemma RerunToSuccess(o: Collation, states: seq<Memory>, attempts: seq<Attempt>, i: nat, j: nat, call: Call)
    requires Sorts(o) && History(o, states, attempts) && StopsOf(attempts, call, i, j)
    requires !RetiresItsOwn(o, states[i], call) && Complete(o, states[j], call).Ok?
    ensures Complete(o, states[j], call) == Complete(o, states[i], call)
  {
    hide PlanOf, Retries, RetiresItsOwn, Complete, Outcomes;
    StopsRetry(o, states, attempts, i, j, call);
    RetriedReturns(o, states[i], states[j], call);
  }

  /** An endpoint an edge on file evidence `e` may have: a shared entity, the evidence, or its change. */
  predicate Homely(id: EntityId, e: EntityId) {
    !SourceOwned(id.kind) || id == e || id == EntityId(Change, e.name)
  }

  predicate FileEvidence(e: EntityId) {
    e.name.Revision? && e.name.source.FileSource?
  }

  predicate HomelyEdge(edge: EdgeKey, e: EntityId) {
    FileEvidence(e) ==> Homely(edge.source, e) && Homely(edge.target, e)
  }

  /** Edges on file evidence stay within their revision and the shared entities. */
  ghost predicate Native(m: Memory) {
    && (forall edge, e :: e in EvidenceOf(m.tables, edge) ==> HomelyEdge(edge, e))
    && (forall s, edge, e :: s in m.journal && edge in m.journal[s].edges && e in m.journal[s].evidence ==> HomelyEdge(edge, e))
  }

  lemma {:induction false} RunKeepsNative(t: Tables, cs: seq<Command>)
    requires RunAll(t, cs).Ok?
    requires forall edge, e :: e in EvidenceOf(t, edge) ==> HomelyEdge(edge, e)
    requires forall c, e :: c in cs && c.SettleEdge? && e in c.evidence ==> HomelyEdge(c.edge, e)
    ensures forall edge, e :: e in EvidenceOf(RunAll(t, cs).value, edge) ==> HomelyEdge(edge, e)
  {
    if cs != [] {
      var last := |cs| - 1;
      RunKeepsNative(t, cs[..last]);
      var mid, t' := RunAll(t, cs[..last]).value, RunAll(t, cs).value;
      PerformSettles(mid, cs[last]);
      forall edge, e | e in EvidenceOf(t', edge) ensures HomelyEdge(edge, e) {
        if EdgeRecord(edge) in Targets(cs[last]) {
          assert cs[last] in cs;
        } else {
          assert SameRow(mid, t', EdgeRecord(edge));
        }
      }
    }
  }

  lemma FileEdgesAreHomely(c: Brain.FileChange, edge: EdgeKey)
    requires edge in Brain.FileEdges(c)
    ensures HomelyEdge(edge, Brain.FileEvidenceId(c))
  {
  }

  lemma ContributionIsNative(m: Memory, call: Call, edge: EdgeKey)
    requires Native(m) && !call.Remove?
    requires var em := EmissionOf(m.tables, call); edge in em.edges + EdgesCiting(m.tables, em.evidenceId)
    ensures HomelyEdge(edge, EmissionOf(m.tables, call).evidenceId)
  {
    if edge !in EdgesCiting(m.tables, EmissionOf(m.tables, call).evidenceId) && call.UpsertFile? {
      FileEdgesAreHomely(call.change, edge);
    }
  }

  lemma PlannedRowIsNative(o: Collation, m: Memory, call: Call, edge: EdgeKey, e: EntityId)
    requires Sorts(o) && Native(m) && PlanOf(o, m, call).Work?
    requires edge in PlanOf(o, m, call).row.edges && e in PlanOf(o, m, call).row.evidence
    ensures HomelyEdge(edge, e)
  {
    if !call.Remove? { ContributionIsNative(m, call, edge); }
  }

  lemma CarriedIsNative(o: Collation, m: Memory, source: SourceKey, next: Option<Projection>, em: Option<Brain.Emission>,
                        p: Provenance, cs: seq<Command>, n: nat)
    requires Native(m) && Carries(o, m.journal, source, next, em, p, cs) && n <= |cs| && RunAll(m.tables, cs[..n]).Ok?
    requires next.Some? ==> forall edge, e :: edge in next.value.edges && e in next.value.evidence ==> HomelyEdge(edge, e)
    ensures forall edge, e :: e in EvidenceOf(RunAll(m.tables, cs[..n]).value, edge) ==> HomelyEdge(edge, e)
  {
    forall c, e | c in cs[..n] && c.SettleEdge? && e in c.evidence ensures HomelyEdge(c.edge, e) {
      assert c in cs;
      var q :| q in Candidates(m.journal, source, next) && c.edge in q.edges && e in q.evidence;
    }
    RunKeepsNative(m.tables, cs[..n]);
  }

  lemma StatesAreNative(o: Collation, m: Memory, call: Call, n: nat)
    requires Sorts(o) && JournalOk(m) && Native(m) && Reaches(o, m, call, n)
    ensures Native(Interrupted(o, m, call, n))
  {
    var plan := PlanOf(o, m, call);
    if plan.Work? {
      PlanCarries(o, m, call);
      forall edge, e | edge in plan.row.edges && e in plan.row.evidence ensures HomelyEdge(edge, e) {
        PlannedRowIsNative(o, m, call, edge, e);
      }
      CarriedIsNative(o, m, SourceOf(call), NextOf(call, plan.row), EmittedBy(m.tables, call), ProvenanceOf(call), plan.commands, n);
    }
  }

  lemma AttemptKeepsNative(o: Collation, m: Memory, a: Attempt)
    requires Sorts(o) && JournalOk(m) && Native(m) && Legal(o, m, a)
    ensures Native(After(o, m, a))
  {
    var plan := PlanOf(o, m, a.call);
    if a.Stop? {
      StatesAreNative(o, m, a.call, a.writes);
    } else if plan.Work? {
      assert plan.commands[..|plan.commands|] == plan.commands;
      StatesAreNative(o, m, a.call, |plan.commands|);
      forall edge, e | edge in plan.row.edges && e in plan.row.evidence ensures HomelyEdge(edge, e) {
        PlannedRowIsNative(o, m, a.call, edge, e);
      }
    }
  }

  lemma {:induction false} EveryStateIsNative(o: Collation, states: seq<Memory>, attempts: seq<Attempt>, i: nat)
    requires Sorts(o) && History(o, states, attempts) && i < |states|
    ensures Native(states[i])
  {
    if i > 0 {
      EveryStateIsNative(o, states, attempts, i - 1);
      EveryStateIsSound(o, states, attempts, i - 1);
      OutcomeIsAfter(o, states[i - 1], attempts[i - 1], states[i]);
      AttemptKeepsNative(o, states[i - 1], attempts[i - 1]);
    }
  }

  lemma HomelyIsNotRetired(o: Collation, journal: map<SourceKey, Projection>, source: SourceKey, next: Projection,
                           em: Brain.Emission, p: Provenance, cs: seq<Command>, id: EntityId)
    requires Carries(o, journal, source, Some(next), Some(em), p, cs)
    requires Homely(id, em.evidenceId) && EntityId(Change, em.evidenceId.name) in em.facts
    ensures id !in RetiredIds(journal, source, Some(next))
  {
    assert next in Candidates(journal, source, Some(next));
    assert EntityId(Change, em.evidenceId.name) in next.owned;
    assert next.owned <= OwnedHeld(Candidates(journal, source, Some(next)));
  }

  /** A file change never relates its record to one it retires. */
  lemma FileChangesKeepTheirOwn(o: Collation, m: Memory, call: Call)
    requires Sorts(o) && JournalOk(m) && Native(m) && call.UpsertFile?
    ensures !RetiresItsOwn(o, m, call)
  {
    var plan, source := PlanOf(o, m, call), SourceOf(call);
    if plan.Work? {
      PlanCarries(o, m, call);
      var em := Brain.FileEmission(call.change);
      forall edge, id | edge in plan.row.edges && id in {edge.source, edge.target}
        ensures id !in RetiredIds(m.journal, source, Some(plan.row))
      {
        PlannedRowIsNative(o, m, call, edge, em.evidenceId);
        HomelyIsNotRetired(o, m.journal, source, plan.row, em, ProvenanceOf(call), plan.commands, id);
      }
    }
  }

  /** In every history, a file change stopped any number of times after any of its store writes ends, once
      it returns, exactly as an uninterrupted run. */
  lemma FileChangeCanAlwaysBeRerun(o: Collation, states: seq<Memory>, attempts: seq<Attempt>, i: nat, j: nat, call: Call)
    requires Sorts(o) && History(o, states, attempts) && StopsOf(attempts, call, i, j)
    requires call.UpsertFile? && Complete(o, states[j], call).Ok?
    ensures Complete(o, states[j], call) == Complete(o, states[i], call)
  {
    EveryStateIsSound(o, states, attempts, i);
    EveryStateIsNative(o, states, attempts, i);
    FileChangesKeepTheirOwn(o, states[i], call);
    RerunToSuccess(o, states, attempts, i, j, call);
  }

  /** The record an incident declares as its cause or resolution, if it is known. */
  predicate Declares(d: Brain.KnowledgeDocument, t: Tables, x: EntityId) {
    d.sourceType.IncidentSource? && (d.causedBy == Some(x) || d.resolvedBy == Some(x)) && Active(t, EntityRecord(x))
  }

  lemma DeclaredIsRelated(d: Brain.KnowledgeDocument, t: Tables, x: EntityId)
    requires Declares(d, t, x)
    ensures exists edge :: edge in Brain.DocumentEmission(d, ActiveEntities(t)).edges && x in {edge.source, edge.target}
  {
    assert x in ActiveEntities(t);
    var edges := Brain.DocumentEmission(d, ActiveEntities(t)).edges;
    if d.causedBy == Some(x) {
      assert EdgeKey(x, Caused, Brain.ArtifactId(d)) in edges;
    } else {
      assert EdgeKey(Brain.ArtifactId(d), ResolvedBy, x) in edges;
    }
  }

  lemma RelatedIsDeclared(d: Brain.KnowledgeDocument, t: Tables, edge: EdgeKey, x: EntityId)
    requires edge in Brain.DocumentEmission(d, ActiveEntities(t)).edges && x in {edge.source, edge.target}
    ensures var em := Brain.DocumentEmission(d, ActiveEntities(t)); x in em.facts || x == em.evidenceId || Declares(d, t, x)
  {
  }

  /** A document whose evidence id is new to the store retires what it relates exactly when it declares as
      its cause or resolution a known record that it retires. */
  lemma DocumentRetiresItsOwnIff(o: Collation, m: Memory, call: Call)
    requires Sorts(o) && Sound(m) && PlanOf(o, m, call).Work? && call.UpsertDocument?
    requires EdgesCiting(m.tables, EmissionOf(m.tables, call).evidenceId) == {}
    ensures RetiresItsOwn(o, m, call) <==>
              exists x :: Declares(call.document, m.tables, x) && x in RetiredIds(m.journal, SourceOf(call), Some(PlanOf(o, m, call).row))
  {
    hide RetiredIds, PlanOf, EdgesCiting, Sound, Brain.DocumentEmission, Brain.DocumentFacts, Declares;
    var d, plan, em := call.document, PlanOf(o, m, call), EmissionOf(m.tables, call);
    var retired := RetiredIds(m.journal, SourceOf(call), Some(plan.row));
    RowOfUpsert(o, m, call);
    forall x, edge | edge in em.edges && x in {edge.source, edge.target} && x in retired ensures Declares(d, m.tables, x) {
      RelatedIsDeclared(d, m.tables, edge, x);
      if !Declares(d, m.tables, x) { OwnIsNotRetired(o, m, call, x); }
    }
    forall x | Declares(d, m.tables, x) && x in retired ensures RetiresItsOwn(o, m, call) {
      DeclaredIsRelated(d, m.tables, x);
      var edge :| edge in em.edges && x in {edge.source, edge.target};
      assert x in {edge.source, edge.target} * retired;
    }
    if RetiresItsOwn(o, m, call) {
      var edge :| edge in plan.row.edges && {edge.source, edge.target} * retired != {};
      var x :| x in {edge.source, edge.target} * retired;
      assert Declares(d, m.tables, x);
    }
  }

  /** An upsert never retires what it emits itself. */
  lemma OwnIsNotRetired(o: Collation, m: Memory, call: Call, x: EntityId)
    requires Sorts(o) && Sound(m) && PlanOf(o, m, call).Work? && !call.Remove?
    requires var em := EmissionOf(m.tables, call); x in em.facts || x == em.evidenceId
    ensures x !in RetiredIds(m.journal, SourceOf(call), Some(PlanOf(o, m, call).row))
  {
    hide PlanOf, EmissionOf;
    PlanCarries(o, m, call);
    var next, em := PlanOf(o, m, call).row, EmissionOf(m.tables, call);
    var rows := Candidates(m.journal, SourceOf(call), Some(next));
    assert next in rows;
    assert next.owned <= OwnedHeld(rows) && em.evidenceId in EvidenceHeld(rows);
  }
}
