/** Concrete histories at the limits: where a change cannot be read back or cannot simply be run again. */
module MemoryLimits {
  import opened Wrappers
  import opened BrainTypes
  import opened BrainStore
  import opened MemoryCommands
  import opened BrainMemory
  import opened MemoryPlans
  import opened MemoryClosure
  import opened MemoryRuns
  import opened MemoryRetries
  import opened MemoryReplay
  import Brain = CompanyBrain

  /** No record was ever tombstoned or held. */
  ghost predicate Pristine(t: Tables) {
    forall k :: k in t.rows ==> t.rows[k].deletion.None? && t.rows[k].retention == DEFAULT_RETENTION
  }

  predicate Removes(c: Command) {
    c.RetireEvidence? || c.RetireEntity? || (c.SettleEdge? && c.evidence == {})
  }

  /** A removal among the first `n` commands is about the record. */
  ghost predicate Gone(cs: seq<Command>, n: nat, k: RecordKey)
    requires n <= |cs|
  {
    exists i :: 0 <= i < n && Removes(cs[i]) && k in Targets(cs[i])
  }

  /** After the first `n` commands nothing is held, and only what they removed is tombstoned. */
  ghost predicate Tidy(t: Tables, cs: seq<Command>, n: nat)
    requires n <= |cs|
  {
    forall k :: k in t.rows ==> t.rows[k].retention == DEFAULT_RETENTION && (t.rows[k].deletion.Some? ==> Gone(cs, n, k))
  }

  predicate Ensures(d: Command, k: RecordKey) {
    (d.EnsureEntity? || d.EnsureEvidence?) && k in Targets(d)
  }

  ghost predicate Provided(t: Tables, cs: seq<Command>, k: RecordKey) {
    k in t.rows || exists d :: d in cs && Ensures(d, k)
  }

  ghost predicate WellBased(t: Tables, cs: seq<Command>, edge: EdgeKey, evidence: set<EntityId>) {
    && edge.source != edge.target
    && Provided(t, cs, EntityRecord(edge.source)) && Provided(t, cs, EntityRecord(edge.target))
    && forall e :: e in evidence ==> Provided(t, cs, EvidenceRecord(e))
  }

  /** A command of the right kind of entity, everything an edge rests on being on record or ensured by the list. */
  ghost predicate Backed(t: Tables, cs: seq<Command>, c: Command) {
    match c
    case EnsureEntity(id, _, _) => id.kind != Evidence
    case EnsureEvidence(id, _, _) => id.kind == Evidence
    case SettleEdge(edge, evidence, _) => evidence != {} ==> WellBased(t, cs, edge, evidence)
    case RetireEvidence(id) => id.kind == Evidence
    case RetireEntity(id) => id.kind != Evidence
  }

  lemma ProvidedByNow(t: Tables, cs: seq<Command>, n: nat, k: RecordKey)
    requires Independent(cs) && Phased(cs) && Paired(t) && forall c :: c in cs ==> Backed(t, cs, c)
    requires n < |cs| && cs[n].SettleEdge? && RunAll(t, cs[..n]).Ok? && Provided(t, cs, k) && !k.EdgeRecord?
    requires Tidy(RunAll(t, cs[..n]).value, cs, n)
    ensures Active(RunAll(t, cs[..n]).value, k)
  {
    hide Provided, Backed;
    var mid := RunAll(t, cs[..n]).value;
    PresentByNow(t, cs, n, k);
    forall i | 0 <= i < n ensures Phase(cs[i]) <= Phase(cs[n]) {}
  }

  lemma PresentByNow(t: Tables, cs: seq<Command>, n: nat, k: RecordKey)
    requires Independent(cs) && Phased(cs) && Paired(t) && forall c :: c in cs ==> Backed(t, cs, c)
    requires n < |cs| && cs[n].SettleEdge? && RunAll(t, cs[..n]).Ok? && Provided(t, cs, k) && !k.EdgeRecord?
    ensures k in RunAll(t, cs[..n]).value.rows
  {
    var mid := RunAll(t, cs[..n]).value;
    RunEvolves(t, cs[..n]);
    if d :| d in cs && Ensures(d, k) {
      var j :| 0 <= j < |cs| && cs[j] == d;
      assert j < n && cs[..n][j] == d;
      assert Independent(cs[..n]);
      RunSettles(t, cs[..n], j);
      forall c | c in cs[..n] ensures Backed(t, cs, c) { assert c in cs; }
      RunKeepsPaired(t, cs[..n]);
      assert Backed(t, cs, d);
      assert d.EnsureEvidence? ==> (Active(mid, EvidenceRecord(d.id)) <==> Active(mid, EntityRecord(d.id)));
    }
  }

  lemma AddingSucceeds(t: Tables, cs: seq<Command>, n: nat)
    requires n < |cs| && Independent(cs) && Tidy(t, cs, n) && !Removes(cs[n])
    requires cs[n].SettleEdge? ==> Supported(t, cs[n].edge, cs[n].evidence)
    ensures Perform(t, cs[n]).Ok? && Tidy(Perform(t, cs[n]).value, cs, n)
  {
    forall k | k in Targets(cs[n]) ensures !Gone(cs, n, k) {}
  }

  lemma RemovingSucceeds(t: Tables, cs: seq<Command>, n: nat)
    requires n < |cs| && Tidy(t, cs, n) && Removes(cs[n]) && Paired(t)
    requires cs[n].RetireEvidence? ==> cs[n].id.kind == Evidence
    requires cs[n].RetireEntity? ==> cs[n].id.kind != Evidence
    ensures Perform(t, cs[n]).Ok? && Tidy(Perform(t, cs[n]).value, cs, n + 1)
  {
    var c := cs[n];
    assert c.RetireEvidence? ==> (Active(t, EvidenceRecord(c.id)) <==> Active(t, EntityRecord(c.id)));
    forall k | Gone(cs, n, k) || k in Targets(c) ensures Gone(cs, n + 1, k) {
      if k in Targets(c) { assert Removes(cs[n]) && k in Targets(cs[n]); }
    }
  }

  lemma TidyGrows(t: Tables, cs: seq<Command>, n: nat)
    requires n < |cs| && Tidy(t, cs, n)
    ensures Tidy(t, cs, n + 1)
  {
    forall k | Gone(cs, n, k) ensures Gone(cs, n + 1, k) {
      var i :| 0 <= i < n && Removes(cs[i]) && k in Targets(cs[i]);
    }
  }

  lemma OneMoreSucceeds(t: Tables, cs: seq<Command>, n: nat)
    requires Independent(cs) && Phased(cs) && Paired(t) && forall c :: c in cs ==> Backed(t, cs, c)
    requires n < |cs| && RunAll(t, cs[..n]).Ok? && Tidy(RunAll(t, cs[..n]).value, cs, n)
    ensures var mid := RunAll(t, cs[..n]).value;
            Perform(mid, cs[n]).Ok? && Tidy(Perform(mid, cs[n]).value, cs, n + 1)
  {
    hide Tidy, Provided, Independent, Phased, Perform;
    var mid, c := RunAll(t, cs[..n]).value, cs[n];
    assert c in cs;
    assert Backed(t, cs, c);
    if Removes(c) {
      forall d | d in cs[..n] ensures Backed(t, cs, d) { assert d in cs; }
      RunKeepsPaired(t, cs[..n]);
      RemovingSucceeds(mid, cs, n);
    } else {
      if c.SettleEdge? {
        ProvidedByNow(t, cs, n, EntityRecord(c.edge.source));
        ProvidedByNow(t, cs, n, EntityRecord(c.edge.target));
        forall e | e in c.evidence ensures Active(mid, EvidenceRecord(e)) { ProvidedByNow(t, cs, n, EvidenceRecord(e)); }
      }
      AddingSucceeds(mid, cs, n);
      TidyGrows(Perform(mid, c).value, cs, n);
    }
  }

  /** Backed commands in the order of a change all succeed on a store in which nothing was ever removed or held. */
  lemma {:induction false} AllSucceed(t: Tables, cs: seq<Command>, n: nat)
    requires Pristine(t) && Paired(t) && Independent(cs) && Phased(cs) && n <= |cs|
    requires forall c :: c in cs ==> Backed(t, cs, c)
    ensures RunAll(t, cs[..n]).Ok? && Tidy(RunAll(t, cs[..n]).value, cs, n)
  {
    hide Backed, Independent, Phased, Paired;
    if n > 0 {
      AllSucceed(t, cs, n - 1);
      assert cs[..n][..n - 1] == cs[..n - 1];
      OneMoreSucceeds(t, cs, n - 1);
    }
  }

  lemma NothingRemovedIsPristine(t: Tables, cs: seq<Command>)
    requires Tidy(t, cs, |cs|) && forall c :: c in cs ==> !Removes(c)
    ensures Pristine(t)
  {
    forall k | k in t.rows ensures !Gone(cs, |cs|, k) {}
  }

  lemma NoSelfEdges(t: Tables, call: Call, edge: EdgeKey)
    requires !call.Remove? && (call.UpsertDocument? ==> !Brain.SelfReferring(call.document))
    requires edge in EmissionOf(t, call).edges
    ensures edge.source != edge.target
  {
  }

  /** An edge a lone source will hold joins two entities that are on record or are about to be. */
  lemma OwnEdgeIsBased(o: Collation, m: Memory, call: Call, edge: EdgeKey, cs: seq<Command>, row: Projection)
    requires !call.Remove? && Anchored(m.tables) && (call.UpsertDocument? ==> !Brain.SelfReferring(call.document))
    requires var em := EmissionOf(m.tables, call);
             && Carries(o, m.journal, SourceOf(call), Some(row), Some(em), ProvenanceOf(call), cs)
             && edge in em.edges + EdgesCiting(m.tables, em.evidenceId)
    ensures WellBased(m.tables, cs, edge, {EmissionOf(m.tables, call).evidenceId})
  {
    var em, p := EmissionOf(m.tables, call), ProvenanceOf(call);
    var ev := EnsureEvidence(em.evidenceId, em.pointer, p);
    assert ev in cs && Ensures(ev, EntityRecord(em.evidenceId)) && Ensures(ev, EvidenceRecord(em.evidenceId));
    if edge in em.edges {
      NoSelfEdges(m.tables, call, edge);
      forall id | id in {edge.source, edge.target} ensures Provided(m.tables, cs, EntityRecord(id)) {
        EmissionEndpoints(m.tables, call, edge, id);
        if id in em.facts {
          var d := EnsureEntity(id, em.facts[id], p);
          assert d in cs && Ensures(d, EntityRecord(id));
        }
      }
    }
  }

  lemma LoneIsBacked(o: Collation, m: Memory, call: Call, cs: seq<Command>, row: Projection, c: Command)
    requires !call.Remove? && Sound(m) && (call.UpsertDocument? ==> !Brain.SelfReferring(call.document))
    requires m.journal.Keys <= {SourceOf(call)} && row.state.ActiveSource? && c in cs
    requires var em := EmissionOf(m.tables, call);
             && Carries(o, m.journal, SourceOf(call), Some(row), Some(em), ProvenanceOf(call), cs)
             && row.edges == em.edges + EdgesCiting(m.tables, em.evidenceId)
    ensures Backed(m.tables, cs, c)
  {
    hide EmissionOf, EdgesCiting, Anchored, Paired, WellBased, Independent, Phased;
    assert Candidates(m.journal, SourceOf(call), Some(row)) == {row};
    if c.SettleEdge? && c.evidence != {} {
      assert c.evidence == Membership({row}, c.edge);
      assert c.edge in row.edges && c.evidence == {EmissionOf(m.tables, call).evidenceId};
      OwnEdgeIsBased(o, m, call, c.edge, cs, row);
    }
  }

  lemma WorkIsNotSelfReferring(o: Collation, m: Memory, call: Call)
    requires Sorts(o) && PlanOf(o, m, call).Work? && call.UpsertDocument?
    ensures !Brain.SelfReferring(call.document)
  {
  }

  /** In a tenant with no other source, from which nothing was ever removed, every upsert that plans work returns. */
  lemma LoneUpsertReturns(o: Collation, m: Memory, call: Call)
    requires Sorts(o) && Sound(m) && Pristine(m.tables) && m.journal.Keys <= {SourceOf(call)}
    requires !call.Remove? && PlanOf(o, m, call).Work?
    ensures var plan := PlanOf(o, m, call);
            && RunAll(m.tables, plan.commands).Ok?
            && Complete(o, m, call) == Ok(Memory(RunAll(m.tables, plan.commands).value, m.journal[SourceOf(call) := plan.row]))
            && Tidy(RunAll(m.tables, plan.commands).value, plan.commands, |plan.commands|)
  {
    hide PlanOf, Carries, EmissionOf, Backed, Pristine, Tidy;
    PlanCarries(o, m, call);
    RowOfUpsert(o, m, call);
    if call.UpsertDocument? { WorkIsNotSelfReferring(o, m, call); }
    var Work(cs, row) := PlanOf(o, m, call);
    forall c | c in cs ensures Backed(m.tables, cs, c) { LoneIsBacked(o, m, call, cs, row, c); }
    CarriesIsOrdered(o, m.journal, SourceOf(call), Some(row), Some(EmissionOf(m.tables, call)), ProvenanceOf(call), cs);
    assert cs[..|cs|] == cs;
    AllSucceed(m.tables, cs, |cs|);
  }

  lemma CarriesIsOrdered(o: Collation, journal: map<SourceKey, Projection>, source: SourceKey, next: Option<Projection>,
                         em: Option<Brain.Emission>, p: Provenance, cs: seq<Command>)
    requires Carries(o, journal, source, next, em, p, cs)
    ensures Independent(cs) && Phased(cs)
  {
  }

  /** An upsert that keeps all that its source held before removes nothing. */
  lemma KeepingRemovesNothing(o: Collation, journal: map<SourceKey, Projection>, source: SourceKey, next: Projection,
                              em: Brain.Emission, p: Provenance, cs: seq<Command>)
    requires Carries(o, journal, source, Some(next), Some(em), p, cs) && journal.Keys <= {source}
    requires source in journal ==> journal[source].edges <= next.edges && journal[source].evidence == next.evidence
                                   && journal[source].owned == next.owned
    ensures forall c :: c in cs ==> !Removes(c)
  {
    assert Candidates(journal, source, Some(next)) == {next};
    forall c | c in cs ensures !Removes(c) {
      if c.SettleEdge? { assert em.evidenceId in Membership({next}, c.edge); }
    }
  }

  /** Once its writes are done, an edge between emitted entities is visible and cites just the new evidence. */
  lemma EmittedIsVisible(o: Collation, journal: map<SourceKey, Projection>, source: SourceKey, next: Projection,
                         em: Brain.Emission, p: Provenance, cs: seq<Command>, t: Tables, edge: EdgeKey)
    requires Carries(o, journal, source, Some(next), Some(em), p, cs) && RunAll(t, cs).Ok? && journal.Keys <= {source}
    requires edge in next.edges && edge.source in em.facts && edge.target in em.facts
    ensures Visible(RunAll(t, cs).value, edge) && EvidenceOf(RunAll(t, cs).value, edge) == {em.evidenceId}
  {
    CarriedEdge(o, journal, source, Some(next), Some(em), p, cs, t, edge);
    assert Candidates(journal, source, Some(next)) == {next};
    assert Membership({next}, edge) == {em.evidenceId};
    CarriedIsSettled(t, cs, EnsureEntity(edge.source, em.facts[edge.source], p));
    CarriedIsSettled(t, cs, EnsureEntity(edge.target, em.facts[edge.target], p));
  }

  function SourceOwnedOf(em: Brain.Emission): set<EntityId> {
    set id | id in em.facts && SourceOwned(id.kind) :: id
  }

  predicate RowOf(row: Projection, call: Call, em: Brain.Emission) {
    && row.state.ActiveSource? && row.fingerprint == FingerprintOf(call)
    && row.evidence == {em.evidenceId} && row.edges == em.edges && row.owned == SourceOwnedOf(em)
  }

  /** A tenant whose one source was ingested as `em` and nothing was ever removed. */
  ghost predicate Holding(m: Memory, call: Call, em: Brain.Emission) {
    && Sound(m) && Pristine(m.tables) && Closed(m.tables)
    && m.journal.Keys == {SourceOf(call)} && RowOf(m.journal[SourceOf(call)], call, em)
  }

  lemma FirstPlan(o: Collation, call: Call)
    requires Sorts(o) && !call.Remove? && (call.UpsertDocument? ==> !Brain.SelfReferring(call.document))
    ensures PlanOf(o, BLANK, call).Work? && RowOf(PlanOf(o, BLANK, call).row, call, EmissionOf(BLANK.tables, call))
  {
    hide EmissionOf;
    assert EdgesCiting(BLANK.tables, EmissionOf(BLANK.tables, call).evidenceId) == {};
  }

  lemma BlankIsSound()
    ensures Sound(BLANK) && Pristine(BLANK.tables) && Closed(BLANK.tables) && Native(BLANK)
  {
  }

  lemma RetiringNothingStaysReadable(o: Collation, m: Memory, call: Call, n: nat)
    requires Sorts(o) && Sound(m) && Closed(m.tables) && Reaches(o, m, call, n)
    requires !RetiresEvidence(o, m, call)
    ensures Closed(Interrupted(o, m, call, n).tables)
  {
    hide PlanOf, Closed, RetiresEvidence, Interrupted;
    TiedIsNotStranded(o, m, call, n);
    AttemptIsReadableIff(o, m, call, n);
  }

  /** Any upsert into an empty tenant returns. */
  lemma FirstReturns(o: Collation, call: Call)
    requires Sorts(o) && !call.Remove? && (call.UpsertDocument? ==> !Brain.SelfReferring(call.document))
    ensures Complete(o, BLANK, call).Ok? && Holding(Complete(o, BLANK, call).value, call, EmissionOf(BLANK.tables, call))
  {
    hide PlanOf, EmissionOf, Carries, Tidy, Pristine, Closed, Sound, Native;
    BlankIsSound();
    FirstPlan(o, call);
    LoneUpsertReturns(o, BLANK, call);
    var Work(cs, row) := PlanOf(o, BLANK, call);
    PlanCarries(o, BLANK, call);
    KeepingRemovesNothing(o, map[], SourceOf(call), row, EmissionOf(BLANK.tables, call), ProvenanceOf(call), cs);
    NothingRemovedIsPristine(RunAll(BLANK.tables, cs).value, cs);
    AttemptKeepsSound(o, BLANK, Finish(call));
    CompleteReachesAll(o, BLANK, call);
    RetiringNothingStaysReadable(o, BLANK, call, |cs|);
  }

  function First(c: Brain.FileChange): Call {
    UpsertFile(c, None)
  }

  /** The same commit of the same file, now mapped to a service. */
  function Second(c: Brain.FileChange, service: string): Call {
    UpsertFile(c.(service := Some(service)), None)
  }

  function Third(c: Brain.FileChange): Call {
    Remove(Brain.FileSourceKey(c), c.commit, None)
  }

  /** The next commit of the same file, not mapped any more. */
  function NextCommit(c: Brain.FileChange, revision: string): Call {
    UpsertFile(c.(commit := revision), None)
  }

  function Membered(c: Brain.FileChange, service: string): EdgeKey {
    EdgeKey(Brain.ServiceId(service), BelongsTo, Brain.RepositoryId(c.provider, c.repository))
  }

  lemma FileOwnsItsChange(c: Brain.FileChange)
    ensures SourceOwnedOf(Brain.FileEmission(c)) == {Brain.ChangeId(c)}
  {
    assert Brain.ChangeId(c) in Brain.FileFacts(c);
  }

  lemma MappingAddsEdges(c: Brain.FileChange, service: string)
    requires !Brain.Given(c.service) && service != ""
    ensures Brain.FileEdges(c) <= Brain.FileEdges(c.(service := Some(service)))
    ensures Membered(c, service) !in Brain.FileEdges(c) && Membered(c, service) in Brain.FileEdges(c.(service := Some(service)))
  {
  }

  lemma SecondPlan(o: Collation, m: Memory, c: Brain.FileChange, service: string)
    requires Sorts(o) && Holding(m, First(c), Brain.FileEmission(c)) && !Brain.Given(c.service) && service != ""
    ensures var plan := PlanOf(o, m, Second(c, service));
            && plan.Work? && Membered(c, service) in plan.row.edges && Brain.FileEdges(c) <= plan.row.edges
            && plan.row.evidence == {Brain.FileEvidenceId(c)} && plan.row.owned == {Brain.ChangeId(c)}
            && Candidates(m.journal, Brain.FileSourceKey(c), Some(plan.row)) == {plan.row}
  {
    hide EdgesCiting, Brain.FileEdges, Brain.FileFacts, Brain.FilePointer, Sound, Pristine, Closed;
    MappingAddsEdges(c, service);
    FileOwnsItsChange(c.(service := Some(service)));
  }

  /** The file is known without a service, yet the service's edge is in view on its evidence. */
  ghost predicate CutOff(m: Memory, c: Brain.FileChange, service: string) {
    && Holding(m, First(c), Brain.FileEmission(c))
    && Visible(m.tables, Membered(c, service)) && EvidenceOf(m.tables, Membered(c, service)) == {Brain.FileEvidenceId(c)}
  }

  /** Cut off just before its journal write, the second change has already written its service edge. */
  lemma SecondIsCutOff(o: Collation, m: Memory, c: Brain.FileChange, service: string)
    requires Sorts(o) && Holding(m, First(c), Brain.FileEmission(c)) && !Brain.Given(c.service) && service != ""
    ensures var n := |CommandsOf(PlanOf(o, m, Second(c, service)))|;
            Reaches(o, m, Second(c, service), n) && CutOff(Interrupted(o, m, Second(c, service), n), c, service)
  {
    hide PlanOf, Carries, Tidy, Pristine, Closed, JournalOk, Anchored, Paired, Candidates, Brain.FileEdges, Brain.FileFacts, Brain.FilePointer, EmissionOf, EdgesCiting;
    var call, source, d := Second(c, service), Brain.FileSourceKey(c), c.(service := Some(service));
    SecondPlan(o, m, c, service);
    LoneUpsertReturns(o, m, call);
    PlanCarries(o, m, call);
    var Work(cs, row) := PlanOf(o, m, call);
    var em, p := EmissionOf(m.tables, call), ProvenanceOf(call);
    FileOwnsItsChange(c);
    KeepingRemovesNothing(o, m.journal, source, row, em, p, cs);
    NothingRemovedIsPristine(RunAll(m.tables, cs).value, cs);
    CompleteReachesAll(o, m, call);
    StateIsSound(o, m, call, |cs|);
    KeepsItsEvidence(o, m, call);
    RetiringNothingStaysReadable(o, m, call, |cs|);
    ServiceIsEmitted(m, c, service);
    EmittedIsVisible(o, m.journal, source, row, em, p, cs, m.tables, Membered(c, service));
  }

  lemma ServiceIsEmitted(m: Memory, c: Brain.FileChange, service: string)
    requires service != ""
    ensures var em, edge := EmissionOf(m.tables, Second(c, service)), Membered(c, service);
            edge.source in em.facts && edge.target in em.facts && em.evidenceId == Brain.FileEvidenceId(c)
  {
  }

  lemma KeepsItsEvidence(o: Collation, m: Memory, call: Call)
    requires Sorts(o) && PlanOf(o, m, call).Work? && !call.Remove? && SourceOf(call) in m.journal
    requires m.journal[SourceOf(call)].evidence == PlanOf(o, m, call).row.evidence
    ensures !RetiresEvidence(o, m, call)
  {
    hide PlanOf;
    var next := Some(PlanOf(o, m, call).row);
    assert next.value in Candidates(m.journal, SourceOf(call), next);
    assert next.value.evidence <= EvidenceHeld(Candidates(m.journal, SourceOf(call), next));
  }

  /** A file is ingested, then ingested again at the same commit with a service and cut off before the
      journal write, then removed. Each call does what it should, yet in the end the service's edge is
      visible on tombstoned evidence: no snapshot can be rebuilt and no further source can be ingested. */
  lemma CutOffThenRemovedCannotBeRead(o: Collation, c: Brain.FileChange, service: string)
    requires Sorts(o) && !Brain.Given(c.service) && service != ""
    ensures Complete(o, BLANK, First(c)).Ok?
    ensures var m1 := Complete(o, BLANK, First(c)).value;
            var n := |CommandsOf(PlanOf(o, m1, Second(c, service)))|;
            && Reaches(o, m1, Second(c, service), n)
            && var m2 := Interrupted(o, m1, Second(c, service), n);
               && Complete(o, m2, Third(c)).Ok?
               && var m3 := Complete(o, m2, Third(c)).value;
                  && !Closed(m3.tables)
                  && forall call: Call :: !call.Remove? && SourceOf(call) != Brain.FileSourceKey(c) ==> PlanOf(o, m3, call).Refuse?
  {
    hide PlanOf, Holding, Complete, Interrupted, Closed, CutOff;
    FirstReturns(o, First(c));
    var m1 := Complete(o, BLANK, First(c)).value;
    SecondIsCutOff(o, m1, c, service);
    var m2 := Interrupted(o, m1, Second(c, service), |CommandsOf(PlanOf(o, m1, Second(c, service)))|);
    RemovalStrands(o, m2, c, service);
  }

  lemma RemovalStrips(o: Collation, journal: map<SourceKey, Projection>, source: SourceKey, p: Provenance,
                      cs: seq<Command>, t: Tables, edge: EdgeKey, e: EntityId, change: EntityId)
    requires Carries(o, journal, source, None, None, p, cs) && Pristine(t) && Paired(t)
    requires journal.Keys == {source}
    requires journal[source].evidence == {e} && edge !in journal[source].edges && journal[source].owned == {change}
    requires Visible(t, edge) && e in EvidenceOf(t, edge)
    requires {edge.source, edge.target} !! {e, change} && e.kind == Evidence && change.kind != Evidence
    ensures RunAll(t, cs).Ok? && !Closed(RunAll(t, cs).value)
  {
    hide Pristine, Paired, Tidy, Independent, Phased, Closed;
    assert Candidates(journal, source, None) == {};
    forall d | d in cs
      ensures || (d.SettleEdge? && d.evidence == {} && d.edge in journal[source].edges)
              || (d.RetireEvidence? && d.id == e) || (d.RetireEntity? && d.id == change)
    {
    }
    assert cs[..|cs|] == cs;
    AllSucceed(t, cs, |cs|);
    forall i | 0 <= i < |cs| ensures EdgeRecord(edge) !in Targets(cs[i]) { assert cs[i] in cs; }
    CarriedIsSettled(t, cs, RetireEvidence(e));
    forall i, id | 0 <= i < |cs| && EntityRecord(id) in Targets(cs[i]) && id in {edge.source, edge.target}
      ensures !cs[i].RetireEvidence? && !cs[i].RetireEntity?
    {
      assert cs[i] in cs;
    }
    LosesItsGround(t, cs, edge, e);
  }

  lemma UnreadableRefusesAll(o: Collation, m: Memory, source: SourceKey)
    requires Sorts(o) && !Closed(m.tables) && m.journal.Keys == {source}
    ensures forall call: Call :: !call.Remove? && SourceOf(call) != source ==> PlanOf(o, m, call).Refuse?
  {
    hide Closed, Contribution, ReconcileCommands, EnsureCommands, EmissionOf;
  }

  lemma RemovalPlan(o: Collation, m: Memory, c: Brain.FileChange)
    requires Sorts(o) && Holding(m, First(c), Brain.FileEmission(c))
    ensures PlanOf(o, m, Third(c)).Work? && PlanOf(o, m, Third(c)).row.source == Brain.FileSourceKey(c)
  {
    hide Sound, Pristine, Closed, Brain.FileEmission;
  }

  lemma RemovalStrands(o: Collation, m: Memory, c: Brain.FileChange, service: string)
    requires Sorts(o) && CutOff(m, c, service) && !Brain.Given(c.service) && service != ""
    ensures Complete(o, m, Third(c)).Ok?
    ensures var m' := Complete(o, m, Third(c)).value;
            && !Closed(m'.tables)
            && forall call: Call :: !call.Remove? && SourceOf(call) != Brain.FileSourceKey(c) ==> PlanOf(o, m', call).Refuse?
  {
    hide PlanOf, Carries, Closed, Pristine, JournalOk, Anchored, Paired, Brain.FileEdges, Brain.FileFacts, Brain.FilePointer;
    RemovalPlan(o, m, c);
    PlanCarries(o, m, Third(c));
    var Work(cs, row) := PlanOf(o, m, Third(c));
    MappingAddsEdges(c, service);
    FileOwnsItsChange(c);
    RemovalStrips(o, m.journal, Brain.FileSourceKey(c), ProvenanceOf(Third(c)), cs, m.tables,
                  Membered(c, service), Brain.FileEvidenceId(c), Brain.ChangeId(c));
    var m' := Complete(o, m, Third(c)).value;
    assert m'.journal.Keys == {Brain.FileSourceKey(c)};
    UnreadableRefusesAll(o, m', Brain.FileSourceKey(c));
  }

  lemma NextCommitPlan(o: Collation, m: Memory, c: Brain.FileChange, service: string, revision: string)
    requires Sorts(o) && CutOff(m, c, service) && !Brain.Given(c.service) && service != "" && revision != c.commit
    ensures PlanOf(o, m, NextCommit(c, revision)).Work? && StrandsAnEdge(o, m, NextCommit(c, revision))
  {
    hide Sound, Pristine, Closed, Brain.FileFacts, Brain.FilePointer;
    var call, d, edge, e := NextCommit(c, revision), c.(commit := revision), Membered(c, service), Brain.FileEvidenceId(c);
    assert PlanOf(o, m, call).Work?;
    RowOfUpsert(o, m, call);
    var row := PlanOf(o, m, call).row;
    hide PlanOf;
    MappingAddsEdges(c, service);
    MappingAddsEdges(d, service);
    assert Candidates(m.journal, SourceOf(call), Some(row)) == {row};
    assert NextOf(call, row) == Some(row);
    assert e in Retiring(m.journal, SourceOf(call), NextOf(call, row));
    assert edge !in EdgesCiting(m.tables, Brain.FileEvidenceId(d));
    assert Stranded(m.tables, m.journal, SourceOf(call), NextOf(call, row), edge, e);
  }

  /** After the same cut-off the file's next commit, without the service, retires nothing it relates and
      returns, but stopped right after the old evidence is retired it cannot be run again. */
  lemma CutOffThenChangedCannotBeRerun(o: Collation, c: Brain.FileChange, service: string, revision: string)
    requires Sorts(o) && !Brain.Given(c.service) && service != "" && revision != c.commit
    ensures Complete(o, BLANK, First(c)).Ok?
    ensures var m1 := Complete(o, BLANK, First(c)).value;
            var n := |CommandsOf(PlanOf(o, m1, Second(c, service)))|;
            && Reaches(o, m1, Second(c, service), n)
            && var m2, call := Interrupted(o, m1, Second(c, service), n), NextCommit(c, revision);
               && Complete(o, m2, call).Ok? && !RetiresItsOwn(o, m2, call) && StrandsAnEdge(o, m2, call)
               && exists k :: Reaches(o, m2, call, k) && Complete(o, Interrupted(o, m2, call, k), call).Err?
  {
    hide PlanOf, Complete, Interrupted, Closed, Pristine, Native, RetiresItsOwn, StrandsAnEdge, Reaches, RowOf;
    FirstReturns(o, First(c));
    var m1 := Complete(o, BLANK, First(c)).value;
    SecondIsCutOff(o, m1, c, service);
    var n := |CommandsOf(PlanOf(o, m1, Second(c, service)))|;
    var m2, call := Interrupted(o, m1, Second(c, service), n), NextCommit(c, revision);
    BlankIsSound();
    AttemptKeepsNative(o, BLANK, Finish(First(c)));
    StatesAreNative(o, m1, Second(c, service), n);
    NextCommitPlan(o, m2, c, service, revision);
    LoneUpsertReturns(o, m2, call);
    FileChangesKeepTheirOwn(o, m2, call);
    RerunRefusedWhenItStrands(o, m2, call);
  }

  /** The next revision of an incident, which names the evidence of the one before as its cause. */
  function BlamesItself(d: Brain.KnowledgeDocument, revision: string): Brain.KnowledgeDocument {
    d.(revision := revision, causedBy := Some(Brain.DocumentEvidenceId(d)))
  }

  lemma BlameWorks(o: Collation, m: Memory, d: Brain.KnowledgeDocument, revision: string)
    requires Sorts(o) && d.sourceType.IncidentSource? && d.resolvedBy.None? && revision != d.revision
    requires var call := UpsertDocument(d, None); Holding(m, call, EmissionOf(BLANK.tables, call))
    ensures var d' := BlamesItself(d, revision);
            var plan := PlanOf(o, m, UpsertDocument(d', None));
            plan.Work? && plan.row.evidence == {Brain.DocumentEvidenceId(d')}
  {
    hide Sound, Pristine, Closed, Brain.DocumentFacts, Brain.DocumentPointer, Brain.DocumentEdges, Brain.DeclaredEdges;
  }

  lemma BlamePlan(o: Collation, m: Memory, d: Brain.KnowledgeDocument, revision: string)
    requires Sorts(o) && d.sourceType.IncidentSource? && d.resolvedBy.None? && revision != d.revision
    requires var call := UpsertDocument(d, None);
             Holding(m, call, EmissionOf(BLANK.tables, call)) && Active(m.tables, EvidenceRecord(Brain.DocumentEvidenceId(d)))
    ensures var call := UpsertDocument(BlamesItself(d, revision), None);
            PlanOf(o, m, call).Work? && RetiresItsOwn(o, m, call)
  {
    hide PlanOf, Pristine, JournalOk, Anchored, Closed, Brain.DocumentFacts, Brain.DocumentPointer;
    var d', e := BlamesItself(d, revision), Brain.DocumentEvidenceId(d);
    var call := UpsertDocument(d', None);
    BlameWorks(o, m, d, revision);
    RowOfUpsert(o, m, call);
    var row := PlanOf(o, m, call).row;
    assert Active(m.tables, EntityRecord(e));
    assert e in ActiveEntities(m.tables);
    var edge := EdgeKey(e, Caused, Brain.ArtifactId(d'));
    assert edge in row.edges;
    assert Candidates(m.journal, SourceOf(call), Some(row)) == {row};
    assert e in {edge.source, edge.target} * RetiredIds(m.journal, SourceOf(call), Some(row));
  }

  /** An incident is ingested, then its next revision names the evidence of the first as its cause. Both
      calls return, but the second, cut off before its journal write and run again, ends differently. */
  lemma BlamingItsOwnPastCannotBeRerun(o: Collation, d: Brain.KnowledgeDocument, revision: string)
    requires Sorts(o) && d.sourceType.IncidentSource? && d.causedBy.None? && d.resolvedBy.None? && revision != d.revision
    ensures var first, second := UpsertDocument(d, None), UpsertDocument(BlamesItself(d, revision), None);
            && Complete(o, BLANK, first).Ok?
            && var m := Complete(o, BLANK, first).value;
               && Complete(o, m, second).Ok? && RetiresItsOwn(o, m, second)
               && var n := |CommandsOf(PlanOf(o, m, second))|;
                  Reaches(o, m, second, n) && Complete(o, Interrupted(o, m, second, n), second) != Complete(o, m, second)
  {
    hide PlanOf, Interrupted, Closed, Pristine, RetiresItsOwn, Reaches, RowOf, EmissionOf;
    var first, second := UpsertDocument(d, None), UpsertDocument(BlamesItself(d, revision), None);
    FirstReturns(o, first);
    var m := Complete(o, BLANK, first).value;
    FirstIsOnRecord(o, first);
    IdentityOf(d);
    BlamePlan(o, m, d, revision);
    LoneUpsertReturns(o, m, second);
    RerunDiffersWhenItRetiresItsOwn(o, m, second);
  }

  lemma IdentityOf(d: Brain.KnowledgeDocument)
    ensures EmissionOf(BLANK.tables, UpsertDocument(d, None)).evidenceId == Brain.DocumentEvidenceId(d)
  {
  }

  lemma FirstIsOnRecord(o: Collation, call: Call)
    requires Sorts(o) && !call.Remove? && PlanOf(o, BLANK, call).Work? && Complete(o, BLANK, call).Ok?
    ensures Active(Complete(o, BLANK, call).value.tables, EvidenceRecord(EmissionOf(BLANK.tables, call).evidenceId))
  {
    hide PlanOf, EmissionOf, Independent, Phased;
    var em := EmissionOf(BLANK.tables, call);
    PlanCarries(o, BLANK, call);
    CarriedIsSettled(BLANK.tables, PlanOf(o, BLANK, call).commands, EnsureEvidence(em.evidenceId, em.pointer, ProvenanceOf(call)));
  }
}
