/** When every state a projection passes through can be rebuilt into a snapshot. */
module MemoryClosure {
  import opened Wrappers
  import opened BrainTypes
  import opened BrainStore
  import opened MemoryCommands
  import opened BrainMemory
  import opened MemoryPlans
  import Brain = CompanyBrain
  import StoreHistory

  /** An edge row joins two entities that are on record, active or tombstoned. */
  ghost predicate Anchored(t: Tables) {
    forall edge :: EdgeRecord(edge) in t.rows ==>
      edge.source != edge.target && EntityRecord(edge.source) in t.rows && EntityRecord(edge.target) in t.rows
  }

  lemma {:induction false} RunEvolves(t: Tables, cs: seq<Command>)
    requires RunAll(t, cs).Ok?
    ensures StoreHistory.Evolves(t, RunAll(t, cs).value)
  {
    if cs != [] {
      var last := |cs| - 1;
      RunEvolves(t, cs[..last]);
      PerformEvolves(RunAll(t, cs[..last]).value, cs[last]);
    }
  }

  lemma PerformEvolves(t: Tables, c: Command)
    requires Perform(t, c).Ok?
    ensures StoreHistory.Evolves(t, Perform(t, c).value)
  {
    match c
    case EnsureEntity(id, fact, p) =>
      if !Settled(t, c) { StoreHistory.WriteStep(t, PutEntity(id, fact, p, DEFAULT_RETENTION, None)); }
    case EnsureEvidence(id, pointer, p) =>
      if !Settled(t, c) { StoreHistory.WriteStep(t, PutEvidence(id, pointer, p, DEFAULT_RETENTION, None)); }
    case SettleEdge(edge, evidence, p) =>
      if !Settled(t, c) {
        StoreHistory.WriteStep(t, if evidence == {} then DeleteEdge(edge, t.rows[EdgeRecord(edge)].version, NO_CONTRIBUTOR)
                                  else PutEdge(edge, evidence, p, DEFAULT_RETENTION, None));
      }
    case RetireEvidence(id) =>
      if !Settled(t, c) { StoreHistory.WriteStep(t, DeleteEvidence(id, t.rows[EvidenceRecord(id)].version, SUPERSEDED)); }
    case RetireEntity(id) =>
      if !Settled(t, c) { StoreHistory.WriteStep(t, DeleteEntity(id, t.rows[EntityRecord(id)].version, SUPERSEDED)); }
  }

  lemma PerformKeepsAnchored(t: Tables, c: Command)
    requires Anchored(t) && Perform(t, c).Ok?
    ensures Anchored(Perform(t, c).value)
  {
    var t' := Perform(t, c).value;
    PerformEvolves(t, c);
    PerformSettles(t, c);
    forall edge | EdgeRecord(edge) in t'.rows
      ensures edge.source != edge.target && EntityRecord(edge.source) in t'.rows && EntityRecord(edge.target) in t'.rows
    {
      if EdgeRecord(edge) !in t.rows { assert c.SettleEdge? && c.edge == edge; }
    }
  }

  /** A command can hide an edge but not bring one back into view, unless it writes that edge. */
  lemma PerformReveals(t: Tables, c: Command, edge: EdgeKey)
    requires Anchored(t) && Perform(t, c).Ok?
    requires Visible(Perform(t, c).value, edge)
    ensures (c.SettleEdge? && c.edge == edge) || (Visible(t, edge) && EvidenceOf(t, edge) == EvidenceOf(Perform(t, c).value, edge))
  {
    PerformEvolves(t, c);
    PerformSettles(t, c);
  }

  /** Retiring this evidence leaves no visible edge citing it. */
  ghost predicate Releasable(t: Tables, e: EntityId) {
    forall edge :: Visible(t, edge) && e in EvidenceOf(t, edge) ==> e == edge.source || e == edge.target
  }

  lemma PerformKeepsClosed(t: Tables, c: Command)
    requires Anchored(t) && Closed(t) && Perform(t, c).Ok?
    requires c.RetireEvidence? ==> Releasable(t, c.id)
    ensures Closed(Perform(t, c).value)
  {
    var t' := Perform(t, c).value;
    PerformKeepsAnchored(t, c);
    PerformSettles(t, c);
    PerformEvolves(t, c);
    forall edge | Visible(t', edge) ensures Grounded(t', edge) {
      PerformReveals(t, c, edge);
      forall e | e in EvidenceOf(t', edge) ensures Active(t', EvidenceRecord(e)) {
        if c.SettleEdge? && c.edge == edge {
          if !Settled(t, c) { assert Supported(t, edge, c.evidence); } else { assert Grounded(t, edge); }
        } else {
          assert Grounded(t, edge);
        }
      }
    }
  }

  function PreviousIn(journal: map<SourceKey, Projection>, source: SourceKey): Option<Projection> {
    if source in journal then Some(journal[source]) else None
  }

  /** The evidence a change of `source` to `next` takes out of service. */
  function Retiring(journal: map<SourceKey, Projection>, source: SourceKey, next: Option<Projection>): set<EntityId> {
    EvidenceIn(PreviousIn(journal, source)) - EvidenceHeld(Candidates(journal, source, next))
  }

  /** A visible edge named by neither the old nor the new row rests on evidence `e`. */
  ghost predicate Stranded(t: Tables, journal: map<SourceKey, Projection>, source: SourceKey, next: Option<Projection>,
                           edge: EdgeKey, e: EntityId)
  {
    && Visible(t, edge)
    && edge !in EdgesOf(PreviousIn(journal, source)) + EdgesOf(next)
    && e in EvidenceOf(t, edge) && e != edge.source && e != edge.target
  }

  /** One of the first `n` writes retires evidence that strands an edge. */
  ghost predicate StrandsBy(t: Tables, journal: map<SourceKey, Projection>, source: SourceKey, next: Option<Projection>,
                            cs: seq<Command>, n: nat)
    requires n <= |cs|
  {
    exists i, edge :: 0 <= i < n && cs[i].RetireEvidence? && Stranded(t, journal, source, next, edge, cs[i].id)
  }

  lemma {:induction false} RunKeepsAnchored(t: Tables, cs: seq<Command>)
    requires Anchored(t) && RunAll(t, cs).Ok?
    ensures Anchored(RunAll(t, cs).value)
  {
    if cs != [] {
      var last := |cs| - 1;
      RunKeepsAnchored(t, cs[..last]);
      PerformKeepsAnchored(RunAll(t, cs[..last]).value, cs[last]);
    }
  }

  /** An edge that is in view after a run was in view before it, or the run wrote it. */
  lemma {:induction false} RunReveals(t: Tables, cs: seq<Command>, edge: EdgeKey)
    requires Anchored(t) && RunAll(t, cs).Ok? && Untouched(cs, EdgeRecord(edge))
    requires Visible(RunAll(t, cs).value, edge)
    ensures Visible(t, edge) && EvidenceOf(t, edge) == EvidenceOf(RunAll(t, cs).value, edge)
  {
    if cs != [] {
      var last := |cs| - 1;
      RunKeepsAnchored(t, cs[..last]);
      PerformReveals(RunAll(t, cs[..last]).value, cs[last], edge);
      RunReveals(t, cs[..last], edge);
    }
  }

  /** By the time evidence is retired every named edge has been settled without it. */
  lemma RetiredEvidenceIsReleasable(o: Collation, journal: map<SourceKey, Projection>, source: SourceKey,
                                    next: Option<Projection>, em: Option<Brain.Emission>, p: Provenance,
                                    cs: seq<Command>, t: Tables, n: nat)
    requires Carries(o, journal, source, next, em, p, cs) && Anchored(t)
    requires n < |cs| && cs[n].RetireEvidence? && RunAll(t, cs[..n]).Ok?
    requires forall edge :: !Stranded(t, journal, source, next, edge, cs[n].id)
    ensures Releasable(RunAll(t, cs[..n]).value, cs[n].id)
  {
    var mid, e := RunAll(t, cs[..n]).value, cs[n].id;
    var rows, previous := Candidates(journal, source, next), PreviousIn(journal, source);
    assert cs[n] in cs;
    assert e in Retiring(journal, source, next);
    forall edge | Visible(mid, edge) && e in EvidenceOf(mid, edge) ensures e == edge.source || e == edge.target {
      if edge in EdgesOf(previous) + EdgesOf(next) {
        var c := SettleEdge(edge, Membership(rows, edge), FirstProvenance(o.rows(rows), edge, p));
        assert c in cs;
        var i :| 0 <= i < |cs| && cs[i] == c;
        assert i < n && cs[..n][i] == c;
        assert Independent(cs[..n]);
        RunSettles(t, cs[..n], i);
      } else {
        UnnamedIsUntouched(o, journal, source, next, em, p, cs, n, edge);
        RunReveals(t, cs[..n], edge);
        assert !Stranded(t, journal, source, next, edge, e);
      }
    }
  }

  /** As long as no write strands an edge, every state the change passes through is closed. */
  lemma {:induction false} ClosedThroughout(o: Collation, journal: map<SourceKey, Projection>, source: SourceKey,
                                            next: Option<Projection>, em: Option<Brain.Emission>, p: Provenance,
                                            cs: seq<Command>, t: Tables, n: nat)
    requires Carries(o, journal, source, next, em, p, cs) && Anchored(t) && Closed(t)
    requires n <= |cs| && RunAll(t, cs[..n]).Ok?
    requires !StrandsBy(t, journal, source, next, cs, n)
    ensures Closed(RunAll(t, cs[..n]).value)
  {
    if n > 0 {
      assert cs[..n][..n - 1] == cs[..n - 1];
      ClosedThroughout(o, journal, source, next, em, p, cs, t, n - 1);
      RunKeepsAnchored(t, cs[..n - 1]);
      if cs[n - 1].RetireEvidence? {
        RetiredEvidenceIsReleasable(o, journal, source, next, em, p, cs, t, n - 1);
      }
      PerformKeepsClosed(RunAll(t, cs[..n - 1]).value, cs[n - 1]);
    }
  }

  lemma {:induction false} RunKeepsActive(t: Tables, cs: seq<Command>, id: EntityId)
    requires RunAll(t, cs).Ok? && Active(t, EntityRecord(id))
    requires forall i :: 0 <= i < |cs| && EntityRecord(id) in Targets(cs[i]) ==> !cs[i].RetireEvidence? && !cs[i].RetireEntity?
    ensures Active(RunAll(t, cs).value, EntityRecord(id))
  {
    if cs != [] {
      var last := |cs| - 1;
      RunKeepsActive(t, cs[..last], id);
      PerformSettles(RunAll(t, cs[..last]).value, cs[last]);
    }
  }

  /** Up to the retirement of its one evidence id, a change retires no other entity. */
  lemma OnlyItsEvidence(o: Collation, journal: map<SourceKey, Projection>, source: SourceKey, next: Option<Projection>,
                        em: Option<Brain.Emission>, p: Provenance, cs: seq<Command>, i: nat, j: nat, id: EntityId)
    requires Carries(o, journal, source, next, em, p, cs)
    requires j <= i < |cs| && cs[i].RetireEvidence? && id != cs[i].id && EntityRecord(id) in Targets(cs[j])
    ensures !cs[j].RetireEvidence? && !cs[j].RetireEntity?
  {
    assert cs[j] in cs && cs[i] in cs;
  }

  /** A change writes only the edges its old or its new row names. */
  lemma UnnamedIsUntouched(o: Collation, journal: map<SourceKey, Projection>, source: SourceKey, next: Option<Projection>,
                           em: Option<Brain.Emission>, p: Provenance, cs: seq<Command>, n: nat, edge: EdgeKey)
    requires Carries(o, journal, source, next, em, p, cs) && n <= |cs|
    requires edge !in EdgesOf(PreviousIn(journal, source)) + EdgesOf(next)
    ensures Untouched(cs[..n], EdgeRecord(edge))
  {
    forall i | 0 <= i < n ensures EdgeRecord(edge) !in Targets(cs[..n][i]) { assert cs[i] in cs; }
  }

  lemma LosesItsGround(t: Tables, done: seq<Command>, edge: EdgeKey, e: EntityId)
    requires RunAll(t, done).Ok? && Untouched(done, EdgeRecord(edge)) && Visible(t, edge) && e in EvidenceOf(t, edge)
    requires !Active(RunAll(t, done).value, EvidenceRecord(e))
    requires forall i, id :: 0 <= i < |done| && EntityRecord(id) in Targets(done[i]) && id in {edge.source, edge.target} ==>
               !done[i].RetireEvidence? && !done[i].RetireEntity?
    ensures !Closed(RunAll(t, done).value)
  {
    RunKeeps(t, done, EdgeRecord(edge));
    RunKeepsActive(t, done, edge.source);
    RunKeepsActive(t, done, edge.target);
    assert !Grounded(RunAll(t, done).value, edge);
  }

  /** If a write strands an edge, the state right after it is not closed. */
  lemma StrandedBreaksClosure(o: Collation, journal: map<SourceKey, Projection>, source: SourceKey,
                              next: Option<Projection>, em: Option<Brain.Emission>, p: Provenance,
                              cs: seq<Command>, t: Tables, i: nat, edge: EdgeKey)
    requires Carries(o, journal, source, next, em, p, cs) && i < |cs| && RunAll(t, cs[..i + 1]).Ok?
    requires cs[i].RetireEvidence? && Stranded(t, journal, source, next, edge, cs[i].id)
    ensures !Closed(RunAll(t, cs[..i + 1]).value)
  {
    var n := i + 1;
    UnnamedIsUntouched(o, journal, source, next, em, p, cs, n, edge);
    RunSettlesLast(t, cs, i);
    forall j, id | 0 <= j < n && EntityRecord(id) in Targets(cs[j]) && id in {edge.source, edge.target}
      ensures !cs[..n][j].RetireEvidence? && !cs[..n][j].RetireEntity?
    {
      OnlyItsEvidence(o, journal, source, next, em, p, cs, i, j, id);
    }
    LosesItsGround(t, cs[..n], edge, cs[i].id);
  }

  lemma RunSettlesLast(t: Tables, cs: seq<Command>, i: nat)
    requires i < |cs| && RunAll(t, cs[..i + 1]).Ok?
    ensures Settled(RunAll(t, cs[..i + 1]).value, cs[i])
  {
    assert cs[..i + 1][..i] == cs[..i];
    PerformSettles(RunAll(t, cs[..i]).value, cs[i]);
  }
}
