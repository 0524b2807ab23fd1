/** Reconciling one complete source manifest against the catalog and the index. */
module Reconciliation {
  import opened Wrappers
  import opened Ingestion
  import Strings = Text

  datatype Scope = Scope(provider: string, repository: string, branch: string)

  datatype ReconcileError = NotAnUpsert | CrossesScope | DuplicateDocument | WriteFailed

  datatype Reconciled = Reconciled(kept: nat, upserted: nat, deleted: nat, chunks: nat)

  predicate Within(scope: Scope, d: DocumentId) {
    d.provider == scope.provider && d.repository == scope.repository && d.branch == scope.branch
  }

  /** A manifest lists complete upserts of one scope, each document once. */
  ghost predicate Complete(scope: Scope, manifest: seq<FileChange>) {
    && (forall i :: 0 <= i < |manifest| ==> manifest[i].kind.Upsert? && Within(scope, manifest[i].source.id))
    && Distinct(manifest)
  }

  ghost predicate Distinct(changes: seq<FileChange>) {
    forall i, j :: 0 <= i < j < |changes| ==> changes[i].source.id != changes[j].source.id
  }

  /** Each catalog row names the document it is stored under, and its fingerprint is of that source. */
  ghost predicate Keyed(catalog: map<DocumentId, Row>) {
    forall d :: d in catalog ==> catalog[d].source.id == d && catalog[d].fingerprint.source == catalog[d].source
  }

  ghost predicate InScope(scope: Scope, d: DocumentId) {
    scope == Scope(d.provider, d.repository, d.branch)
  }

  /** The records a manifest may not hold, and no other, make it unacceptable. */
  lemma CompleteSays(scope: Scope, manifest: seq<FileChange>)
    ensures !Complete(scope, manifest) <==>
              || (exists c :: c in manifest && (c.kind.Delete? || !InScope(scope, c.source.id)))
              || (exists i, j :: 0 <= i < j < |manifest| && manifest[i].source.id == manifest[j].source.id)
  {
    forall i | 0 <= i < |manifest| ensures manifest[i] in manifest {}
  }

  lemma NothingIsComplete(scope: Scope)
    ensures Complete(scope, []) && Documents([]) == {}
  {
  }

  /** One more record is acceptable if it is an upsert of the scope and new to the manifest; if not, nothing that
      begins with it is. */
  lemma CompleteOneMore(scope: Scope, manifest: seq<FileChange>, i: nat)
    requires i < |manifest| && Complete(scope, manifest[..i])
    ensures var c := manifest[i];
            var fits := c.kind.Upsert? && Within(scope, c.source.id) && c.source.id !in Documents(manifest[..i]);
            Complete(scope, manifest[..i + 1]) == fits && (!fits ==> !Complete(scope, manifest))
  {
    var c := manifest[i];
    if c.source.id in Documents(manifest[..i]) {
      var d :| d in manifest[..i] && d.source.id == c.source.id;
      var j :| 0 <= j < i && manifest[..i][j] == d;
      assert manifest[j].source.id == manifest[i].source.id;
      assert manifest[..i + 1][j] == manifest[j] && manifest[..i + 1][i] == c;
    } else {
      forall j | 0 <= j < i ensures manifest[j].source.id != c.source.id { assert manifest[..i][j] in manifest[..i]; }
    }
    assert manifest[..i + 1][i] == c;
    forall j | 0 <= j < i ensures manifest[..i + 1][j] == manifest[..i][j] {}
  }

  lemma DocumentsOneMore(changes: seq<FileChange>, c: FileChange)
    ensures Documents(changes + [c]) == Documents(changes) + {c.source.id}
  {
    assert forall x :: x in changes + [c] <==> x in changes || x == c;
  }

  /** What a scope that matches its manifest holds: an active row for each of its documents and no other, each
      describing its change as it is now, and an index entry wherever there is text. */
  lemma MatchSays(s: Shelf, scope: Scope, manifest: seq<FileChange>)
    requires Matches(s, scope, manifest) && Keyed(s.catalog)
    ensures forall d :: InScope(scope, d) ==>
              (d in s.catalog && s.catalog[d].state.Active? <==> exists c :: c in manifest && c.source.id == d)
    ensures forall c :: c in manifest ==>
              && c.source.id in s.catalog && s.catalog[c.source.id].state.Active? && DescribesChange(s.catalog[c.source.id], c)
              && (c.source.id in s.index || Strings.Blank(Text(c.content)))
  {
    forall d | InScope(scope, d)
      ensures d in s.catalog && s.catalog[d].state.Active? <==> exists c :: c in manifest && c.source.id == d
    {
      assert d in ActiveIn(s, scope) <==> d in Documents(manifest);
    }
    forall c | c in manifest ensures UpToDate(s, c) && DescribesChange(s.catalog[c.source.id], c) {
      RowDescribesItsChange(c, None);
    }
  }

  predicate UpToDate(s: Shelf, c: FileChange) {
    && c.source.id in s.catalog && s.catalog[c.source.id].state.Active?
    && s.catalog[c.source.id].fingerprint == FingerprintOf(c)
    && (Strings.Blank(Text(c.content)) || c.source.id in s.index)
  }

  function Outdated(s: Shelf, manifest: seq<FileChange>): seq<FileChange> {
    if manifest == [] then []
    else
      var c := manifest[|manifest| - 1];
      Outdated(s, manifest[..|manifest| - 1]) + if UpToDate(s, c) then [] else [c]
  }

  function ActiveIn(s: Shelf, scope: Scope): set<DocumentId> {
    set d | d in s.catalog && s.catalog[d].state.Active? && Within(scope, d)
  }

  function Removal(source: Source): FileChange {
    FileChange(source, Delete, None, None, None, None, Acl([], []))
  }

  /** The scope holds exactly the manifest, with matching fingerprints and indexed content. */
  ghost predicate Matches(s: Shelf, scope: Scope, manifest: seq<FileChange>) {
    && (forall d :: Within(scope, d) ==> (d in ActiveIn(s, scope) <==> d in Documents(manifest)))
    && (forall c :: c in manifest ==> UpToDate(s, c))
  }

  lemma {:induction false} OutdatedAre(s: Shelf, manifest: seq<FileChange>)
    ensures forall c :: c in Outdated(s, manifest) <==> c in manifest && !UpToDate(s, c)
    ensures |Outdated(s, manifest)| <= |manifest|
  {
    if manifest != [] {
      assert manifest == manifest[..|manifest| - 1] + [manifest[|manifest| - 1]];
      OutdatedAre(s, manifest[..|manifest| - 1]);
    }
  }

  lemma {:induction false} OutdatedDistinct(s: Shelf, manifest: seq<FileChange>)
    requires Distinct(manifest)
    ensures Distinct(Outdated(s, manifest))
  {
    if manifest != [] {
      var n := |manifest| - 1;
      OutdatedDistinct(s, manifest[..n]);
      OutdatedAre(s, manifest[..n]);
      var before := Outdated(s, manifest[..n]);
      forall i | 0 <= i < |before| ensures before[i].source.id != manifest[n].source.id {
        assert before[i] in manifest[..n];
        var j :| 0 <= j < n && manifest[..n][j] == before[i];
        assert manifest[j] == before[i];
      }
    }
  }

  /** With one change per document, applying them leaves what each change says and nothing else. */
  lemma {:induction false} AppliedAt(s: Shelf, changes: seq<FileChange>, event: Option<string>, chunker: Chunker, i: nat)
    requires Distinct(changes) && i < |changes|
    ensures var t, c := Applied(s, changes, event, chunker), changes[i];
            && c.source.id in t.catalog && t.catalog[c.source.id] == RowOf(c, event)
            && (c.source.id in t.index <==> c.kind.Upsert?)
  {
    var n := |changes| - 1;
    AppliedLast(s, changes, event, chunker);
    if i < n { AppliedAt(s, changes[..n], event, chunker, i); }
  }

  lemma AppliedElsewhere(s: Shelf, changes: seq<FileChange>, event: Option<string>, chunker: Chunker, d: DocumentId)
    requires d !in Documents(changes)
    ensures SameAt(s, Applied(s, changes, event, chunker), d)
  {
    WritesAreOnDocuments(changes, event, chunker);
    AfterLeavesAlone(s, Writes(changes, event, chunker), d);
  }

  lemma {:induction false} AfterKeepsKeyed(s: Shelf, ws: seq<Write>)
    requires Keyed(s.catalog) && forall w :: w in ws && w.Record? ==> w.row.source.id == w.id && w.row.fingerprint.source == w.row.source
    ensures Keyed(After(s, ws).catalog)
  {
    if ws != [] { AfterKeepsKeyed(s, ws[..|ws| - 1]); }
  }

  lemma {:induction false} RecordsAreKeyed(changes: seq<FileChange>, event: Option<string>, chunker: Chunker)
    ensures forall w :: w in Writes(changes, event, chunker) && w.Record? ==>
              w.row.source.id == w.id && w.row.fingerprint.source == w.row.source
  {
    if changes != [] { RecordsAreKeyed(changes[..|changes| - 1], event, chunker); }
  }

  lemma {:induction false} CountedSplits(upserts: seq<FileChange>, deletes: seq<FileChange>, chunker: Chunker)
    requires (forall c :: c in upserts ==> c.kind.Upsert?) && (forall c :: c in deletes ==> c.kind.Delete?)
    ensures Counted(upserts + deletes, chunker).upserted == |upserts| && Counted(upserts + deletes, chunker).deleted == |deletes|
    decreases |upserts| + |deletes|
  {
    var all := upserts + deletes;
    if deletes != [] {
      assert all[..|all| - 1] == upserts + deletes[..|deletes| - 1];
      CountedSplits(upserts, deletes[..|deletes| - 1], chunker);
    } else if upserts != [] {
      assert all[..|all| - 1] == upserts[..|upserts| - 1] + [];
      CountedSplits(upserts[..|upserts| - 1], [], chunker);
    }
  }

  /** Deletions of every active document of the scope that the manifest does not name, each once. */
  ghost predicate Removes(s: Shelf, scope: Scope, manifest: seq<FileChange>, deletes: seq<FileChange>) {
    && Distinct(deletes) && (forall c :: c in deletes ==> c.kind.Delete?)
    && Documents(deletes) == ActiveIn(s, scope) - Documents(manifest)
  }

  lemma CandidatesAreDistinct(s: Shelf, scope: Scope, manifest: seq<FileChange>, deletes: seq<FileChange>)
    requires Complete(scope, manifest) && Removes(s, scope, manifest, deletes)
    ensures Distinct(Outdated(s, manifest) + deletes)
  {
    OutdatedDistinct(s, manifest);
    OutdatedAre(s, manifest);
    var upserts := Outdated(s, manifest);
    forall i, j | 0 <= i < |upserts| && 0 <= j < |deletes| ensures upserts[i].source.id != deletes[j].source.id {
      assert upserts[i] in manifest && deletes[j] in deletes;
      assert upserts[i].source.id in Documents(manifest) && deletes[j].source.id in Documents(deletes);
    }
  }

  /** What the candidates leave: exactly the manifest in the scope, and the other scopes untouched. */
  lemma ApplyingCandidatesMatches(s: Shelf, scope: Scope, manifest: seq<FileChange>, deletes: seq<FileChange>, chunker: Chunker)
    requires Complete(scope, manifest) && Removes(s, scope, manifest, deletes)
    ensures var t := Applied(s, Outdated(s, manifest) + deletes, None, chunker);
            Matches(t, scope, manifest) && forall d :: !Within(scope, d) ==> SameAt(s, t, d)
  {
    var upserts := Outdated(s, manifest);
    var all := upserts + deletes;
    var t := Applied(s, all, None, chunker);
    CandidatesAreDistinct(s, scope, manifest, deletes);
    OutdatedAre(s, manifest);
    forall c | c in manifest ensures UpToDate(t, c) {
      if UpToDate(s, c) {
        CurrentIsUntouched(s, scope, manifest, deletes, c);
        AppliedElsewhere(s, all, None, chunker, c.source.id);
      } else {
        var i :| 0 <= i < |upserts| && upserts[i] == c;
        assert all[i] == c;
        AppliedAt(s, all, None, chunker, i);
      }
    }
    forall d | Within(scope, d) && d !in Documents(manifest) ensures d !in ActiveIn(t, scope) {
      if d in Documents(deletes) {
        var j :| 0 <= j < |deletes| && deletes[j].source.id == d;
        assert all[|upserts| + j] == deletes[j];
        AppliedAt(s, all, None, chunker, |upserts| + j);
      } else {
        NotACandidate(s, manifest, deletes, d);
        AppliedElsewhere(s, all, None, chunker, d);
      }
    }
    forall d | !Within(scope, d) ensures SameAt(s, t, d) {
      OutsideIsNoCandidate(s, scope, manifest, deletes, d);
      AppliedElsewhere(s, all, None, chunker, d);
    }
  }

  lemma NotACandidate(s: Shelf, manifest: seq<FileChange>, deletes: seq<FileChange>, d: DocumentId)
    requires d !in Documents(manifest) && d !in Documents(deletes)
    ensures d !in Documents(Outdated(s, manifest) + deletes)
  {
    OutdatedAre(s, manifest);
  }

  lemma OutsideIsNoCandidate(s: Shelf, scope: Scope, manifest: seq<FileChange>, deletes: seq<FileChange>, d: DocumentId)
    requires Complete(scope, manifest) && Removes(s, scope, manifest, deletes) && !Within(scope, d)
    ensures d !in Documents(Outdated(s, manifest) + deletes)
  {
    forall c | c in manifest ensures c.source.id != d {
      var i :| 0 <= i < |manifest| && manifest[i] == c;
    }
    NotACandidate(s, manifest, deletes, d);
  }

  lemma CurrentIsUntouched(s: Shelf, scope: Scope, manifest: seq<FileChange>, deletes: seq<FileChange>, c: FileChange)
    requires Complete(scope, manifest) && Removes(s, scope, manifest, deletes) && c in manifest && UpToDate(s, c)
    ensures c.source.id !in Documents(Outdated(s, manifest) + deletes)
  {
    OutdatedAre(s, manifest);
    assert c.source.id in Documents(manifest);
    var i :| 0 <= i < |manifest| && manifest[i] == c;
    forall o | o in Outdated(s, manifest) ensures o.source.id != c.source.id {
      var j :| 0 <= j < |manifest| && manifest[j] == o;
    }
  }

  lemma RemovesOneMore(deletes: seq<FileChange>, c: FileChange)
    requires Distinct(deletes)
    ensures Documents(deletes + [c]) == Documents(deletes) + {c.source.id}
    ensures c.source.id !in Documents(deletes) ==> Distinct(deletes + [c])
  {
    forall i | 0 <= i < |deletes| && deletes[i].source.id == c.source.id ensures c.source.id in Documents(deletes) {
      assert deletes[i] in deletes;
    }
    assert forall x :: x in deletes + [c] <==> x in deletes || x == c;
  }

  class SourceReconciler {
    const pipeline: IngestionPipeline
    const catalog: SqliteSourceCatalog

    constructor (pipeline: IngestionPipeline)
      ensures this.pipeline == pipeline && this.catalog == pipeline.catalog
    {
      this.pipeline, this.catalog := pipeline, pipeline.catalog;
    }

    /** The removals that are due: the active rows of the scope the manifest does not name. */
    method Missing(scope: Scope, observed: set<DocumentId>) returns (deletes: seq<FileChange>)
      requires catalog == pipeline.catalog && Keyed(catalog.rows)
      ensures Distinct(deletes) && (forall c :: c in deletes ==> c.kind.Delete?)
      ensures Documents(deletes) == ActiveIn(pipeline.Shelved(), scope) - observed
      ensures |deletes| == |ActiveIn(pipeline.Shelved(), scope) - observed|
    {
      deletes := [];
      var todo := (set d | d in catalog.rows && catalog.rows[d].state.Active? && Within(scope, d)) - observed;
      ghost var all := todo;
      while todo != {}
        invariant todo <= all && Documents(deletes) == all - todo && |deletes| == |all| - |todo|
        invariant Distinct(deletes) && (forall c :: c in deletes ==> c.kind.Delete?)
        decreases |todo|
      {
        var d :| d in todo;
        var c := Removal(catalog.rows[d].source);
        RemovesOneMore(deletes, c);
        hide Documents, Distinct;
        deletes, todo := deletes + [c], todo - {d};
      }
      assert all == ActiveIn(pipeline.Shelved(), scope) - observed;
    }

    /** Check the manifest and collect what is out of date; the first unacceptable record raises. */
    method Observe(scope: Scope, manifest: seq<FileChange>)
      returns (error: Option<ReconcileError>, observed: set<DocumentId>, candidates: seq<FileChange>, kept: nat)
      requires catalog == pipeline.catalog
      ensures error.None? <==> Complete(scope, manifest)
      ensures error.Some? ==> error.value != WriteFailed
      ensures error.None? ==>
                && observed == Documents(manifest) && candidates == Outdated(pipeline.Shelved(), manifest)
                && kept + |candidates| == |manifest|
    {
      hide Complete, Strings.Blank, FingerprintOf, Documents, Within;
      NothingIsComplete(scope);
      error, observed, candidates, kept := None, {}, [], 0;
      assert manifest[..0] == [];
      for i := 0 to |manifest|
        invariant Complete(scope, manifest[..i]) && observed == Documents(manifest[..i])
        invariant candidates == Outdated(pipeline.Shelved(), manifest[..i]) && kept + |candidates| == i
      {
        var c := manifest[i];
        assert manifest[..i + 1] == manifest[..i] + [c] && manifest[..i + 1][..i] == manifest[..i];
        CompleteOneMore(scope, manifest, i);
        DocumentsOneMore(manifest[..i], c);
        if c.kind != Upsert { error := Some(NotAnUpsert); return; }
        if !Within(scope, c.source.id) { error := Some(CrossesScope); return; }
        if c.source.id in observed { error := Some(DuplicateDocument); return; }
        observed := observed + {c.source.id};
        var indexMissing := !Strings.Blank(Text(c.content)) && !pipeline.index.HasDocument(c.source.id);
        if catalog.NeedsUpsert(c) || indexMissing {
          candidates := candidates + [c];
        } else {
          kept := kept + 1;
        }
      }
      assert manifest[..|manifest|] == manifest;
    }

    /** Bring one scope to its manifest. Nothing is written unless the whole manifest is acceptable. */
    method Reconcile(scope: Scope, manifest: seq<FileChange>, budget: nat) returns (r: Result<Reconciled, ReconcileError>)
      requires catalog == pipeline.catalog && Keyed(catalog.rows)
      modifies pipeline.index, catalog
      ensures r.Err? && r.error != WriteFailed <==> !Complete(scope, manifest)
      ensures !Complete(scope, manifest) ==> pipeline.Shelved() == old(pipeline.Shelved())
      ensures r.Ok? ==>
                && (forall d :: InScope(scope, d) ==>
                      (d in catalog.rows && catalog.rows[d].state.Active? <==> exists c :: c in manifest && c.source.id == d))
                && (forall c :: c in manifest ==>
                      && c.source.id in catalog.rows && DescribesChange(catalog.rows[c.source.id], c)
                      && (c.source.id in pipeline.index.documents || Strings.Blank(Text(c.content))))
      ensures r.Ok? ==>
                && Matches(pipeline.Shelved(), scope, manifest)
                && (forall d :: !InScope(scope, d) ==> SameAt(old(pipeline.Shelved()), pipeline.Shelved(), d))
                && r.value.kept + r.value.upserted == |manifest|
                && r.value.deleted == |ActiveIn(old(pipeline.Shelved()), scope) - Documents(manifest)|
      ensures Complete(scope, manifest) && Matches(old(pipeline.Shelved()), scope, manifest) ==>
                r == Ok(Reconciled(|manifest|, 0, 0, 0)) && pipeline.Shelved() == old(pipeline.Shelved())
      ensures Keyed(catalog.rows)
    {
      var error, observed, candidates, kept := Observe(scope, manifest);
      if error.Some? { return Err(error.value); }
      var deletes := Missing(scope, observed);
      Prepared(pipeline.Shelved(), scope, manifest, deletes, budget, pipeline.chunker);
      var counts := pipeline.ApplyChanges(candidates + deletes, None, budget);
      if counts.None? { return Err(WriteFailed); }
      MatchSays(pipeline.Shelved(), scope, manifest);
      r := Ok(Reconciled(kept, counts.value.upserted, counts.value.deleted, counts.value.chunks));
    }
  }

  /** What the candidates of a reconcile come to, whether all of their writes succeed or some fail. */
  lemma Prepared(s: Shelf, scope: Scope, manifest: seq<FileChange>, deletes: seq<FileChange>, budget: nat, chunker: Chunker)
    requires Complete(scope, manifest) && Removes(s, scope, manifest, deletes) && Keyed(s.catalog)
    ensures var candidates := Outdated(s, manifest) + deletes;
            var ws := Writes(candidates, None, chunker);
            && Matches(After(s, ws), scope, manifest)
            && (forall d :: !Within(scope, d) ==> SameAt(s, After(s, ws), d))
            && Counted(candidates, chunker).upserted == |Outdated(s, manifest)|
            && Counted(candidates, chunker).deleted == |deletes|
            && Keyed(After(s, if budget >= |ws| then ws else ws[..budget]).catalog)
            && (Matches(s, scope, manifest) ==> candidates == [])
  {
    var candidates := Outdated(s, manifest) + deletes;
    ApplyingCandidatesMatches(s, scope, manifest, deletes, chunker);
    OutdatedAre(s, manifest);
    CountedSplits(Outdated(s, manifest), deletes, chunker);
    RecordsAreKeyed(candidates, None, chunker);
    var ws := Writes(candidates, None, chunker);
    AfterKeepsKeyed(s, if budget >= |ws| then ws else ws[..budget]);
    assert deletes != [] ==> deletes[0].source.id in Documents(deletes);
    assert Outdated(s, manifest) != [] ==> Outdated(s, manifest)[0] in Outdated(s, manifest);
    assert Matches(s, scope, manifest) ==> Documents(deletes) == {};
  }
}
