/** Source documents, the retrieval index and the source catalog, and the writes that apply an event to them. */
module Ingestion {
  import opened Wrappers

  /** The document id joins everything of a source but its commit. */
  datatype DocumentId = DocumentId(provider: string, repository: string, branch: string, path: string)

  datatype Source = Source(id: DocumentId, commit: string)

  datatype Acl = Acl(groups: seq<string>, users: seq<string>)

  datatype ChangeType = Upsert | Delete

  datatype FileChange = FileChange(
    source: Source, kind: ChangeType, content: Option<string>, language: Option<string>, owner: Option<string>,
    service: Option<string>, acl: Acl)

  datatype Event = Event(id: string, changes: seq<FileChange>)

  datatype Chunk = Chunk(ordinal: nat, content: string)

  /** Chunking is any function of the change. */
  type Chunker = FileChange -> seq<Chunk>

  /** Every attribute that changes indexed evidence or access; equal fingerprints mean equal attributes. */
  datatype Fingerprint = Fingerprint(
    source: Source, content: string, language: Option<string>, owner: Option<string>, service: Option<string>,
    groups: set<string>, users: set<string>)

  datatype SourceState = Active | Deleted

  datatype Row = Row(source: Source, fingerprint: Fingerprint, state: SourceState, lastEvent: Option<string>)

  /** The index next to the catalog. */
  datatype Shelf = Shelf(index: map<DocumentId, seq<Chunk>>, catalog: map<DocumentId, Row>)

  datatype Counts = Counts(upserted: nat, deleted: nat, chunks: nat)

  function Text(content: Option<string>): string {
    if content.Some? then content.value else ""
  }

  function FingerprintOf(c: FileChange): Fingerprint {
    Fingerprint(c.source, Text(c.content), c.language, c.owner, c.service,
                set g | g in c.acl.groups, set u | u in c.acl.users)
  }

  /** Fingerprints are equal exactly when everything that changes indexed evidence or access is: the source and its
      commit, the text, the language, the owner, the service, and who may read it, in whatever order it is listed. */
  lemma SameFingerprintIff(a: FileChange, b: FileChange)
    ensures FingerprintOf(a) == FingerprintOf(b) <==>
              && a.source == b.source && Text(a.content) == Text(b.content)
              && a.language == b.language && a.owner == b.owner && a.service == b.service
              && (forall g :: g in a.acl.groups <==> g in b.acl.groups) && (forall u :: u in a.acl.users <==> u in b.acl.users)
  {
    var f, g := FingerprintOf(a), FingerprintOf(b);
    if f == g {
      forall x ensures x in a.acl.groups <==> x in b.acl.groups { assert x in f.groups <==> x in g.groups; }
      forall x ensures x in a.acl.users <==> x in b.acl.users { assert x in f.users <==> x in g.users; }
    }
  }

  /** The row describes this change: its source, its text, its attributes and its readers. */
  ghost predicate DescribesChange(row: Row, c: FileChange) {
    var f := row.fingerprint;
    && row.source == c.source && f.source == c.source
    && f.content == (match c.content case Some(text) => text case None => "")
    && f.language == c.language && f.owner == c.owner && f.service == c.service
    && (forall g :: g in f.groups <==> g in c.acl.groups) && (forall u :: u in f.users <==> u in c.acl.users)
  }

  lemma RowDescribesItsChange(c: FileChange, event: Option<string>)
    ensures DescribesChange(RowOf(c, event), c) && RowOf(c, event).lastEvent == event
    ensures RowOf(c, event).state.Active? <==> c.kind.Upsert?
  {
  }

  function RowOf(c: FileChange, event: Option<string>): Row {
    Row(c.source, FingerprintOf(c), if c.kind.Delete? then Deleted else Active, event)
  }

  function Without<V>(m: map<DocumentId, V>, d: DocumentId): map<DocumentId, V> {
    map k | k in m && k != d :: m[k]
  }

  /** One durable write: the index first, then the catalog. */
  datatype Write =
    | Replace(id: DocumentId, chunks: seq<Chunk>)
    | Drop(id: DocumentId)
    | Record(id: DocumentId, row: Row)

  function Put(s: Shelf, w: Write): Shelf {
    match w
    case Replace(id, chunks) => s.(index := s.index[id := chunks])
    case Drop(id) => s.(index := Without(s.index, id))
    case Record(id, row) => s.(catalog := s.catalog[id := row])
  }

  function IndexWrite(c: FileChange, chunker: Chunker): Write {
    if c.kind.Delete? then Drop(c.source.id) else Replace(c.source.id, chunker(c))
  }

  function WritesOf(c: FileChange, event: Option<string>, chunker: Chunker): seq<Write> {
    [IndexWrite(c, chunker), Record(c.source.id, RowOf(c, event))]
  }

  function Writes(changes: seq<FileChange>, event: Option<string>, chunker: Chunker): (ws: seq<Write>)
    ensures |ws| == 2 * |changes|
  {
    if changes == [] then []
    else Writes(changes[..|changes| - 1], event, chunker) + WritesOf(changes[|changes| - 1], event, chunker)
  }

  /** The shelf after a sequence of writes. */
  function After(s: Shelf, ws: seq<Write>): Shelf {
    if ws == [] then s else Put(After(s, ws[..|ws| - 1]), ws[|ws| - 1])
  }

  function Applied(s: Shelf, changes: seq<FileChange>, event: Option<string>, chunker: Chunker): Shelf {
    After(s, Writes(changes, event, chunker))
  }

  function Counted(changes: seq<FileChange>, chunker: Chunker): Counts {
    if changes == [] then Counts(0, 0, 0)
    else
      var before, c := Counted(changes[..|changes| - 1], chunker), changes[|changes| - 1];
      if c.kind.Delete? then before.(deleted := before.deleted + 1)
      else Counts(before.upserted + 1, before.deleted, before.chunks + |chunker(c)|)
  }

  function Documents(changes: seq<FileChange>): set<DocumentId> {
    set c | c in changes :: c.source.id
  }

  /** The two shelves hold the same for this document. */
  ghost predicate SameAt(s: Shelf, t: Shelf, d: DocumentId) {
    && (d in s.index <==> d in t.index) && (d in s.index ==> s.index[d] == t.index[d])
    && (d in s.catalog <==> d in t.catalog) && (d in s.catalog ==> s.catalog[d] == t.catalog[d])
  }

  lemma SameEverywhere(s: Shelf, t: Shelf)
    requires forall d :: SameAt(s, t, d)
    ensures s == t
  {
    forall d ensures (d in s.index <==> d in t.index) && (d in s.index ==> s.index[d] == t.index[d]) {
      assert SameAt(s, t, d);
    }
    assert s.index == t.index;
    forall d ensures (d in s.catalog <==> d in t.catalog) && (d in s.catalog ==> s.catalog[d] == t.catalog[d]) {
      assert SameAt(s, t, d);
    }
    assert s.catalog == t.catalog;
  }

  lemma {:induction false} AfterAppend(s: Shelf, ws: seq<Write>, more: seq<Write>)
    ensures After(s, ws + more) == After(After(s, ws), more)
  {
    if more == [] {
      assert ws + more == ws;
    } else {
      AfterAppend(s, ws, more[..|more| - 1]);
      assert (ws + more)[..|ws + more| - 1] == ws + more[..|more| - 1];
    }
  }

  lemma {:induction false} AfterKeepsSame(s: Shelf, t: Shelf, ws: seq<Write>, d: DocumentId)
    requires SameAt(s, t, d)
    ensures SameAt(After(s, ws), After(t, ws), d)
  {
    if ws != [] { AfterKeepsSame(s, t, ws[..|ws| - 1], d); }
  }

  lemma {:induction false} AfterLeavesAlone(s: Shelf, ws: seq<Write>, d: DocumentId)
    requires forall w :: w in ws ==> w.id != d
    ensures SameAt(s, After(s, ws), d)
  {
    if ws != [] { AfterLeavesAlone(s, ws[..|ws| - 1], d); }
  }

  lemma {:induction false} WritesAreOnDocuments(changes: seq<FileChange>, event: Option<string>, chunker: Chunker)
    ensures forall w :: w in Writes(changes, event, chunker) ==> w.id in Documents(changes)
  {
    if changes != [] { WritesAreOnDocuments(changes[..|changes| - 1], event, chunker); }
  }

  /** Applying changes decides both tables for their documents, whatever was there before. */
  lemma {:induction false} AppliedDecides(s: Shelf, t: Shelf, changes: seq<FileChange>, event: Option<string>, chunker: Chunker, d: DocumentId)
    requires d in Documents(changes)
    ensures SameAt(Applied(s, changes, event, chunker), Applied(t, changes, event, chunker), d)
  {
    var n := |changes| - 1;
    var before, c := changes[..n], changes[n];
    assert changes == before + [c];
    var ws := Writes(before, event, chunker);
    AppliedLast(s, changes, event, chunker);
    AppliedLast(t, changes, event, chunker);
    if d != c.source.id {
      AppliedDecides(s, t, before, event, chunker, d);
    }
  }

  lemma AppliedLast(s: Shelf, changes: seq<FileChange>, event: Option<string>, chunker: Chunker)
    requires changes != []
    ensures var n := |changes| - 1;
            Applied(s, changes, event, chunker)
            == Put(Put(Applied(s, changes[..n], event, chunker), IndexWrite(changes[n], chunker)),
                   Record(changes[n].source.id, RowOf(changes[n], event)))
  {
    var n := |changes| - 1;
    var ws, last := Writes(changes[..n], event, chunker), WritesOf(changes[n], event, chunker);
    assert Writes(changes, event, chunker) == ws + last;
    AfterAppend(s, ws, last);
    var mid := After(s, ws);
    assert last[..1] == [last[0]] && last[..1][..0] == [];
    assert After(mid, last[..1]) == Put(mid, last[0]);
  }

  /** What an event cut off after any of its writes leaves untouched. */
  lemma CutOffTouchesOnlyItsDocuments(s: Shelf, changes: seq<FileChange>, event: Option<string>, chunker: Chunker, k: nat, d: DocumentId)
    requires k <= |Writes(changes, event, chunker)| && d !in Documents(changes)
    ensures SameAt(s, After(s, Writes(changes, event, chunker)[..k]), d)
  {
    WritesAreOnDocuments(changes, event, chunker);
    AfterLeavesAlone(s, Writes(changes, event, chunker)[..k], d);
  }

  /** Applying an event again, after any of its writes, ends where one uninterrupted application ends. */
  lemma ReapplyingEqualsApplying(s: Shelf, changes: seq<FileChange>, event: Option<string>, chunker: Chunker, k: nat)
    requires k <= |Writes(changes, event, chunker)|
    ensures Applied(After(s, Writes(changes, event, chunker)[..k]), changes, event, chunker) == Applied(s, changes, event, chunker)
  {
    var ws := Writes(changes, event, chunker);
    var half := After(s, ws[..k]);
    forall d ensures SameAt(Applied(half, changes, event, chunker), Applied(s, changes, event, chunker), d) {
      if d in Documents(changes) {
        AppliedDecides(half, s, changes, event, chunker, d);
      } else {
        CutOffTouchesOnlyItsDocuments(s, changes, event, chunker, k, d);
        AfterKeepsSame(s, half, ws, d);
      }
    }
    SameEverywhere(Applied(half, changes, event, chunker), Applied(s, changes, event, chunker));
  }

  class InMemoryIndex {
    var documents: map<DocumentId, seq<Chunk>>

    constructor ()
      ensures documents == map[]
    {
      documents := map[];
    }

    method ReplaceDocument(d: DocumentId, chunks: seq<Chunk>)
      modifies this
      ensures documents == old(documents)[d := chunks]
    {
      documents := documents[d := chunks];
    }

    method DeleteDocument(d: DocumentId)
      modifies this
      ensures documents == Without(old(documents), d)
    {
      documents := Without(documents, d);
    }

    predicate HasDocument(d: DocumentId)
      reads this
    {
      d in documents
    }
  }

  class SqliteSourceCatalog {
    var rows: map<DocumentId, Row>

    constructor ()
      ensures rows == map[]
    {
      rows := map[];
    }

    predicate NeedsUpsert(c: FileChange)
      reads this
    {
      c.source.id !in rows || rows[c.source.id].state != Active || rows[c.source.id].fingerprint != FingerprintOf(c)
    }

    /** Insert or overwrite the one row of the change's document. */
    method RecordChange(c: FileChange, event: Option<string>)
      modifies this
      ensures rows == old(rows)[c.source.id := RowOf(c, event)]
    {
      rows := rows[c.source.id := RowOf(c, event)];
    }
  }

  class IngestionPipeline {
    const index: InMemoryIndex
    const catalog: SqliteSourceCatalog
    const chunker: Chunker
    var processed: set<string>

    ghost function Shelved(): Shelf
      reads index, catalog
    {
      Shelf(index.documents, catalog.rows)
    }

    constructor (index: InMemoryIndex, catalog: SqliteSourceCatalog, chunker: Chunker)
      ensures this.index == index && this.catalog == catalog && this.chunker == chunker && processed == {}
    {
      this.index, this.catalog, this.chunker, processed := index, catalog, chunker, {};
    }

    /** Index first, then catalog; `done` is false when the write after `budget` others failed. */
    method ApplyChange(c: FileChange, event: Option<string>, budget: nat) returns (done: bool)
      modifies index, catalog
      ensures done <==> budget >= 2
      ensures Shelved() == After(old(Shelved()), WritesOf(c, event, chunker)[..if budget < 2 then budget else 2])
    {
      ghost var ws := WritesOf(c, event, chunker);
      AfterOneMore(Shelved(), ws, 0);
      AfterOneMore(Shelved(), ws, 1);
      if budget == 0 { return false; }
      if c.kind.Delete? {
        index.DeleteDocument(c.source.id);
      } else {
        index.ReplaceDocument(c.source.id, chunker(c));
      }
      if budget == 1 { return false; }
      catalog.RecordChange(c, event);
      done := true;
    }

    /** Apply changes in order. The write after `budget` others fails; what was written before it stays. */
    method ApplyChanges(changes: seq<FileChange>, event: Option<string>, budget: nat) returns (counts: Option<Counts>)
      modifies index, catalog
      ensures var ws := Writes(changes, event, chunker);
              && counts == (if budget >= |ws| then Some(Counted(changes, chunker)) else None)
              && Shelved() == After(old(Shelved()), if budget >= |ws| then ws else ws[..budget])
    {
      var upserted: nat, deleted: nat, chunksWritten: nat := 0, 0, 0;
      ghost var before := Shelved();
      for i := 0 to |changes|
        invariant Counts(upserted, deleted, chunksWritten) == Counted(changes[..i], chunker)
        invariant 2 * i <= budget && Shelved() == Applied(before, changes[..i], event, chunker)
      {
        var c := changes[i];
        assert changes[..i + 1][..i] == changes[..i];
        var done := ApplyChange(c, event, budget - 2 * i);
        AppliedPartly(before, changes, event, chunker, i, if budget - 2 * i < 2 then budget - 2 * i else 2);
        if !done { return None; }
        AppliedWhole(before, changes, event, chunker, i);
        if c.kind.Delete? {
          deleted := deleted + 1;
        } else {
          upserted, chunksWritten := upserted + 1, chunksWritten + |chunker(c)|;
        }
      }
      assert changes[..|changes|] == changes;
      counts := Some(Counts(upserted, deleted, chunksWritten));
    }

    /** Apply an event once per process; a raised error leaves it unprocessed. */
    method Process(e: Event, budget: nat) returns (counts: Option<Counts>, duplicate: bool)
      modifies this, index, catalog
      ensures duplicate <==> e.id in old(processed)
      ensures duplicate ==> counts.Some? && Shelved() == old(Shelved()) && processed == old(processed)
      ensures !duplicate ==>
                var ws := Writes(e.changes, Some(e.id), chunker);
                && counts == (if budget >= |ws| then Some(Counted(e.changes, chunker)) else None)
                && Shelved() == After(old(Shelved()), if budget >= |ws| then ws else ws[..budget])
                && processed == if counts.Some? then old(processed) + {e.id} else old(processed)
    {
      if e.id in processed { return Some(Counts(0, 0, 0)), true; }
      counts := ApplyChanges(e.changes, Some(e.id), budget);
      duplicate := false;
      if counts.Some? { processed := processed + {e.id}; }
    }
  }

  lemma {:induction false} WritesPrefix(changes: seq<FileChange>, event: Option<string>, chunker: Chunker, i: nat)
    requires i < |changes|
    ensures var ws := Writes(changes, event, chunker);
            && ws[..2 * i] == Writes(changes[..i], event, chunker)
            && ws[2 * i] == IndexWrite(changes[i], chunker)
            && ws[2 * i + 1] == Record(changes[i].source.id, RowOf(changes[i], event))
    decreases |changes|
  {
    var n := |changes| - 1;
    if i < n {
      WritesPrefix(changes[..n], event, chunker, i);
      assert changes[..n][..i] == changes[..i];
    }
  }

  /** The shelf after the first `i` changes and `j` writes of the next. */
  lemma AppliedPartly(s: Shelf, changes: seq<FileChange>, event: Option<string>, chunker: Chunker, i: nat, j: nat)
    requires i < |changes| && j <= 2
    ensures After(s, Writes(changes, event, chunker)[..2 * i + j])
         == After(Applied(s, changes[..i], event, chunker), WritesOf(changes[i], event, chunker)[..j])
  {
    WritesPrefix(changes, event, chunker, i);
    AfterAppend(s, Writes(changes[..i], event, chunker), WritesOf(changes[i], event, chunker)[..j]);
    assert Writes(changes, event, chunker)[..2 * i + j]
        == Writes(changes[..i], event, chunker) + WritesOf(changes[i], event, chunker)[..j];
  }

  lemma AppliedWhole(s: Shelf, changes: seq<FileChange>, event: Option<string>, chunker: Chunker, i: nat)
    requires i < |changes|
    ensures Applied(s, changes[..i + 1], event, chunker)
         == After(Applied(s, changes[..i], event, chunker), WritesOf(changes[i], event, chunker)[..2])
  {
    AppliedPartly(s, changes[..i + 1], event, chunker, i, 2);
    assert changes[..i + 1][..i] == changes[..i];
    var ws := Writes(changes[..i + 1], event, chunker);
    assert ws[..2 * i + 2] == ws;
  }

  lemma AfterOneMore(s: Shelf, ws: seq<Write>, i: nat)
    requires i < |ws|
    ensures After(s, ws[..i + 1]) == Put(After(s, ws[..i]), ws[i])
  {
    assert ws[..i + 1][..i] == ws[..i];
  }
}
