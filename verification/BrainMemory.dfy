/** Governed source changes written through the durable store, with a journal of each source's contribution. */
module BrainMemory {
  import opened Wrappers
  import opened BrainTypes
  import opened BrainStore
  import opened MemoryCommands
  import Brain = CompanyBrain

  datatype ProjectionState = ActiveSource | DeletedSource

  /** Hashes are modelled by the content they are taken of. */
  datatype Fingerprint =
    | FileContent(change: Brain.FileChange)
    | DocumentContent(document: Brain.KnowledgeDocument)
    | Removed(source: SourceKey)

  /** One source's contribution; each of its edges cites exactly its evidence. */
  datatype Projection = Projection(
    source: SourceKey, state: ProjectionState, fingerprint: Fingerprint, provenance: Provenance,
    entityIds: set<EntityId>, owned: set<EntityId>, evidence: set<EntityId>, edges: set<EdgeKey>)

  datatype Memory = Memory(tables: Tables, journal: map<SourceKey, Projection>)

  datatype Call =
    | UpsertFile(change: Brain.FileChange, eventId: Option<string>)
    | UpsertDocument(document: Brain.KnowledgeDocument, eventId: Option<string>)
    | Remove(source: SourceKey, revision: string, eventId: Option<string>)

  /** The orders in which `sorted` lists ids, edges and journal rows. */
  datatype Collation = Collation(
    ids: set<EntityId> -> seq<EntityId>, edges: set<EdgeKey> -> seq<EdgeKey>, rows: set<Projection> -> seq<Projection>)

  ghost predicate Sorts(o: Collation) {
    && (forall s :: Lists(o.ids(s), s))
    && (forall s :: Lists(o.edges(s), s))
    && (forall s :: Lists(o.rows(s), s))
  }

  predicate Visible(t: Tables, edge: EdgeKey) {
    Active(t, EdgeRecord(edge)) && Active(t, EntityRecord(edge.source)) && Active(t, EntityRecord(edge.target))
  }

  function EvidenceOf(t: Tables, edge: EdgeKey): set<EntityId> {
    if EdgeRecord(edge) in t.rows && t.rows[EdgeRecord(edge)].value.EdgeValue?
    then t.rows[EdgeRecord(edge)].value.evidence else {}
  }

  /** A snapshot can be rebuilt: every visible edge joins two entities and cites only active evidence. */
  ghost predicate Closed(t: Tables) {
    forall edge :: Visible(t, edge) ==> Grounded(t, edge)
  }

  ghost predicate Grounded(t: Tables, edge: EdgeKey) {
    edge.source != edge.target && forall e :: e in EvidenceOf(t, edge) ==> Active(t, EvidenceRecord(e))
  }

  function ActiveEntities(t: Tables): set<EntityId> {
    set k | k in t.rows && k.EntityRecord? && Active(t, k) :: k.id
  }

  function EdgesCiting(t: Tables, e: EntityId): set<EdgeKey> {
    set k | k in t.rows && k.EdgeRecord? && Visible(t, k.edge) && e in EvidenceOf(t, k.edge) :: k.edge
  }

  function ActiveRows(journal: map<SourceKey, Projection>): set<Projection> {
    set s | s in journal && journal[s].state.ActiveSource? :: journal[s]
  }

  /** The rows that count once `source` is replaced by `next`. */
  function Candidates(journal: map<SourceKey, Projection>, source: SourceKey, next: Option<Projection>): set<Projection> {
    (set s | s in journal && s != source && journal[s].state.ActiveSource? :: journal[s])
    + if next.Some? then {next.value} else {}
  }

  /** The evidence a set of rows contributes to an edge. */
  function Membership(rows: set<Projection>, edge: EdgeKey): set<EntityId> {
    set p, e | p in rows && edge in p.edges && e in p.evidence :: e
  }

  function EvidenceHeld(rows: set<Projection>): set<EntityId> {
    set p, e | p in rows && e in p.evidence :: e
  }

  function OwnedHeld(rows: set<Projection>): set<EntityId> {
    set p, id | p in rows && id in p.owned :: id
  }

  /** The provenance of the first row that contributes the edge. */
  function FirstProvenance(rows: seq<Projection>, edge: EdgeKey, otherwise: Provenance): Provenance {
    if rows == [] then otherwise
    else if edge in rows[0].edges then rows[0].provenance
    else FirstProvenance(rows[1..], edge, otherwise)
  }

  function EdgesOf(row: Option<Projection>): set<EdgeKey> {
    if row.Some? then row.value.edges else {}
  }

  function EvidenceIn(row: Option<Projection>): set<EntityId> {
    if row.Some? then row.value.evidence else {}
  }

  function OwnedIn(row: Option<Projection>): set<EntityId> {
    if row.Some? then row.value.owned else {}
  }

  function EnsureCommands(ids: seq<EntityId>, em: Brain.Emission, p: Provenance): seq<Command>
    requires forall id :: id in ids ==> id in em.facts
  {
    seq(|ids|, i requires 0 <= i < |ids| => EnsureEntity(ids[i], em.facts[ids[i]], p))
    + [EnsureEvidence(em.evidenceId, em.pointer, p)]
  }

  function SettleCommands(edges: seq<EdgeKey>, rows: set<Projection>, order: seq<Projection>, p: Provenance): seq<Command> {
    seq(|edges|, i requires 0 <= i < |edges| =>
      SettleEdge(edges[i], Membership(rows, edges[i]), FirstProvenance(order, edges[i], p)))
  }

  function RetireCommands(evidence: seq<EntityId>, owned: seq<EntityId>): seq<Command> {
    seq(|evidence|, i requires 0 <= i < |evidence| => RetireEvidence(evidence[i]))
    + seq(|owned|, i requires 0 <= i < |owned| => RetireEntity(owned[i]))
  }

  /** Reconcile every edge the old or the new row names, then retire what no row needs any more. */
  function ReconcileCommands(o: Collation, previous: Option<Projection>, next: Option<Projection>,
                             rows: set<Projection>, p: Provenance): seq<Command>
  {
    SettleCommands(o.edges(EdgesOf(previous) + EdgesOf(next)), rows, o.rows(rows), p)
    + RetireCommands(o.ids(EvidenceIn(previous) - EvidenceHeld(rows)), o.ids(OwnedIn(previous) - OwnedHeld(rows)))
  }

  function Previous(m: Memory, source: SourceKey): Option<Projection> {
    if source in m.journal then Some(m.journal[source]) else None
  }

  /** An event id may not project different state or content. */
  predicate ConflictingReplay(previous: Option<Projection>, state: ProjectionState, f: Fingerprint, p: Provenance) {
    && previous.Some? && p.eventId.Some? && previous.value.provenance.eventId == p.eventId
    && (previous.value.state != state || previous.value.fingerprint != f)
  }

  /** The row an upsert will journal: the emission, plus what the snapshot already ties to its evidence. */
  function Contribution(t: Tables, source: SourceKey, f: Fingerprint, p: Provenance, em: Brain.Emission): Projection {
    Projection(source, ActiveSource, f, p, em.facts.Keys, set id | id in em.facts && SourceOwned(id.kind) :: id,
               {em.evidenceId}, em.edges + EdgesCiting(t, em.evidenceId))
  }

  /** What a call is about to do: refuse, change nothing, or write and then journal a row. */
  datatype Plan =
    | Refuse
    | Unchanged
    | Work(commands: seq<Command>, row: Projection)

  ghost function PlanUpsert(o: Collation, m: Memory, source: SourceKey, f: Fingerprint, p: Provenance,
                            em: Brain.Emission): Plan
    requires Sorts(o)
  {
    var previous := Previous(m, source);
    var next := Contribution(m.tables, source, f, p, em);
    var rows := Candidates(m.journal, source, Some(next));
    Work(EnsureCommands(o.ids(em.facts.Keys), em, p) + ReconcileCommands(o, previous, Some(next), rows, p), next)
  }

  function TombstoneRow(previous: Projection, source: SourceKey, f: Fingerprint, p: Provenance): Projection {
    previous.(source := source, state := DeletedSource, fingerprint := f, provenance := p)
  }

  ghost function PlanRemove(o: Collation, m: Memory, source: SourceKey, f: Fingerprint, p: Provenance): Plan {
    match Previous(m, source)
    case None => Work([], Projection(source, DeletedSource, f, p, {}, {}, {}, {}))
    case Some(previous) =>
      if previous.state.DeletedSource? then Unchanged
      else Work(ReconcileCommands(o, Some(previous), None, Candidates(m.journal, source, None), p), TombstoneRow(previous, source, f, p))
  }

  const FILE_POLICY := "company-brain-file-change-projection:v1"
  const KNOWLEDGE_POLICY := "company-brain-knowledge-document-projection:v1"

  function SourceOf(call: Call): SourceKey {
    match call
    case UpsertFile(c, _) => Brain.FileSourceKey(c)
    case UpsertDocument(d, _) => Brain.DocumentKey(d)
    case Remove(source, _, _) => source
  }

  function ProvenanceOf(call: Call): Provenance {
    var source := SourceOf(call);
    var policy := if source.FileSource? then FILE_POLICY else KNOWLEDGE_POLICY;
    match call
    case UpsertFile(c, e) => Provenance(source.provider, source, c.commit, policy, e)
    case UpsertDocument(d, e) => Provenance(source.provider, source, d.revision, policy, e)
    case Remove(_, revision, e) => Provenance(source.provider, source, revision, policy, e)
  }

  function FingerprintOf(call: Call): Fingerprint {
    match call
    case UpsertFile(c, _) => FileContent(c)
    case UpsertDocument(d, _) => DocumentContent(d)
    case Remove(source, _, _) => Removed(source)
  }

  function StateOf(call: Call): ProjectionState {
    if call.Remove? then DeletedSource else ActiveSource
  }

  function EmissionOf(t: Tables, call: Call): Brain.Emission
    requires !call.Remove?
  {
    match call
    case UpsertFile(c, _) => Brain.FileEmission(c)
    case UpsertDocument(d, _) => Brain.DocumentEmission(d, ActiveEntities(t))
  }

  ghost function PlanOf(o: Collation, m: Memory, call: Call): Plan
    requires Sorts(o)
  {
    var source, f, p := SourceOf(call), FingerprintOf(call), ProvenanceOf(call);
    var previous := Previous(m, source);
    if ConflictingReplay(previous, StateOf(call), f, p) then Refuse
    else if call.Remove? then PlanRemove(o, m, source, f, p)
    else if previous.Some? && previous.value.state.ActiveSource? && previous.value.fingerprint == f then Unchanged
    else if !Closed(m.tables) then Refuse
    else if call.UpsertDocument? && Brain.SelfReferring(call.document) then Refuse
    else PlanUpsert(o, m, source, f, p, EmissionOf(m.tables, call))
  }

  /** A call that returns normally, or an error when it raises. */
  ghost function Complete(o: Collation, m: Memory, call: Call): Result<Memory, ()>
    requires Sorts(o)
  {
    match PlanOf(o, m, call)
    case Refuse => Err(())
    case Unchanged => Ok(m)
    case Work(cs, row) =>
      match RunAll(m.tables, cs)
      case Err(_) => Err(())
      case Ok(t) => Ok(Memory(t, m.journal[row.source := row]))
  }

  function CommandsOf(plan: Plan): seq<Command> {
    if plan.Work? then plan.commands else []
  }

  /** The call can make its first `n` store writes. */
  ghost predicate Reaches(o: Collation, m: Memory, call: Call, n: nat)
    requires Sorts(o)
  {
    var cs := CommandsOf(PlanOf(o, m, call));
    n <= |cs| && RunAll(m.tables, cs[..n]).Ok?
  }

  /** The memory a call leaves behind when it stops after its first `n` store writes. */
  ghost function Interrupted(o: Collation, m: Memory, call: Call, n: nat): Memory
    requires Sorts(o) && Reaches(o, m, call, n)
  {
    Memory(RunAll(m.tables, CommandsOf(PlanOf(o, m, call))[..n]).value, m.journal)
  }
}
