/** The in-memory world model and the projection of one governed source record into it. */
module CompanyBrain {
  import opened Wrappers
  import opened BrainTypes
  import opened Reachability

  datatype Model = Model(
    entities: map<EntityId, EntityFact>, evidence: map<EntityId, Pointer>, edges: map<EdgeKey, set<EntityId>>)

  datatype Acl = Acl(groups: set<string>, users: set<string>)

  datatype FileChange = FileChange(
    provider: string, repository: string, branch: string, commit: string, path: string,
    content: string, language: Option<string>, owner: Option<string>, service: Option<string>, acl: Acl)

  /** `causedBy` and `resolvedBy` are the declared metadata; prose is never read. */
  datatype KnowledgeDocument = KnowledgeDocument(
    provider: string, sourceType: SourceType, sourceId: string, title: string, revision: string,
    updatedAt: string, bodyHash: string, sourceUrl: Option<string>, owner: Option<string>, service: Option<string>,
    acl: Acl, causedBy: Option<EntityId>, resolvedBy: Option<EntityId>)

  /** Everything one source record states: its entities, its one evidence pointer and the edges it supports. */
  datatype Emission = Emission(
    facts: map<EntityId, EntityFact>, evidenceId: EntityId, pointer: Pointer, edges: set<EdgeKey>)

  predicate Given(o: Option<string>) {
    o.Some? && o.value != ""
  }

  function Attributes(key: string, value: Option<string>): map<string, string> {
    if Given(value) then map[key := value.value] else map[]
  }

  function RepositoryId(provider: string, repository: string): EntityId {
    EntityId(Repository, Scoped(provider, repository))
  }

  function ServiceId(service: string): EntityId {
    EntityId(Service, Plain(service))
  }

  function OwnerId(owner: string): EntityId {
    EntityId(Owner, Plain(owner))
  }

  function FileSourceKey(c: FileChange): SourceKey {
    FileSource(c.provider, c.repository, c.branch, c.path)
  }

  function ChangeId(c: FileChange): EntityId {
    EntityId(Change, Revision(FileSourceKey(c), c.commit))
  }

  function FileEvidenceId(c: FileChange): EntityId {
    EntityId(Evidence, Revision(FileSourceKey(c), c.commit))
  }

  function DocumentKey(d: KnowledgeDocument): SourceKey {
    KnowledgeSource(d.provider, d.sourceType, d.sourceId)
  }

  function ArtifactKind(t: SourceType): EntityKind {
    match t
    case WorkItemSource => WorkItem
    case DocumentationSource => Document
    case AdrSource => Adr
    case RunbookSource => Runbook
    case IncidentSource => Incident
    case DeploymentSource => Deployment
    case ConversationSource => Conversation
  }

  function SourceTypeName(t: SourceType): string {
    match t
    case WorkItemSource => "work_item"
    case DocumentationSource => "documentation"
    case AdrSource => "adr"
    case RunbookSource => "runbook"
    case IncidentSource => "incident"
    case DeploymentSource => "deployment"
    case ConversationSource => "conversation"
  }

  function ArtifactId(d: KnowledgeDocument): EntityId {
    EntityId(ArtifactKind(d.sourceType), Scoped(d.provider, d.sourceId))
  }

  function DocumentEvidenceId(d: KnowledgeDocument): EntityId {
    EntityId(Evidence, Revision(DocumentKey(d), d.revision))
  }

  function RepositoryFact(c: FileChange): EntityFact {
    EntityFact(c.repository, Attributes("provider", Some(c.provider)) + Attributes("branch", Some(c.branch)))
  }

  function ChangeFact(c: FileChange): EntityFact {
    EntityFact(c.repository + "@" + c.commit + ":" + c.path,
               Attributes("branch", Some(c.branch)) + Attributes("commit_sha", Some(c.commit)) +
               Attributes("path", Some(c.path)) + map["change_type" := "upsert"] + Attributes("language", c.language))
  }

  function FilePointer(c: FileChange): Pointer {
    Pointer("repository-change", c.provider + ":" + c.repository + "@" + c.commit + ":" + c.path,
            c.commit, c.acl.groups, c.acl.users)
  }

  function FileFacts(c: FileChange): map<EntityId, EntityFact> {
    var facts := map[RepositoryId(c.provider, c.repository) := RepositoryFact(c)][ChangeId(c) := ChangeFact(c)];
    if !Given(c.service) then facts
    else
      var facts := facts[ServiceId(c.service.value) :=
                         EntityFact(c.service.value, Attributes("repository", Some(c.repository)))];
      if !Given(c.owner) then facts else facts[OwnerId(c.owner.value) := EntityFact(c.owner.value, map[])]
  }

  function FileEdges(c: FileChange): set<EdgeKey> {
    var repo, change, ev := RepositoryId(c.provider, c.repository), ChangeId(c), FileEvidenceId(c);
    var edges := {EdgeKey(repo, ChangedBy, change), EdgeKey(repo, HasEvidence, ev), EdgeKey(change, HasEvidence, ev)};
    if !Given(c.service) then edges
    else
      var service := ServiceId(c.service.value);
      var edges := edges + {EdgeKey(service, BelongsTo, repo), EdgeKey(service, ChangedBy, change),
                            EdgeKey(service, HasEvidence, ev)};
      if !Given(c.owner) then edges else edges + {EdgeKey(OwnerId(c.owner.value), Owns, service)}
  }

  function FileEmission(c: FileChange): Emission {
    Emission(FileFacts(c), FileEvidenceId(c), FilePointer(c), FileEdges(c))
  }

  /** The facts of a document; what it declares about other records depends on what is already known. */
  function ArtifactFact(d: KnowledgeDocument): EntityFact {
    EntityFact(d.title,
               Attributes("provider", Some(d.provider)) + map["source_type" := SourceTypeName(d.sourceType)] +
               Attributes("revision", Some(d.revision)) + Attributes("source_updated_at", Some(d.updatedAt)))
  }

  function DocumentFacts(d: KnowledgeDocument): map<EntityId, EntityFact> {
    var facts := map[ArtifactId(d) := ArtifactFact(d)];
    var facts := if Given(d.service) then facts[ServiceId(d.service.value) := EntityFact(d.service.value, map[])] else facts;
    if Given(d.owner) then facts[OwnerId(d.owner.value) := EntityFact(d.owner.value, map[])] else facts
  }

  function DocumentPointer(d: KnowledgeDocument): Pointer {
    Pointer(SourceTypeName(d.sourceType),
            if Given(d.sourceUrl) then d.sourceUrl.value
            else "knowledge:" + d.provider + ":" + SourceTypeName(d.sourceType) + ":" + d.sourceId,
            d.revision, d.acl.groups, d.acl.users)
  }

  function DocumentEdges(d: KnowledgeDocument): set<EdgeKey> {
    var artifact, ev := ArtifactId(d), DocumentEvidenceId(d);
    {EdgeKey(artifact, HasEvidence, ev)}
    + (if Given(d.service) then {EdgeKey(ServiceId(d.service.value), HasEvidence, ev)} else {})
    + (if Given(d.service) && d.sourceType.AdrSource? then {EdgeKey(ServiceId(d.service.value), GovernedBy, artifact)} else {})
    + (if Given(d.owner) then {EdgeKey(OwnerId(d.owner.value), Owns, artifact)} else {})
  }

  /** The causal edges an incident declares towards records that are known. */
  function DeclaredEdges(d: KnowledgeDocument, known: set<EntityId>): set<EdgeKey> {
    if !d.sourceType.IncidentSource? then {}
    else
      (if d.causedBy.Some? && d.causedBy.value in known then {EdgeKey(d.causedBy.value, Caused, ArtifactId(d))} else {})
      + (if d.resolvedBy.Some? && d.resolvedBy.value in known then {EdgeKey(ArtifactId(d), ResolvedBy, d.resolvedBy.value)} else {})
  }

  /** An incident that names itself as its cause or resolution cannot be projected. */
  predicate SelfReferring(d: KnowledgeDocument) {
    d.sourceType.IncidentSource? && (d.causedBy == Some(ArtifactId(d)) || d.resolvedBy == Some(ArtifactId(d)))
  }

  function DocumentEmission(d: KnowledgeDocument, known: set<EntityId>): Emission {
    Emission(DocumentFacts(d), DocumentEvidenceId(d), DocumentPointer(d),
             DocumentEdges(d) + DeclaredEdges(d, known + DocumentFacts(d).Keys + {DocumentEvidenceId(d)}))
  }

  function Cited(edges: map<EdgeKey, set<EntityId>>, k: EdgeKey): set<EntityId> {
    if k in edges then edges[k] else {}
  }

  /** Add evidence `e` to each of the edges `ks`, creating the missing ones. */
  function Cite(edges: map<EdgeKey, set<EntityId>>, ks: set<EdgeKey>, e: EntityId): map<EdgeKey, set<EntityId>> {
    map k | k in edges.Keys + ks :: Cited(edges, k) + if k in ks then {e} else {}
  }

  /** The model with one emission merged in. */
  function Absorb(m: Model, em: Emission): Model {
    Model((m.entities + em.facts)[em.evidenceId := StructuralFact(em.pointer)],
          m.evidence[em.evidenceId := em.pointer],
          Cite(m.edges, em.edges, em.evidenceId))
  }

  /** Every edge joins entities the model knows. */
  predicate Linked(m: Model) {
    forall k :: k in m.edges ==> k.source in m.entities && k.target in m.entities
  }

  /** The model without an entity and without every edge that names it; what other edges cite stays. */
  function WithoutEntity(m: Model, id: EntityId): Model {
    m.(entities := map k | k in m.entities && k != id :: m.entities[k],
       edges := map k | k in m.edges && k.source != id && k.target != id :: m.edges[k])
  }

  /** Dependencies of services, on whatever they name. */
  function ServiceLinks(keys: set<EdgeKey>): set<Link<EntityId>> {
    set k | k in keys && k.kind == DependsOn && k.source.kind == Service :: Link(k.source, k.target)
  }

  class CompanyBrain {
    var entities: map<EntityId, EntityFact>
    var evidence: map<EntityId, Pointer>
    var edges: map<EdgeKey, set<EntityId>>

    ghost function State(): Model
      reads this
    {
      Model(entities, evidence, edges)
    }

    constructor ()
      ensures State() == Model(map[], map[], map[])
    {
      entities, evidence, edges := map[], map[], map[];
    }

    method UpsertEntity(id: EntityId, fact: EntityFact)
      modifies this
      ensures State() == old(State()).(entities := old(entities)[id := fact])
      ensures Linked(old(State())) ==> Linked(State())
    {
      entities := entities[id := fact];
    }

    method RecordEvidence(id: EntityId, pointer: Pointer)
      modifies this
      ensures State() == Model(old(entities)[id := StructuralFact(pointer)], old(evidence)[id := pointer], old(edges))
      ensures entities[id] == EntityFact(pointer.citation, map["revision" := pointer.revision, "source_kind" := pointer.sourceKind])
      ensures Linked(old(State())) ==> Linked(State())
    {
      evidence := evidence[id := pointer];
      UpsertEntity(id, StructuralFact(pointer));
    }

    /** Link two known entities, merging the evidence with what the edge already cites. */
    method Relate(k: EdgeKey, cited: set<EntityId>) returns (raised: bool)
      modifies this`edges
      ensures !raised <==> k.source in old(entities) && k.target in old(entities)
                           && cited <= old(evidence).Keys && k.source != k.target
      ensures raised ==> State() == old(State())
      ensures !raised ==> State() == old(State()).(edges := old(edges)[k := cited + Cited(old(edges), k)])
      ensures !raised ==> k in edges && forall e :: e in edges[k] <==> e in cited || (k in old(edges) && e in old(edges)[k])
      ensures Linked(old(State())) ==> Linked(State())
    {
      if k.source !in entities || k.target !in entities { return true; }
      if !(cited <= evidence.Keys) { return true; }
      var merged := cited + if k in edges then edges[k] else {};
      if k.source == k.target { return true; }
      edges := edges[k := merged];
      return false;
    }

    /** Remove an entity and every edge that names it, so that no edge is left dangling. */
    method RemoveEntity(id: EntityId)
      modifies this
      ensures State() == WithoutEntity(old(State()), id)
      ensures Linked(old(State())) ==> Linked(State())
    {
      entities := map k | k in entities && k != id :: entities[k];
      edges := map k | k in edges && k.source != id && k.target != id :: edges[k];
    }

    /** Remove a pointer and the entity that stands for it. */
    method RemoveEvidence(id: EntityId)
      modifies this
      ensures State() == WithoutEntity(old(State()).(evidence := old(evidence) - {id}), id)
      ensures Linked(old(State())) ==> Linked(State())
    {
      evidence := evidence - {id};
      RemoveEntity(id);
    }

    /** The services among what depends on an item, read off the edges that point at it. */
    method IncomingServices(id: EntityId) returns (dependents: set<EntityId>)
      requires Linked(State())
      ensures dependents == DependentsOn(ServiceLinks(edges.Keys), {id})
    {
      dependents := set k | k in edges.Keys && k.target == id && k.kind == DependsOn
                            && k.source in entities && k.source.kind == Service :: k.source;
      forall k | k in edges && k.target == id && k.kind == DependsOn && k.source.kind == Service
        ensures k.source in DependentsOn(ServiceLinks(edges.Keys), {id})
      {
        assert Link(k.source, k.target) in ServiceLinks(edges.Keys);
      }
    }

    /** Changed items that are known, and every service that transitively depends on them. */
    method BlastRadius(changed: set<EntityId>) returns (seen: set<EntityId>)
      requires Linked(State())
      ensures seen == Impact(changed * entities.Keys, ServiceLinks(edges.Keys))
    {
      assert forall k :: k in edges ==> k.source in entities;
      ghost var links, start := ServiceLinks(edges.Keys), changed * entities.Keys;
      ghost var bound := Impact(start, links);
      ImpactIsLeast(start, links);
      assert start <= bound && Closed(bound, links);
      hide Linked, Impact, IsImpact;
      seen := changed * entities.Keys;
      var pending := Listing(seen);
      while pending != []
        invariant start <= seen <= bound && forall x :: x in pending ==> x in seen
        invariant forall l :: l in links && l.on in seen ==> l.dependent in seen || l.on in pending
        decreases bound - seen, |pending|
      {
        ghost var all := pending;
        var current := pending[|pending| - 1];
        pending := pending[..|pending| - 1];
        assert forall x :: x in all ==> x == current || x in pending;
        var dependents := IncomingServices(current);
        forall l | l in links && l.on == current ensures l.dependent in dependents {
          assert l.dependent in DependentsOn(links, {current});
        }
        seen, pending := Discover(dependents, seen, pending);
      }
      ClosedWithinImpact(seen, start, links);
    }
  }
}
