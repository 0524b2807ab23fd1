/** Records of the Company Brain: identifiers, facts, evidence pointers and edges. */
module BrainTypes {
  import opened Wrappers

  datatype EntityKind =
    | Repository | Service | Team | Owner | Adr | Change | Deployment | Incident
    | Runbook | WorkItem | Document | Conversation | Finding | Outcome | Evidence

  datatype RelationshipKind =
    | Owns | DependsOn | ChangedBy | Caused | ResolvedBy
    | GovernedBy | BelongsTo | HasEvidence | AssessedBy | HasOutcome

  datatype SourceType =
    | WorkItemSource | DocumentationSource | AdrSource | RunbookSource
    | IncidentSource | DeploymentSource | ConversationSource

  /** The stable identity of a source; a revision of it adds a commit or a document revision. */
  datatype SourceKey =
    | FileSource(provider: string, repository: string, branch: string, path: string)
    | KnowledgeSource(provider: string, sourceType: SourceType, sourceId: string)

  datatype Name =
    | Plain(text: string)
    | Scoped(provider: string, text: string)
    | Revision(source: SourceKey, revision: string)

  /** Every id builder prefixes the id with the entity's kind, so the kind is part of the id. */
  datatype EntityId = EntityId(kind: EntityKind, name: Name)

  datatype EntityFact = EntityFact(caption: string, attributes: map<string, string>)

  /** An evidence pointer with the access lists needed for a fail-closed read. */
  datatype Pointer = Pointer(
    sourceKind: string, citation: string, revision: string,
    aclGroups: set<string>, aclUsers: set<string>)

  datatype EdgeKey = EdgeKey(source: EntityId, kind: RelationshipKind, target: EntityId)

  datatype Provenance = Provenance(
    sourceSystem: string, source: SourceKey, revision: string, policy: string, eventId: Option<string>)

  /** The structural entity that stands for an evidence pointer. */
  function StructuralFact(p: Pointer): EntityFact {
    EntityFact(p.citation, map["revision" := p.revision, "source_kind" := p.sourceKind])
  }

  /** Entities a single source owns, as opposed to the ones many sources share. */
  predicate SourceOwned(kind: EntityKind) {
    kind !in {Repository, Service, Team, Owner}
  }

  /** A duplicate-free listing of a set. */
  ghost predicate Lists<T(!new)>(q: seq<T>, s: set<T>) {
    && (forall x :: x in q <==> x in s)
    && (forall i, j :: 0 <= i < j < |q| ==> q[i] != q[j])
  }
}
