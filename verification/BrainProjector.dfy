/** Projecting one governed record into the in-memory model, fact by fact and edge by edge. */
module BrainProjector {
  import opened Wrappers
  import opened BrainTypes
  import opened CompanyBrain

  lemma CiteNone(edges: map<EdgeKey, set<EntityId>>, e: EntityId)
    ensures Cite(edges, {}, e) == edges
  {
    var none := Cite(edges, {}, e);
    assert none.Keys == edges.Keys && forall x :: x in edges ==> none[x] == edges[x];
  }

  /** Citing the same evidence on more edges adds up. */
  lemma CiteMore(edges: map<EdgeKey, set<EntityId>>, done: set<EdgeKey>, k: EdgeKey, e: EntityId)
    ensures Cite(edges, done + {k}, e) == Cite(edges, done, e)[k := {e} + Cited(Cite(edges, done, e), k)]
  {
    var before, after := Cite(edges, done, e), Cite(edges, done + {k}, e);
    var more := before[k := {e} + Cited(before, k)];
    assert after.Keys == more.Keys;
    assert forall x :: x in after ==> after[x] == more[x];
  }

  class CompanyBrainProjector {
    const brain: CompanyBrain

    constructor (brain: CompanyBrain)
      ensures this.brain == brain
    {
      this.brain := brain;
    }

    /** Relate two known entities on the record's one evidence pointer. */
    method CiteEdge(k: EdgeKey, e: EntityId, ghost before: map<EdgeKey, set<EntityId>>, ghost done: set<EdgeKey>)
      returns (raised: bool)
      requires k.source in brain.entities && k.target in brain.entities && e in brain.evidence
      requires brain.edges == Cite(before, done, e)
      modifies brain`edges
      ensures raised <==> k.source == k.target
      ensures brain.edges == if raised then old(brain.edges) else Cite(before, done + {k}, e)
    {
      CiteMore(before, done, k, e);
      hide Cite;
      raised := brain.Relate(k, {e});
    }

    method ProjectFileChange(c: FileChange)
      modifies brain
      ensures brain.State() == Absorb(old(brain.State()), FileEmission(c))
      ensures var e := EntityId(Evidence, Revision(FileSource(c.provider, c.repository, c.branch, c.path), c.commit));
              && e in brain.evidence && brain.evidence[e].revision == c.commit
              && brain.evidence[e].aclGroups == c.acl.groups && brain.evidence[e].aclUsers == c.acl.users
    {
      hide Cite, FileEdges, FileFacts, Mapped, MappedEdges;
      var repo, change, ev := RepositoryId(c.provider, c.repository), ChangeId(c), FileEvidenceId(c);
      ghost var edges := brain.edges;
      CiteNone(edges, ev);
      brain.UpsertEntity(repo, RepositoryFact(c));
      brain.UpsertEntity(change, ChangeFact(c));
      brain.RecordEvidence(ev, FilePointer(c));
      var a := CiteEdge(EdgeKey(repo, ChangedBy, change), ev, edges, {});
      ghost var done := {} + {EdgeKey(repo, ChangedBy, change)};
      a := CiteEdge(EdgeKey(repo, HasEvidence, ev), ev, edges, done);
      done := done + {EdgeKey(repo, HasEvidence, ev)};
      a := CiteEdge(EdgeKey(change, HasEvidence, ev), ev, edges, done);
      done := done + {EdgeKey(change, HasEvidence, ev)};
      done := ProjectMapping(c, edges, done);
      FileEdgesAre(c, done);
      FileFactsAre(c, old(brain.entities), brain.entities);
    }

    /** The service a file is mapped to, and its owner, when the record names them. */
    method ProjectMapping(c: FileChange, ghost edges: map<EdgeKey, set<EntityId>>, ghost before: set<EdgeKey>)
      returns (ghost done: set<EdgeKey>)
      requires RepositoryId(c.provider, c.repository) in brain.entities && ChangeId(c) in brain.entities
      requires FileEvidenceId(c) in brain.entities && FileEvidenceId(c) in brain.evidence
      requires brain.edges == Cite(edges, before, FileEvidenceId(c))
      modifies brain
      ensures brain.evidence == old(brain.evidence) && brain.edges == Cite(edges, done, FileEvidenceId(c))
      ensures done == before + MappedEdges(c) && brain.entities == Mapped(c, old(brain.entities))
    {
      hide Cite;
      done := before;
      if Given(c.service) {
        var repo, change, ev := RepositoryId(c.provider, c.repository), ChangeId(c), FileEvidenceId(c);
        var service := ServiceId(c.service.value);
        brain.UpsertEntity(service, EntityFact(c.service.value, Attributes("repository", Some(c.repository))));
        var a := CiteEdge(EdgeKey(service, BelongsTo, repo), ev, edges, done);
        done := done + {EdgeKey(service, BelongsTo, repo)};
        a := CiteEdge(EdgeKey(service, ChangedBy, change), ev, edges, done);
        done := done + {EdgeKey(service, ChangedBy, change)};
        a := CiteEdge(EdgeKey(service, HasEvidence, ev), ev, edges, done);
        done := done + {EdgeKey(service, HasEvidence, ev)};
        if Given(c.owner) {
          var owner := OwnerId(c.owner.value);
          brain.UpsertEntity(owner, EntityFact(c.owner.value, map[]));
          a := CiteEdge(EdgeKey(owner, Owns, service), ev, edges, done);
          done := done + {EdgeKey(owner, Owns, service)};
        }
      }
    }

    /** `raised` reports an edge from the record to itself, which only a self-referring incident declares; what
        came before that edge is then in the model. */
    method ProjectKnowledgeDocument(d: KnowledgeDocument) returns (raised: bool, unresolved: set<Reference>)
      modifies brain
      ensures raised <==> SelfReferring(d)
      ensures !raised ==> brain.State() == Absorb(old(brain.State()), DocumentEmission(d, old(brain.entities).Keys))
      ensures !raised ==> unresolved == Unresolved(d, old(brain.entities).Keys + DocumentFacts(d).Keys + {DocumentEvidenceId(d)})
      ensures raised ==> brain.State() == Absorb(old(brain.State()), RaisedEmission(d, old(brain.entities).Keys))
      ensures var e := EntityId(Evidence, Revision(KnowledgeSource(d.provider, d.sourceType, d.sourceId), d.revision));
              && e in brain.evidence && brain.evidence[e].revision == d.revision
              && brain.evidence[e].aclGroups == d.acl.groups && brain.evidence[e].aclUsers == d.acl.users
    {
      hide Cite, DocumentEdges, DocumentFacts, DeclaredEdges, CauseEdges, Unresolved;
      var artifact, ev := ArtifactId(d), DocumentEvidenceId(d);
      ghost var edges := brain.edges;
      CiteNone(edges, ev);
      brain.UpsertEntity(artifact, ArtifactFact(d));
      brain.RecordEvidence(ev, DocumentPointer(d));
      var a := CiteEdge(EdgeKey(artifact, HasEvidence, ev), ev, edges, {});
      ghost var done := {} + {EdgeKey(artifact, HasEvidence, ev)};
      if Given(d.service) {
        var service := ServiceId(d.service.value);
        brain.UpsertEntity(service, EntityFact(d.service.value, map[]));
        a := CiteEdge(EdgeKey(service, HasEvidence, ev), ev, edges, done);
        done := done + {EdgeKey(service, HasEvidence, ev)};
        if d.sourceType.AdrSource? {
          a := CiteEdge(EdgeKey(service, GovernedBy, artifact), ev, edges, done);
          done := done + {EdgeKey(service, GovernedBy, artifact)};
        }
      }
      if Given(d.owner) {
        var owner := OwnerId(d.owner.value);
        brain.UpsertEntity(owner, EntityFact(d.owner.value, map[]));
        a := CiteEdge(EdgeKey(owner, Owns, artifact), ev, edges, done);
        done := done + {EdgeKey(owner, Owns, artifact)};
      }
      DocumentEdgesAre(d, done);
      DocumentFactsAre(d, old(brain.entities), brain.entities);
      raised, unresolved := ProjectDeclared(d, edges, done);
    }

    /** The causal edges an incident declares; prose is never read, and an unknown record is left unresolved. */
    method ProjectDeclared(d: KnowledgeDocument, ghost edges: map<EdgeKey, set<EntityId>>, ghost done: set<EdgeKey>)
      returns (raised: bool, unresolved: set<Reference>)
      requires ArtifactId(d) in brain.entities && DocumentEvidenceId(d) in brain.evidence
      requires brain.edges == Cite(edges, done, DocumentEvidenceId(d))
      modifies brain`edges
      ensures raised <==> SelfReferring(d)
      ensures !raised ==> brain.edges == Cite(edges, done + DeclaredEdges(d, brain.entities.Keys), DocumentEvidenceId(d))
      ensures !raised ==> unresolved == Unresolved(d, brain.entities.Keys)
      ensures raised ==> brain.edges == Cite(edges, done + CauseEdges(d, brain.entities.Keys), DocumentEvidenceId(d))
    {
      hide Cite;
      var artifact, ev := ArtifactId(d), DocumentEvidenceId(d);
      ghost var all := done;
      raised, unresolved := false, {};
      if d.sourceType.IncidentSource? {
        if d.causedBy.Some? {
          if d.causedBy.value in brain.entities {
            raised := CiteEdge(EdgeKey(d.causedBy.value, Caused, artifact), ev, edges, all);
            if raised {
              assert all == done + CauseEdges(d, brain.entities.Keys);
              return;
            }
            all := all + {EdgeKey(d.causedBy.value, Caused, artifact)};
          } else {
            unresolved := unresolved + {CauseOf(d.causedBy.value)};
          }
        }
        assert all == done + CauseEdges(d, brain.entities.Keys);
        if d.resolvedBy.Some? {
          if d.resolvedBy.value in brain.entities {
            raised := CiteEdge(EdgeKey(artifact, ResolvedBy, d.resolvedBy.value), ev, edges, all);
            if raised { return; }
            all := all + {EdgeKey(artifact, ResolvedBy, d.resolvedBy.value)};
          } else {
            unresolved := unresolved + {ResolutionOf(d.resolvedBy.value)};
          }
        }
      }
      assert all == done + DeclaredEdges(d, brain.entities.Keys);
    }

    /** Remove every revision of one file: its evidence pointers, its changes and every edge naming them. */
    method RemoveFileChangeProjection(source: SourceKey) returns (removed: set<EntityId>)
      modifies brain
      ensures var pointers, changes := RevisionsOf(old(brain.evidence).Keys, Evidence, source),
                                       RevisionsOf(old(brain.entities).Keys, Change, source);
              brain.State() == WithoutAll(old(brain.State()), pointers, changes) && removed == pointers + changes
      ensures forall id :: id in removed <==>
                && id.name.Revision? && id.name.source == source
                && ((id.kind == Evidence && id in old(brain.evidence)) || (id.kind == Change && id in old(brain.entities)))
    {
      hide Linked, WithoutEntity, WithoutAll;
      var pointers, changes := RevisionsOf(brain.evidence.Keys, Evidence, source), RevisionsOf(brain.entities.Keys, Change, source);
      ghost var before := brain.State();
      WithoutNone(before);
      var todo := pointers;
      assert pointers - todo == {};
      while todo != {}
        invariant todo <= pointers && brain.State() == WithoutAll(before, pointers - todo, {})
      {
        var e :| e in todo;
        WithoutPointer(before, pointers - todo, e);
        brain.RemoveEvidence(e);
        assert pointers - (todo - {e}) == pointers - todo + {e};
        todo := todo - {e};
      }
      assert pointers - todo == pointers;
      todo := changes;
      assert changes - todo == {};
      while todo != {}
        invariant todo <= changes && brain.State() == WithoutAll(before, pointers, changes - todo)
      {
        var c :| c in todo;
        WithoutChange(before, pointers, changes - todo, c);
        brain.RemoveEntity(c);
        assert changes - (todo - {c}) == changes - todo + {c};
        todo := todo - {c};
      }
      assert changes - todo == changes;
      removed := pointers + changes;
    }
  }

  /** What a file record states: its own entities under their own ids, the pointer with the readers of the file, and
      the edges between them. */
  lemma FileEmissionSays(c: FileChange)
    ensures var em, source := FileEmission(c), FileSource(c.provider, c.repository, c.branch, c.path);
            var repo, change, ev := EntityId(Repository, Scoped(c.provider, c.repository)),
                                    EntityId(Change, Revision(source, c.commit)), EntityId(Evidence, Revision(source, c.commit));
            var mapped := c.service.Some? && c.service.value != "";
            var owned := mapped && c.owner.Some? && c.owner.value != "";
            && em.evidenceId == ev && em.pointer.sourceKind == "repository-change" && em.pointer.revision == c.commit
            && em.pointer.citation == c.provider + ":" + c.repository + "@" + c.commit + ":" + c.path
            && em.pointer.aclGroups == c.acl.groups && em.pointer.aclUsers == c.acl.users
            && (forall id :: id in em.facts <==>
                  || id == repo || id == change || (mapped && id == EntityId(Service, Plain(c.service.value)))
                  || (owned && id == EntityId(Owner, Plain(c.owner.value))))
            && em.facts[repo] == RepositoryFact(c) && em.facts[change] == ChangeFact(c)
            && (mapped ==> em.facts[EntityId(Service, Plain(c.service.value))] ==
                           EntityFact(c.service.value, Attributes("repository", Some(c.repository))))
            && (owned ==> em.facts[EntityId(Owner, Plain(c.owner.value))] == EntityFact(c.owner.value, map[]))
  {
    hide RepositoryFact, ChangeFact, Attributes, FileEdges;
  }

  /** The attributes of a file's entities: what is given of each, under its own name. */
  lemma FileAttributesSay(c: FileChange)
    ensures RepositoryFact(c).caption == c.repository
    ensures var repo := RepositoryFact(c).attributes;
            && Attribute(repo, "provider", Some(c.provider)) && Attribute(repo, "branch", Some(c.branch))
            && repo.Keys <= {"provider", "branch"}
    ensures Attribute(Attributes("repository", Some(c.repository)), "repository", Some(c.repository))
  {
  }

  lemma ChangeAttributesSay(c: FileChange)
    ensures ChangeFact(c).caption == c.repository + "@" + c.commit + ":" + c.path
    ensures var change := ChangeFact(c).attributes;
            && Attribute(change, "branch", Some(c.branch)) && Attribute(change, "commit_sha", Some(c.commit))
            && Attribute(change, "path", Some(c.path)) && Attribute(change, "change_type", Some("upsert"))
            && Attribute(change, "language", c.language)
            && change.Keys <= {"branch", "commit_sha", "path", "change_type", "language"}
  {
  }

  /** The attribute holds the text if there is one, and is left out otherwise. */
  predicate Attribute(attributes: map<string, string>, key: string, value: Option<string>) {
    if value.Some? && value.value != "" then key in attributes && attributes[key] == value.value else key !in attributes
  }

  /** What a knowledge document states, apart from the edges. */
  lemma DocumentEmissionSays(d: KnowledgeDocument, known: set<EntityId>)
    ensures var em := DocumentEmission(d, known);
            var artifact := EntityId(match d.sourceType
                                     case WorkItemSource => WorkItem
                                     case DocumentationSource => Document
                                     case AdrSource => Adr
                                     case RunbookSource => Runbook
                                     case IncidentSource => Incident
                                     case DeploymentSource => Deployment
                                     case ConversationSource => Conversation,
                                     Scoped(d.provider, d.sourceId));
            var serviced, owned := d.service.Some? && d.service.value != "", d.owner.Some? && d.owner.value != "";
            && em.evidenceId == EntityId(Evidence, Revision(KnowledgeSource(d.provider, d.sourceType, d.sourceId), d.revision))
            && em.pointer.revision == d.revision && em.pointer.aclGroups == d.acl.groups && em.pointer.aclUsers == d.acl.users
            && (d.sourceUrl.Some? && d.sourceUrl.value != "" ==> em.pointer.citation == d.sourceUrl.value)
            && (forall id :: id in em.facts <==>
                  || id == artifact || (serviced && id == EntityId(Service, Plain(d.service.value)))
                  || (owned && id == EntityId(Owner, Plain(d.owner.value))))
            && em.facts[artifact] == ArtifactFact(d)
            && em.pointer.sourceKind == (match d.sourceType
                                         case WorkItemSource => "work_item"
                                         case DocumentationSource => "documentation"
                                         case AdrSource => "adr"
                                         case RunbookSource => "runbook"
                                         case IncidentSource => "incident"
                                         case DeploymentSource => "deployment"
                                         case ConversationSource => "conversation")
  {
    hide DocumentEdges, DeclaredEdges, ArtifactFact;
  }

  lemma ArtifactAttributesSay(d: KnowledgeDocument)
    ensures ArtifactFact(d).caption == d.title
    ensures var artifact := ArtifactFact(d).attributes;
            && Attribute(artifact, "provider", Some(d.provider)) && Attribute(artifact, "revision", Some(d.revision))
            && Attribute(artifact, "source_updated_at", Some(d.updatedAt))
            && Attribute(artifact, "source_type", Some(DocumentPointer(d).sourceKind))
  {
  }

  /** A declared record that is not known. */
  datatype Reference = CauseOf(id: EntityId) | ResolutionOf(id: EntityId)

  function Unresolved(d: KnowledgeDocument, known: set<EntityId>): set<Reference> {
    if !d.sourceType.IncidentSource? then {}
    else
      (if d.causedBy.Some? && d.causedBy.value !in known then {CauseOf(d.causedBy.value)} else {})
      + (if d.resolvedBy.Some? && d.resolvedBy.value !in known then {ResolutionOf(d.resolvedBy.value)} else {})
  }

  /** The edge from a known cause other than the record itself. */
  function CauseEdges(d: KnowledgeDocument, known: set<EntityId>): set<EdgeKey> {
    if d.sourceType.IncidentSource? && d.causedBy.Some? && d.causedBy.value in known && d.causedBy.value != ArtifactId(d)
    then {EdgeKey(d.causedBy.value, Caused, ArtifactId(d))} else {}
  }

  /** What of a self-referring incident is projected before the edge that raises. */
  function RaisedEmission(d: KnowledgeDocument, known: set<EntityId>): Emission {
    Emission(DocumentFacts(d), DocumentEvidenceId(d), DocumentPointer(d),
             DocumentEdges(d) + CauseEdges(d, known + DocumentFacts(d).Keys + {DocumentEvidenceId(d)}))
  }

  /** The ids of one kind that stand for a revision of the source. */
  function RevisionsOf(ids: set<EntityId>, kind: EntityKind, source: SourceKey): set<EntityId> {
    set id | id in ids && id.kind == kind && id.name.Revision? && id.name.source == source
  }

  /** The model without some pointers, some entities and every edge naming one of either. */
  function WithoutAll(m: Model, pointers: set<EntityId>, ids: set<EntityId>): Model {
    Model(m.entities - (pointers + ids), m.evidence - pointers,
          map k | k in m.edges && k.source !in pointers + ids && k.target !in pointers + ids :: m.edges[k])
  }

  lemma WithoutNone(m: Model)
    ensures WithoutAll(m, {}, {}) == m
  {
    assert WithoutAll(m, {}, {}).edges == m.edges;
  }

  lemma WithoutPointer(m: Model, pointers: set<EntityId>, e: EntityId)
    ensures var w := WithoutAll(m, pointers, {});
            WithoutEntity(w.(evidence := w.evidence - {e}), e) == WithoutAll(m, pointers + {e}, {})
  {
    var w := WithoutAll(m, pointers, {});
    var v, all := WithoutEntity(w.(evidence := w.evidence - {e}), e), WithoutAll(m, pointers + {e}, {});
    assert v.entities == all.entities;
    assert v.evidence == all.evidence;
    assert v.edges == all.edges;
  }

  lemma WithoutChange(m: Model, pointers: set<EntityId>, ids: set<EntityId>, c: EntityId)
    ensures WithoutEntity(WithoutAll(m, pointers, ids), c) == WithoutAll(m, pointers, ids + {c})
  {
    var v, all := WithoutEntity(WithoutAll(m, pointers, ids), c), WithoutAll(m, pointers, ids + {c});
    assert v.entities == all.entities;
    assert v.edges == all.edges;
  }

  function MappedEdges(c: FileChange): set<EdgeKey> {
    if !Given(c.service) then {}
    else
      var service := ServiceId(c.service.value);
      {EdgeKey(service, BelongsTo, RepositoryId(c.provider, c.repository)), EdgeKey(service, ChangedBy, ChangeId(c)),
       EdgeKey(service, HasEvidence, FileEvidenceId(c))}
      + if Given(c.owner) then {EdgeKey(OwnerId(c.owner.value), Owns, service)} else {}
  }

  function Mapped(c: FileChange, before: map<EntityId, EntityFact>): map<EntityId, EntityFact> {
    if !Given(c.service) then before
    else
      var mapped := before[ServiceId(c.service.value) := EntityFact(c.service.value, Attributes("repository", Some(c.repository)))];
      if Given(c.owner) then mapped[OwnerId(c.owner.value) := EntityFact(c.owner.value, map[])] else mapped
  }

  lemma FileEdgesAre(c: FileChange, done: set<EdgeKey>)
    requires var repo, change, ev := RepositoryId(c.provider, c.repository), ChangeId(c), FileEvidenceId(c);
             done == {EdgeKey(repo, ChangedBy, change), EdgeKey(repo, HasEvidence, ev), EdgeKey(change, HasEvidence, ev)}
                     + MappedEdges(c)
    ensures done == FileEdges(c)
  {
  }

  lemma FileFactsAre(c: FileChange, before: map<EntityId, EntityFact>, after: map<EntityId, EntityFact>)
    requires after == Mapped(c, before[RepositoryId(c.provider, c.repository) := RepositoryFact(c)][ChangeId(c) := ChangeFact(c)]
                                      [FileEvidenceId(c) := StructuralFact(FilePointer(c))])
    ensures after == (before + FileFacts(c))[FileEvidenceId(c) := StructuralFact(FilePointer(c))]
  {
    hide RepositoryFact, ChangeFact, StructuralFact, FilePointer, Attributes;
  }

  lemma DocumentEdgesAre(d: KnowledgeDocument, done: set<EdgeKey>)
    requires var artifact, ev := ArtifactId(d), DocumentEvidenceId(d);
             done == {EdgeKey(artifact, HasEvidence, ev)}
                     + (if Given(d.service) then {EdgeKey(ServiceId(d.service.value), HasEvidence, ev)} else {})
                     + (if Given(d.service) && d.sourceType.AdrSource? then {EdgeKey(ServiceId(d.service.value), GovernedBy, artifact)} else {})
                     + (if Given(d.owner) then {EdgeKey(OwnerId(d.owner.value), Owns, artifact)} else {})
    ensures done == DocumentEdges(d)
  {
  }

  lemma DocumentFactsAre(d: KnowledgeDocument, before: map<EntityId, EntityFact>, after: map<EntityId, EntityFact>)
    requires var mid := before[ArtifactId(d) := ArtifactFact(d)][DocumentEvidenceId(d) := StructuralFact(DocumentPointer(d))];
             var mapped := if Given(d.service) then mid[ServiceId(d.service.value) := EntityFact(d.service.value, map[])] else mid;
             after == if Given(d.owner) then mapped[OwnerId(d.owner.value) := EntityFact(d.owner.value, map[])] else mapped
    ensures after == (before + DocumentFacts(d))[DocumentEvidenceId(d) := StructuralFact(DocumentPointer(d))]
    ensures after.Keys == before.Keys + DocumentFacts(d).Keys + {DocumentEvidenceId(d)}
  {
    hide ArtifactFact, StructuralFact, DocumentPointer;
  }
}
