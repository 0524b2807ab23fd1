/** What a qualified read guarantees: non-interference, fail-closed use, corroboration, and the two impact forms. */
module WorldModelLaws {
  import opened Wrappers
  import opened BrainTypes
  import opened Reachability
  import opened WorldModel
  import Brain = CompanyBrain

  /** The tenants differ at most in evidence hidden from the principal and in the entities that stand for evidence. */
  ghost predicate Alike(a: Tenant, b: Tenant, who: Principal) {
    && a.relationships == b.relationships
    && SameFacts(a.entities, b.entities)
    && a.evidence.Keys == b.evidence.Keys
    && forall id :: id in a.evidence ==>
         var p, q := a.evidence[id].pointer, b.evidence[id].pointer;
         && (p.aclGroups !! who.groups && p.aclUsers !! who.users <==> q.aclGroups !! who.groups && q.aclUsers !! who.users)
         && (!(p.aclGroups !! who.groups && p.aclUsers !! who.users) ==> a.evidence[id] == b.evidence[id])
  }

  lemma VisibleMeansShared(p: Pointer, who: Principal)
    ensures VisibleTo(p, who) <==> !(p.aclGroups !! who.groups && p.aclUsers !! who.users)
  {
    if g :| g in p.aclGroups && g in who.groups { assert g in p.aclGroups * who.groups; }
    if u :| u in p.aclUsers && u in who.users { assert u in p.aclUsers * who.users; }
  }

  ghost predicate SameFacts(a: map<EntityId, EntityFact>, b: map<EntityId, EntityFact>) {
    forall id: EntityId :: id.kind != Evidence ==> (id in a <==> id in b) && (id in a ==> a[id] == b[id])
  }

  lemma {:induction false} AuthorizedAlike(a: Tenant, b: Tenant, policy: Policy, ids: seq<EntityId>, who: Principal, now: int)
    requires Alike(a, b, who)
    ensures Authorized(a, policy, ids, who, now) == Authorized(b, policy, ids, who, now)
    ensures WithheldFrom(a, ids, who) == WithheldFrom(b, ids, who)
  {
    if ids != [] {
      var id := ids[|ids| - 1];
      if id in a.evidence {
        VisibleMeansShared(a.evidence[id].pointer, who);
        VisibleMeansShared(b.evidence[id].pointer, who);
      }
      AuthorizedAlike(a, b, policy, ids[..|ids| - 1], who, now);
    }
  }

  lemma QualificationsAlike(a: Tenant, b: Tenant, policy: Policy, who: Principal, now: int)
    requires Alike(a, b, who)
    ensures Qualifications(a, policy, who, now) == Qualifications(b, policy, who, now)
  {
    forall i | 0 <= i < |a.relationships|
      ensures Qualifications(a, policy, who, now)[i] == Qualifications(b, policy, who, now)[i]
    {
      AuthorizedAlike(a, b, policy, a.relationships[i].evidenceIds, who, now);
    }
  }

  lemma OwnersAlike(qs: seq<Qualification>, a: map<EntityId, EntityFact>, b: map<EntityId, EntityFact>)
    requires SameFacts(a, b)
    ensures forall service :: OwnerKeys(qs, a, service) == OwnerKeys(qs, b, service)
  {
    assert forall q :: AssertsOwner(q, a) <==> AssertsOwner(q, b);
  }

  lemma OwnersOfAlike(qs: seq<Qualification>, a: map<EntityId, EntityFact>, b: map<EntityId, EntityFact>, blast: set<EntityId>)
    requires SameFacts(a, b)
    ensures OwnersOf(qs, a, blast) == OwnersOf(qs, b, blast)
    ensures forall id :: id in OwnersOf(qs, a, blast) ==> id.kind in {Owner, Team}
  {
    assert forall q :: AssertsOwner(q, a) <==> AssertsOwner(q, b);
  }

  lemma ReadingsAlike(qs: seq<Qualification>, a: map<EntityId, EntityFact>, b: map<EntityId, EntityFact>)
    requires SameFacts(a, b)
    ensures Conflicts(qs, a) == Conflicts(qs, b) && Detected(qs, a) == Detected(qs, b)
  {
    OwnersAlike(qs, a, b);
    assert Ambiguities(qs, a) == Ambiguities(qs, b);
    assert forall i :: 0 <= i < |qs| ==> Detected(qs, a)[i] == Detected(qs, b)[i];
  }

  lemma PathsAlike(qs: seq<Qualification>, a: map<EntityId, EntityFact>, b: map<EntityId, EntityFact>, repository: EntityId)
    requires SameFacts(a, b)
    ensures UsableLinks(qs, a) == UsableLinks(qs, b)
    ensures ServicesOf(qs, a, repository) == ServicesOf(qs, b, repository)
    ensures forall id :: id in ServicesOf(qs, a, repository) ==> id.kind == Service && id in a
  {
    assert forall q :: JoinsServices(q, a) <==> JoinsServices(q, b);
  }

  /** Everything within reach of services is a service. */
  lemma BlastIsServices(changed: set<EntityId>, qs: seq<Qualification>, entities: map<EntityId, EntityFact>)
    requires forall id :: id in changed ==> id.kind == Service && id in entities
    ensures forall id :: id in Impact(changed, UsableLinks(qs, entities)) ==> id.kind == Service && id in entities
  {
    var links := UsableLinks(qs, entities);
    ImpactIsLeast(changed, links);
    var services := changed + Dependents(links);
    assert Closed(services, links);
    assert Impact(changed, links) <= services;
  }

  lemma ScopedContextAlike(raw: seq<Qualification>, a: map<EntityId, EntityFact>, b: map<EntityId, EntityFact>,
                    repository: EntityId, requested: set<EntityId>)
    requires SameFacts(a, b) && repository.kind == Repository
    ensures ScopedContext(raw, a, repository, requested) == ScopedContext(raw, b, repository, requested)
  {
    var qs := Detected(raw, a);
    ReadingsAlike(raw, a, b);
    PathsAlike(qs, a, b, repository);
    var changed := requested * ServicesOf(qs, a, repository);
    var blast := Impact(changed, UsableLinks(qs, a));
    BlastIsServices(changed, qs, a);
    OwnersOfAlike(qs, a, b, blast);
    ExplainedAlike(qs, Conflicts(raw, a), a, b, repository, requested, changed, blast, OwnersOf(qs, a, blast));
  }

  /** Two tenants that differ only in what is hidden from the principal give that principal the same context. */
  lemma HiddenEvidenceDoesNotInterfere(a: Tenant, b: Tenant, policy: Policy, repository: EntityId, requested: set<EntityId>,
                                       who: Principal, now: int)
    requires Alike(a, b, who)
    ensures ContextForChange(a, policy, repository, requested, who, now) == ContextForChange(b, policy, repository, requested, who, now)
  {
    if repository in a.entities && repository.kind == Repository {
      QualificationsAlike(a, b, policy, who, now);
      ScopedContextAlike(Qualifications(a, policy, who, now), a.entities, b.entities, repository, requested);
    }
  }

  lemma ExplainedAlike(qs: seq<Qualification>, all: set<Conflict>, a: map<EntityId, EntityFact>, b: map<EntityId, EntityFact>,
                       repository: EntityId, requested: set<EntityId>, changed: set<EntityId>, blast: set<EntityId>, owners: set<EntityId>)
    requires SameFacts(a, b) && forall id :: id in Concerned(repository, blast, owners) ==> id.kind != Evidence
    ensures Explained(qs, all, a, repository, requested, changed, blast, owners)
         == Explained(qs, all, b, repository, requested, changed, blast, owners)
  {
    var ids := Concerned(repository, blast, owners);
    assert QualifiedEntities(ids, a, qs) == QualifiedEntities(ids, b, qs);
  }

  /** Usable support is authorized, fresh and enough; what conflicts is never used. */
  lemma UsableIsSupported(t: Tenant, policy: Policy, who: Principal, now: int, i: nat)
    requires i < |t.relationships|
    ensures var qs := Detected(Qualifications(t, policy, who, now), t.entities);
            qs[i].usable ==>
              && qs[i].confidence >= policy.minimum && !Mutual(Qualifications(t, policy, who, now), t.relationships[i].key)
              && exists id :: id in t.relationships[i].evidenceIds && id in t.evidence
                              && !(t.evidence[id].pointer.aclGroups !! who.groups && t.evidence[id].pointer.aclUsers !! who.users)
                              && QualifyEvidence(policy, id, t.evidence[id], now).freshness.Fresh?
  {
    var q := QualifyRelationship(t, policy, t.relationships[i], who, now);
    if q.usable {
      var e := FreshExists(q.evidence);
      AuthorizedAre(t, policy, t.relationships[i].evidenceIds, who, now, e);
      VisibleMeansShared(t.evidence[e.id].pointer, who);
    }
  }

  lemma {:induction false} FreshExists(es: seq<EvidenceQualification>) returns (e: EvidenceQualification)
    requires FreshConfidences(es) != []
    ensures e in es && e.freshness.Fresh?
  {
    e := es[|es| - 1];
    if !e.freshness.Fresh? { e := FreshExists(es[..|es| - 1]); }
  }

  lemma {:induction false} AuthorizedAre(t: Tenant, policy: Policy, ids: seq<EntityId>, who: Principal, now: int, e: EvidenceQualification)
    requires e in Authorized(t, policy, ids, who, now)
    ensures e.id in ids && e.id in t.evidence && VisibleTo(t.evidence[e.id].pointer, who)
    ensures e == QualifyEvidence(policy, e.id, t.evidence[e.id], now)
  {
    if ids != [] && e in Authorized(t, policy, ids[..|ids| - 1], who, now) {
      AuthorizedAre(t, policy, ids[..|ids| - 1], who, now, e);
    }
  }

  /** A principal that may see no evidence gets no path, no owner and no confidence. */
  lemma ReadsFailClosed(t: Tenant, policy: Policy, repository: EntityId, requested: set<EntityId>, who: Principal, now: int)
    requires repository in t.entities && repository.kind == Repository
    requires forall id :: id in t.evidence ==> t.evidence[id].pointer.aclGroups !! who.groups && t.evidence[id].pointer.aclUsers !! who.users
    ensures var c := ContextForChange(t, policy, repository, requested, who, now).value;
            c.changed == {} && c.blast == {} && c.owners == {} && c.confidence == 0.0 && NothingQualified in c.limitations
  {
    var raw := Qualifications(t, policy, who, now);
    var qs := Detected(raw, t.entities);
    forall i | 0 <= i < |qs| ensures !qs[i].usable { UsableIsSupported(t, policy, who, now, i); }
    ImpactIsLeast({}, UsableLinks(qs, t.entities));
    assert Closed<EntityId>({}, UsableLinks(qs, t.entities));
    var ids := Concerned(repository, {}, {});
    RelevantAre(qs, ids);
    NothingIsWeakest(Relevant(qs, ids));
  }

  lemma {:induction false} RelevantAre(qs: seq<Qualification>, ids: set<EntityId>)
    ensures forall q :: q in Relevant(qs, ids) ==> q in qs
  {
    if qs != [] { RelevantAre(qs[..|qs| - 1], ids); }
  }

  lemma {:induction false} NothingIsWeakest(qs: seq<Qualification>)
    requires forall q :: q in qs ==> !q.usable
    ensures Weakest(qs).None?
  {
    if qs != [] { NothingIsWeakest(qs[..|qs| - 1]); }
  }

  ghost predicate Confidences(values: seq<real>) {
    forall v :: v in values ==> 0.0 < v <= 1.0
  }

  lemma {:induction false} DoubtIsBounded(values: seq<real>)
    requires Confidences(values)
    ensures 0.0 <= Doubt(values) <= 1.0
    ensures forall v :: v in values ==> Doubt(values) <= 1.0 - v
  {
    if values != [] {
      var before, last := values[..|values| - 1], values[|values| - 1];
      assert values == before + [last] && last in values;
      assert forall v :: v in before ==> v in values;
      DoubtIsBounded(before);
      var left := Doubt(values);
      Scaled(Doubt(before), last, left);
      forall v | v in values ensures left <= 1.0 - v {
        assert v in before || v == last;
      }
    }
  }

  lemma Scaled(d: real, v: real, left: real)
    requires 0.0 <= d <= 1.0 && 0.0 < v <= 1.0 && left == d * (1.0 - v)
    ensures 0.0 <= left <= d && left <= 1.0 - v
  {
    NotNegative(d, v);
    NotNegative(d, 1.0 - v);
    NotNegative(1.0 - d, 1.0 - v);
    Distributes(d, v);
    Distributes(1.0 - v, d);
  }

  lemma Distributes(a: real, b: real)
    ensures a - a * (1.0 - b) == a * b
    ensures a - b * a == (1.0 - b) * a
  {
  }

  lemma NotNegative(a: real, b: real)
    requires 0.0 <= a && 0.0 <= b
    ensures 0.0 <= a * b
  {
  }

  /** Corroboration never lowers a confidence, and none exceeds certainty or falls below its best piece of evidence. */
  lemma CorroborationNeverLowers(values: seq<real>, more: real)
    requires Confidences(values) && 0.0 < more <= 1.0
    ensures 0.0 <= Combine(values) <= Combine(values + [more]) <= 1.0
    ensures forall v :: v in values + [more] ==> v <= Combine(values + [more])
  {
    assert (values + [more])[..|values|] == values && (values + [more])[|values|] == more;
    assert Doubt(values + [more]) == Doubt(values) * (1.0 - more);
    DoubtIsBounded(values);
    DoubtIsBounded(values + [more]);
    Scaled(Doubt(values), more, Doubt(values + [more]));
  }

  /** After detection a dependency is unusable exactly when it was, or when it is half of a usable mutual pair. */
  lemma DetectionExcludesExactlyMutualPairs(qs: seq<Qualification>, entities: map<EntityId, EntityFact>, i: nat)
    requires i < |qs|
    ensures var k, d := qs[i].relationship.key, Detected(qs, entities)[i];
            && (d.usable <==> qs[i].usable && !(k.kind == DependsOn && UsableKey(qs, Reverse(k))))
            && d == qs[i].(usable := d.usable, conflicts := d.conflicts)
            && (qs[i].usable && !d.usable ==> CycleAt(k) in Conflicts(qs, entities) && DependencyCycle({k.source, k.target}) in d.conflicts)
  {
    var k := qs[i].relationship.key;
    if qs[i].usable {
      assert UsableKey(qs, k);
      if Mutual(qs, k) { assert CycleAt(k) in Cycles(qs); }
    }
  }

  /** Both edges of a mutual pair are excluded, under one and the same conflict. */
  lemma MutualPairsShareOneConflict(qs: seq<Qualification>, entities: map<EntityId, EntityFact>, i: nat, j: nat)
    requires i < |qs| && j < |qs| && qs[j].relationship.key == Reverse(qs[i].relationship.key)
    requires qs[i].usable && qs[j].usable && qs[i].relationship.key.kind == DependsOn
    ensures !Detected(qs, entities)[i].usable && !Detected(qs, entities)[j].usable
    ensures CycleAt(qs[i].relationship.key) == CycleAt(qs[j].relationship.key)
    ensures forall c :: c in Conflicts(qs, entities) && c.id == DependencyCycle({qs[i].relationship.key.source, qs[i].relationship.key.target})
              ==> c == CycleAt(qs[i].relationship.key)
  {
    var k, r := qs[i].relationship.key, qs[j].relationship.key;
    assert Reverse(r) == k;
    assert UsableKey(qs, k) && UsableKey(qs, r);
    forall c | c in Cycles(qs) && c.id == DependencyCycle({k.source, k.target}) ensures c == CycleAt(k) {
      var m :| 0 <= m < |qs| && Mutual(qs, qs[m].relationship.key) && c == CycleAt(qs[m].relationship.key);
      SamePairSameCycle(qs[m].relationship.key, k);
    }
  }

  lemma SamePairSameCycle(l: EdgeKey, k: EdgeKey)
    requires l.kind == k.kind && {l.source, l.target} == {k.source, k.target}
    ensures CycleAt(l) == CycleAt(k)
  {
    assert l.source in {k.source, k.target} && l.target in {k.source, k.target};
    assert k.source in {l.source, l.target} && k.target in {l.source, l.target};
    assert l == k || l == Reverse(k);
  }

  function Keys(rs: seq<Relationship>): set<EdgeKey> {
    set r | r in rs :: r.key
  }

  /** The indexed impact of the world model stays within the one the in-memory model scans for. */
  lemma IndexedWithinScanned(qs: seq<Qualification>, entities: map<EntityId, EntityFact>, keys: set<EdgeKey>, changed: set<EntityId>)
    requires changed <= entities.Keys && forall i :: 0 <= i < |qs| ==> qs[i].relationship.key in keys
    ensures Impact(changed, UsableLinks(qs, entities)) <= Impact(changed * entities.Keys, Brain.ServiceLinks(keys))
  {
    assert changed * entities.Keys == changed;
    ImpactGrows(changed, UsableLinks(qs, entities), changed, Brain.ServiceLinks(keys));
  }

  /** The two agree when every dependency is usable and joins known services. */
  lemma IndexedEqualsScanned(qs: seq<Qualification>, entities: map<EntityId, EntityFact>, keys: set<EdgeKey>, changed: set<EntityId>)
    requires changed <= entities.Keys && (forall k :: k in keys <==> exists i :: 0 <= i < |qs| && qs[i].relationship.key == k)
    requires forall i :: 0 <= i < |qs| && qs[i].relationship.key.kind == DependsOn ==> JoinsServices(qs[i], entities)
    ensures Impact(changed, UsableLinks(qs, entities)) == Impact(changed * entities.Keys, Brain.ServiceLinks(keys))
  {
    assert changed * entities.Keys == changed;
    var a, b := UsableLinks(qs, entities), Brain.ServiceLinks(keys);
    forall l | l in b ensures l in a {
      var k :| k in keys && k.kind == DependsOn && k.source.kind == Service && l == Link(k.source, k.target);
      var i :| 0 <= i < |qs| && qs[i].relationship.key == k;
      assert JoinsServices(qs[i], entities);
    }
    assert a == b;
  }
}
