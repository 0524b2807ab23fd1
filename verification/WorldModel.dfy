/** Qualified reads of a tenant: which relationships a principal may rely on, where facts conflict, what a change reaches. */
module WorldModel {
  import opened Wrappers
  import opened BrainTypes
  import opened Reachability

  datatype StoredEvidence = StoredEvidence(pointer: Pointer, observedAt: int)

  /** The cited evidence is listed without repetition. */
  datatype Relationship = Relationship(key: EdgeKey, evidenceIds: seq<EntityId>)

  /** What the store lists for a tenant: its active rows. */
  datatype Tenant = Tenant(
    entities: map<EntityId, EntityFact>, evidence: map<EntityId, StoredEvidence>, relationships: seq<Relationship>)

  datatype Principal = Principal(groups: set<string>, users: set<string>)

  datatype TrustRule = TrustRule(sourceKind: string, confidence: real, maxAge: int)

  datatype Policy = Policy(minimum: real, fallback: TrustRule, rules: seq<TrustRule>)

  datatype Freshness = Fresh | Stale | Unknown

  datatype EvidenceQualification = EvidenceQualification(
    id: EntityId, sourceKind: string, citation: string, revision: string, observedAt: int, age: int,
    confidence: real, freshness: Freshness)

  datatype Remark = NoAuthorizedEvidence | OnlyStaleEvidence | EvidenceWithheld | StaleExcluded | BelowThreshold

  /** A mutual dependency is named by its pair, ambiguous ownership by its service. */
  datatype ConflictId = DependencyCycle(pair: set<EntityId>) | AmbiguousOwnership(service: EntityId)

  datatype Conflict = Conflict(id: ConflictId, entities: set<EntityId>, keys: set<EdgeKey>)

  datatype Qualification = Qualification(
    relationship: Relationship, confidence: real, freshness: Freshness, evidence: seq<EvidenceQualification>,
    withheld: nat, usable: bool, remarks: seq<Remark>, conflicts: set<ConflictId>)

  datatype EntityQualification = EntityQualification(
    id: EntityId, fact: EntityFact, confidence: real, freshness: Freshness, evidence: seq<EvidenceQualification>)

  datatype Limitation =
    | UnmappedServices | StaleRelationships | WithheldEvidence | UnusableRelationships | Conflicting | NothingQualified

  datatype QualifiedContext = QualifiedContext(
    repository: EntityId, changed: set<EntityId>, blast: set<EntityId>, owners: set<EntityId>, confidence: real,
    entities: map<EntityId, EntityQualification>, relationships: seq<Qualification>,
    evidence: seq<EvidenceQualification>, conflicts: set<Conflict>, limitations: set<Limitation>)

  datatype WorldModelError = NoSuchRepository

  /** One row per key, and endpoints that differ. */
  ghost predicate Keyed(rs: seq<Relationship>) {
    && (forall i, j :: 0 <= i < j < |rs| ==> rs[i].key != rs[j].key)
    && (forall i :: 0 <= i < |rs| ==> rs[i].key.source != rs[i].key.target)
  }

  predicate VisibleTo(p: Pointer, who: Principal) {
    p.aclGroups * who.groups != {} || p.aclUsers * who.users != {}
  }

  function RuleFor(rules: seq<TrustRule>, fallback: TrustRule, sourceKind: string): TrustRule {
    if rules == [] then fallback
    else if rules[0].sourceKind == sourceKind then rules[0]
    else RuleFor(rules[1..], fallback, sourceKind)
  }

  function QualifyEvidence(policy: Policy, id: EntityId, e: StoredEvidence, now: int): EvidenceQualification {
    var age := if now < e.observedAt then 0 else now - e.observedAt;
    var rule := RuleFor(policy.rules, policy.fallback, e.pointer.sourceKind);
    EvidenceQualification(id, e.pointer.sourceKind, e.pointer.citation, e.pointer.revision, e.observedAt, age, rule.confidence,
                          if age <= rule.maxAge then Fresh else Stale)
  }

  /** The product of what each confidence leaves open. */
  function Doubt(values: seq<real>): real {
    if values == [] then 1.0 else Doubt(values[..|values| - 1]) * (1.0 - values[|values| - 1])
  }

  function Combine(values: seq<real>): real {
    1.0 - Doubt(values)
  }

  /** The evidence of a citation list the principal may see, qualified. */
  function Authorized(t: Tenant, policy: Policy, ids: seq<EntityId>, who: Principal, now: int): seq<EvidenceQualification> {
    if ids == [] then []
    else
      var id := ids[|ids| - 1];
      Authorized(t, policy, ids[..|ids| - 1], who, now)
      + if id in t.evidence && VisibleTo(t.evidence[id].pointer, who)
        then [QualifyEvidence(policy, id, t.evidence[id], now)] else []
  }

  /** How many cited pointers exist but are hidden from the principal. */
  function WithheldFrom(t: Tenant, ids: seq<EntityId>, who: Principal): nat {
    if ids == [] then 0
    else
      var id := ids[|ids| - 1];
      WithheldFrom(t, ids[..|ids| - 1], who) + if id in t.evidence && !VisibleTo(t.evidence[id].pointer, who) then 1 else 0
  }

  function FreshConfidences(es: seq<EvidenceQualification>): seq<real> {
    if es == [] then []
    else FreshConfidences(es[..|es| - 1]) + if es[|es| - 1].freshness.Fresh? then [es[|es| - 1].confidence] else []
  }

  function QualifyRelationship(t: Tenant, policy: Policy, r: Relationship, who: Principal, now: int): Qualification {
    var known := Authorized(t, policy, r.evidenceIds, who, now);
    var withheld := WithheldFrom(t, r.evidenceIds, who);
    var recent := FreshConfidences(known);
    if known == [] then Qualification(r, 0.0, Unknown, [], withheld, false, [NoAuthorizedEvidence], {})
    else if recent == [] then Qualification(r, 0.0, Stale, known, withheld, false, [OnlyStaleEvidence], {})
    else
      var confidence := Combine(recent);
      Qualification(r, confidence, Fresh, known, withheld, confidence >= policy.minimum,
                    (if withheld > 0 then [EvidenceWithheld] else [])
                    + (if exists e :: e in known && e.freshness.Stale? then [StaleExcluded] else [])
                    + (if confidence < policy.minimum then [BelowThreshold] else []), {})
  }

  function Qualifications(t: Tenant, policy: Policy, who: Principal, now: int): (q: seq<Qualification>)
    ensures |q| == |t.relationships| && forall i :: 0 <= i < |q| ==> q[i].relationship == t.relationships[i]
  {
    seq(|t.relationships|, i requires 0 <= i < |t.relationships| => QualifyRelationship(t, policy, t.relationships[i], who, now))
  }

  function Reverse(k: EdgeKey): EdgeKey {
    EdgeKey(k.target, k.kind, k.source)
  }

  predicate UsableKey(qs: seq<Qualification>, k: EdgeKey) {
    exists i :: 0 <= i < |qs| && qs[i].relationship.key == k && qs[i].usable
  }

  predicate Mutual(qs: seq<Qualification>, k: EdgeKey) {
    k.kind == DependsOn && UsableKey(qs, k) && UsableKey(qs, Reverse(k))
  }

  /** The edge asserts who owns its target. */
  predicate AssertsOwner(q: Qualification, entities: map<EntityId, EntityFact>) {
    var k := q.relationship.key;
    q.usable && k.kind == Owns && k.source in entities && k.source.kind in {Owner, Team}
  }

  function OwnerKeys(qs: seq<Qualification>, entities: map<EntityId, EntityFact>, service: EntityId): set<EdgeKey> {
    set i | 0 <= i < |qs| && AssertsOwner(qs[i], entities) && qs[i].relationship.key.target == service :: qs[i].relationship.key
  }

  function Sources(keys: set<EdgeKey>): set<EntityId> {
    set k | k in keys :: k.source
  }

  function CycleAt(k: EdgeKey): Conflict {
    Conflict(DependencyCycle({k.source, k.target}), {k.source, k.target}, {k, Reverse(k)})
  }

  function OwnershipAt(keys: set<EdgeKey>, service: EntityId): Conflict {
    Conflict(AmbiguousOwnership(service), Sources(keys) + {service}, keys)
  }

  function Cycles(qs: seq<Qualification>): set<Conflict> {
    set i | 0 <= i < |qs| && Mutual(qs, qs[i].relationship.key) :: CycleAt(qs[i].relationship.key)
  }

  function Ambiguities(qs: seq<Qualification>, entities: map<EntityId, EntityFact>): set<Conflict> {
    set i | 0 <= i < |qs| && |Sources(OwnerKeys(qs, entities, qs[i].relationship.key.target))| > 1
      :: OwnershipAt(OwnerKeys(qs, entities, qs[i].relationship.key.target), qs[i].relationship.key.target)
  }

  function Conflicts(qs: seq<Qualification>, entities: map<EntityId, EntityFact>): set<Conflict> {
    Cycles(qs) + Ambiguities(qs, entities)
  }

  function ConflictsAt(cs: set<Conflict>, k: EdgeKey): set<ConflictId> {
    set c | c in cs && k in c.keys :: c.id
  }

  /** The qualifications with conflicting dependencies excluded and every conflict noted where it applies. */
  function Detected(qs: seq<Qualification>, entities: map<EntityId, EntityFact>): (d: seq<Qualification>)
    ensures |d| == |qs|
  {
    seq(|qs|, i requires 0 <= i < |qs| =>
      var k := qs[i].relationship.key;
      qs[i].(usable := qs[i].usable && !Mutual(qs, k), conflicts := ConflictsAt(Conflicts(qs, entities), k)))
  }

  /** The usable dependencies between known services. */
  function UsableLinks(qs: seq<Qualification>, entities: map<EntityId, EntityFact>): set<Link<EntityId>> {
    set i | 0 <= i < |qs| && JoinsServices(qs[i], entities) :: Link(qs[i].relationship.key.source, qs[i].relationship.key.target)
  }

  predicate JoinsServices(q: Qualification, entities: map<EntityId, EntityFact>) {
    var k := q.relationship.key;
    && q.usable && k.kind == DependsOn && k.source in entities && k.target in entities
    && k.source.kind == Service && k.target.kind == Service
  }

  function ServicesOf(qs: seq<Qualification>, entities: map<EntityId, EntityFact>, repository: EntityId): set<EntityId> {
    set i | 0 <= i < |qs| && qs[i].usable && qs[i].relationship.key.kind == BelongsTo
            && qs[i].relationship.key.target == repository && qs[i].relationship.key.source in entities
            && qs[i].relationship.key.source.kind == Service :: qs[i].relationship.key.source
  }

  function OwnersOf(qs: seq<Qualification>, entities: map<EntityId, EntityFact>, blast: set<EntityId>): set<EntityId> {
    set i | 0 <= i < |qs| && AssertsOwner(qs[i], entities) && qs[i].relationship.key.target in blast
      :: qs[i].relationship.key.source
  }

  function Relevant(qs: seq<Qualification>, ids: set<EntityId>): seq<Qualification> {
    if qs == [] then []
    else
      var q := qs[|qs| - 1];
      Relevant(qs[..|qs| - 1], ids)
      + if q.relationship.key.source in ids || q.relationship.key.target in ids then [q] else []
  }

  /** Evidence once per id, in order of first mention. */
  function Deduplicated(es: seq<EvidenceQualification>): seq<EvidenceQualification> {
    if es == [] then []
    else
      var before, e := Deduplicated(es[..|es| - 1]), es[|es| - 1];
      if exists d :: d in before && d.id == e.id then before else before + [e]
  }

  function EvidenceOf(qs: seq<Qualification>): seq<EvidenceQualification> {
    if qs == [] then [] else EvidenceOf(qs[..|qs| - 1]) + qs[|qs| - 1].evidence
  }

  function Supports(qs: seq<Qualification>, id: EntityId): seq<Qualification> {
    if qs == [] then []
    else
      var q := qs[|qs| - 1];
      Supports(qs[..|qs| - 1], id)
      + if q.relationship.key.kind == HasEvidence && q.relationship.key.source == id then [q] else []
  }

  function QualifyEntity(id: EntityId, fact: EntityFact, qs: seq<Qualification>): EntityQualification {
    var es := Deduplicated(EvidenceOf(Supports(qs, id)));
    var recent := FreshConfidences(es);
    if recent != [] then EntityQualification(id, fact, Combine(recent), Fresh, es)
    else EntityQualification(id, fact, 0.0, if es == [] then Unknown else Stale, es)
  }

  predicate DecisionUsable(q: Qualification) {
    q.usable && q.relationship.key.kind != HasEvidence
  }

  /** The least confidence of what a decision could use, zero when there is nothing. */
  function Weakest(qs: seq<Qualification>): Option<real> {
    if qs == [] then None
    else
      var before, q := Weakest(qs[..|qs| - 1]), qs[|qs| - 1];
      if !DecisionUsable(q) then before
      else if before.None? || q.confidence < before.value then Some(q.confidence)
      else before
  }

  function Limitations(requested: set<EntityId>, changed: set<EntityId>, qs: seq<Qualification>, cs: set<Conflict>): set<Limitation> {
    (if requested - changed != {} then {UnmappedServices} else {})
    + (if exists q :: q in qs && q.freshness.Stale? then {StaleRelationships} else {})
    + (if exists q :: q in qs && q.withheld > 0 then {WithheldEvidence} else {})
    + (if exists q :: q in qs && !q.usable then {UnusableRelationships} else {})
    + (if cs != {} then {Conflicting} else {})
    + (if forall q :: q in qs ==> !q.usable then {NothingQualified} else {})
  }

  /** The entities a context speaks about. */
  function Concerned(repository: EntityId, blast: set<EntityId>, owners: set<EntityId>): set<EntityId> {
    {repository} + blast + owners
  }

  function QualifiedEntities(ids: set<EntityId>, entities: map<EntityId, EntityFact>, qs: seq<Qualification>)
    : map<EntityId, EntityQualification>
  {
    map id | id in ids && id in entities :: QualifyEntity(id, entities[id], qs)
  }

  /** What there is to say once the scope of a change is known. */
  function Explained(qs: seq<Qualification>, all: set<Conflict>, entities: map<EntityId, EntityFact>, repository: EntityId,
                     requested: set<EntityId>, changed: set<EntityId>, blast: set<EntityId>, owners: set<EntityId>): QualifiedContext
  {
    var ids := Concerned(repository, blast, owners);
    var relevant := Relevant(qs, ids);
    var conflicts := set c | c in all && c.entities * ids != {};
    var weakest := Weakest(relevant);
    QualifiedContext(
      repository, changed, blast, owners, if weakest.Some? then weakest.value else 0.0, QualifiedEntities(ids, entities, qs),
      relevant, Deduplicated(EvidenceOf(relevant)), conflicts, Limitations(requested, changed, relevant, conflicts))
  }

  /** Scope the change to the repository, follow its impact and name the owners. */
  function ScopedContext(raw: seq<Qualification>, entities: map<EntityId, EntityFact>, repository: EntityId, requested: set<EntityId>)
    : QualifiedContext
  {
    var qs := Detected(raw, entities);
    var changed := requested * ServicesOf(qs, entities, repository);
    var blast := Impact(changed, UsableLinks(qs, entities));
    Explained(qs, Conflicts(raw, entities), entities, repository, requested, changed, blast, OwnersOf(qs, entities, blast))
  }

  function ContextForChange(t: Tenant, policy: Policy, repository: EntityId, requested: set<EntityId>, who: Principal, now: int)
    : Result<QualifiedContext, WorldModelError>
  {
    if repository !in t.entities || repository.kind != Repository then Err(NoSuchRepository)
    else Ok(ScopedContext(Qualifications(t, policy, who, now), t.entities, repository, requested))
  }
}
