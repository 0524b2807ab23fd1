/** What a qualified read says, stated on the rows of the tenant and the access lists of their evidence. */
module QualifiedReads {
  import opened Wrappers
  import opened BrainTypes
  import opened Reachability
  import opened WorldModel
  import Laws = WorldModelLaws

  /** The rule for a source kind: the first that names it, or the fallback when none does. */
  ghost predicate Applies(policy: Policy, sourceKind: string, rule: TrustRule) {
    || (exists i :: 0 <= i < |policy.rules| && policy.rules[i] == rule && rule.sourceKind == sourceKind
                    && forall j :: 0 <= j < i ==> policy.rules[j].sourceKind != sourceKind)
    || (rule == policy.fallback && forall j :: 0 <= j < |policy.rules| ==> policy.rules[j].sourceKind != sourceKind)
  }

  /** The qualification repeats the stored pointer and judges its age by the rule of its source kind. */
  ghost predicate Describes(e: EvidenceQualification, s: StoredEvidence, policy: Policy, now: int) {
    && e.sourceKind == s.pointer.sourceKind && e.citation == s.pointer.citation && e.revision == s.pointer.revision
    && e.observedAt == s.observedAt && e.age == (if s.observedAt <= now then now - s.observedAt else 0)
    && exists rule :: Applies(policy, s.pointer.sourceKind, rule) && e.confidence == rule.confidence
                      && e.freshness == if e.age <= rule.maxAge then Fresh else Stale
  }

  lemma {:induction false} RuleIsTheFirst(rules: seq<TrustRule>, fallback: TrustRule, sourceKind: string) returns (n: nat)
    ensures n <= |rules| && forall j :: 0 <= j < n ==> rules[j].sourceKind != sourceKind
    ensures if n == |rules| then RuleFor(rules, fallback, sourceKind) == fallback
            else rules[n].sourceKind == sourceKind && RuleFor(rules, fallback, sourceKind) == rules[n]
  {
    if rules == [] || rules[0].sourceKind == sourceKind {
      n := 0;
    } else {
      n := RuleIsTheFirst(rules[1..], fallback, sourceKind);
      n := n + 1;
    }
  }

  lemma QualifiedDescribes(policy: Policy, id: EntityId, s: StoredEvidence, now: int)
    ensures Describes(QualifyEvidence(policy, id, s, now), s, policy, now) && QualifyEvidence(policy, id, s, now).id == id
  {
    var kind := s.pointer.sourceKind;
    var n := RuleIsTheFirst(policy.rules, policy.fallback, kind);
    assert Applies(policy, kind, RuleFor(policy.rules, policy.fallback, kind));
  }

  /** The cited pointers the principal shares no group and no user with. */
  function Hidden(t: Tenant, ids: seq<EntityId>, who: Principal): set<EntityId> {
    set id | id in ids && id in t.evidence
             && t.evidence[id].pointer.aclGroups !! who.groups && t.evidence[id].pointer.aclUsers !! who.users
  }

  ghost predicate Distinct(ids: seq<EntityId>) {
    forall i, j :: 0 <= i < j < |ids| ==> ids[i] != ids[j]
  }

  lemma HiddenLast(t: Tenant, ids: seq<EntityId>, last: EntityId, who: Principal)
    requires last !in ids
    ensures var hides := last in t.evidence && t.evidence[last].pointer.aclGroups !! who.groups
                         && t.evidence[last].pointer.aclUsers !! who.users;
            |Hidden(t, ids + [last], who)| == |Hidden(t, ids, who)| + if hides then 1 else 0
  {
    var hides := last in Hidden(t, ids + [last], who);
    assert Hidden(t, ids + [last], who) == Hidden(t, ids, who) + if hides then {last} else {};
  }

  lemma {:induction false} WithheldAreCounted(t: Tenant, ids: seq<EntityId>, who: Principal)
    requires Distinct(ids)
    ensures WithheldFrom(t, ids, who) == |Hidden(t, ids, who)|
  {
    if ids != [] {
      var before, last := ids[..|ids| - 1], ids[|ids| - 1];
      assert ids == before + [last] && last !in before;
      WithheldAreCounted(t, before, who);
      HiddenLast(t, before, last, who);
      hide Hidden;
      if last in t.evidence { Laws.VisibleMeansShared(t.evidence[last].pointer, who); }
    }
  }

  lemma {:induction false} SharedAreShown(t: Tenant, policy: Policy, ids: seq<EntityId>, who: Principal, now: int, id: EntityId)
    requires id in ids && id in t.evidence
    requires !(t.evidence[id].pointer.aclGroups !! who.groups && t.evidence[id].pointer.aclUsers !! who.users)
    ensures QualifyEvidence(policy, id, t.evidence[id], now) in Authorized(t, policy, ids, who, now)
  {
    var last := ids[|ids| - 1];
    Laws.VisibleMeansShared(t.evidence[id].pointer, who);
    if id != last { SharedAreShown(t, policy, ids[..|ids| - 1], who, now, id); }
  }

  ghost predicate Names(es: seq<EvidenceQualification>, id: EntityId) {
    exists e :: e in es && e.id == id
  }

  /** A cited pointer that shares a group or a user with the principal is shown as it is stored; any other is
      withheld and counted. */
  lemma ShownExactlyWhenShared(t: Tenant, policy: Policy, r: Relationship, who: Principal, now: int)
    requires Distinct(r.evidenceIds)
    ensures var q := QualifyRelationship(t, policy, r, who, now);
            && q.relationship == r && q.withheld == |Hidden(t, r.evidenceIds, who)|
            && (forall id :: id in r.evidenceIds && id in t.evidence && id !in Hidden(t, r.evidenceIds, who) ==>
                  Names(q.evidence, id))
            && (forall e :: e in q.evidence ==>
                  && e.id in r.evidenceIds && e.id in t.evidence && e.id !in Hidden(t, r.evidenceIds, who)
                  && Describes(e, t.evidence[e.id], policy, now))
  {
    var q := QualifyRelationship(t, policy, r, who, now);
    WithheldAreCounted(t, r.evidenceIds, who);
    forall id | id in r.evidenceIds && id in t.evidence && id !in Hidden(t, r.evidenceIds, who)
      ensures Names(q.evidence, id)
    {
      SharedAreShown(t, policy, r.evidenceIds, who, now, id);
      QualifiedDescribes(policy, id, t.evidence[id], now);
    }
    forall e | e in q.evidence
      ensures e.id in r.evidenceIds && e.id in t.evidence && e.id !in Hidden(t, r.evidenceIds, who)
      ensures Describes(e, t.evidence[e.id], policy, now)
    {
      Laws.AuthorizedAre(t, policy, r.evidenceIds, who, now, e);
      Laws.VisibleMeansShared(t.evidence[e.id].pointer, who);
      QualifiedDescribes(policy, e.id, t.evidence[e.id], now);
    }
  }

  /** What the fresh pieces among the evidence leave open. */
  function Open(es: seq<EvidenceQualification>): real {
    if es == [] then 1.0
    else if es[|es| - 1].freshness.Fresh? then Open(es[..|es| - 1]) * (1.0 - es[|es| - 1].confidence)
    else Open(es[..|es| - 1])
  }

  predicate SomeFresh(es: seq<EvidenceQualification>) {
    exists e :: e in es && e.freshness.Fresh?
  }

  lemma DoubtLast(cs: seq<real>, c: real)
    ensures Doubt(cs + [c]) == Doubt(cs) * (1.0 - c)
  {
    assert (cs + [c])[..|cs|] == cs;
  }

  lemma SomeFreshMore(es: seq<EvidenceQualification>, e: EvidenceQualification)
    ensures SomeFresh(es + [e]) <==> SomeFresh(es) || e.freshness.Fresh?
  {
    if d :| d in es && d.freshness.Fresh? { assert d in es + [e]; }
    if e.freshness.Fresh? { assert e in es + [e]; }
  }

  lemma FreshLast(es: seq<EvidenceQualification>)
    requires es != []
    ensures SomeFresh(es) <==> SomeFresh(es[..|es| - 1]) || es[|es| - 1].freshness.Fresh?
    ensures FreshConfidences(es) == if es[|es| - 1].freshness.Fresh? then FreshConfidences(es[..|es| - 1]) + [es[|es| - 1].confidence]
                                    else FreshConfidences(es[..|es| - 1])
  {
    hide SomeFresh;
    SomeFreshMore(es[..|es| - 1], es[|es| - 1]);
    assert es == es[..|es| - 1] + [es[|es| - 1]];
  }

  lemma {:induction false} OnlyFreshCounts(es: seq<EvidenceQualification>)
    ensures FreshConfidences(es) == [] <==> !SomeFresh(es)
    ensures Doubt(FreshConfidences(es)) == Open(es)
  {
    if es != [] {
      hide Doubt, SomeFresh, FreshConfidences;
      OnlyFreshCounts(es[..|es| - 1]);
      FreshLast(es);
      DoubtLast(FreshConfidences(es[..|es| - 1]), es[|es| - 1].confidence);
    }
  }

  /** A relationship is usable exactly when fresh authorized evidence reaches the threshold; stale evidence never
      counts, and each reservation is made exactly when it holds. */
  lemma UsableExactlyWhenSupported(t: Tenant, policy: Policy, r: Relationship, who: Principal, now: int)
    ensures var q := QualifyRelationship(t, policy, r, who, now);
            var recent := SomeFresh(q.evidence);
            && q.conflicts == {} && q.confidence == (if recent then 1.0 - Open(q.evidence) else 0.0)
            && (q.usable <==> recent && q.confidence >= policy.minimum)
            && q.freshness == (if q.evidence == [] then Unknown else if recent then Fresh else Stale)
            && (NoAuthorizedEvidence in q.remarks <==> q.evidence == [])
            && (OnlyStaleEvidence in q.remarks <==> q.evidence != [] && !recent)
            && (EvidenceWithheld in q.remarks <==> recent && q.withheld > 0)
            && (StaleExcluded in q.remarks <==> recent && exists e :: e in q.evidence && e.freshness.Stale?)
            && (BelowThreshold in q.remarks <==> recent && q.confidence < policy.minimum)
  {
    OnlyFreshCounts(QualifyRelationship(t, policy, r, who, now).evidence);
  }

  ghost predicate UsableEdge(qs: seq<Qualification>, k: EdgeKey) {
    exists i :: 0 <= i < |qs| && qs[i].usable && qs[i].relationship.key == k
  }

  /** Who is asserted to own a service by usable edges from known owners and teams. */
  ghost predicate Owning(qs: seq<Qualification>, entities: map<EntityId, EntityFact>, o: EntityId, service: EntityId) {
    UsableEdge(qs, EdgeKey(o, Owns, service)) && o in entities && (o.kind == Owner || o.kind == Team)
  }

  ghost predicate IsCycle(qs: seq<Qualification>, c: Conflict, a: EntityId, b: EntityId) {
    && UsableEdge(qs, EdgeKey(a, DependsOn, b)) && UsableEdge(qs, EdgeKey(b, DependsOn, a))
    && c == Conflict(DependencyCycle({a, b}), {a, b}, {EdgeKey(a, DependsOn, b), EdgeKey(b, DependsOn, a)})
  }

  ghost predicate IsAmbiguity(qs: seq<Qualification>, entities: map<EntityId, EntityFact>, c: Conflict, service: EntityId) {
    && c.id == AmbiguousOwnership(service)
    && (forall k :: k in c.keys <==> k.kind == Owns && k.target == service && Owning(qs, entities, k.source, service))
    && (forall o :: o in c.entities <==> o == service || Owning(qs, entities, o, service))
    && exists o, p :: o != p && Owning(qs, entities, o, service) && Owning(qs, entities, p, service)
  }

  lemma CyclesAre(qs: seq<Qualification>, c: Conflict)
    ensures c in Cycles(qs) <==> exists a, b :: IsCycle(qs, c, a, b)
  {
    if c in Cycles(qs) {
      var i :| 0 <= i < |qs| && Mutual(qs, qs[i].relationship.key) && c == CycleAt(qs[i].relationship.key);
      var k := qs[i].relationship.key;
      assert k == EdgeKey(k.source, DependsOn, k.target) && Reverse(k) == EdgeKey(k.target, DependsOn, k.source);
      assert IsCycle(qs, c, k.source, k.target);
    }
    if a, b :| IsCycle(qs, c, a, b) {
      var k := EdgeKey(a, DependsOn, b);
      var i :| 0 <= i < |qs| && qs[i].usable && qs[i].relationship.key == k;
      assert Reverse(k) == EdgeKey(b, DependsOn, a);
      assert UsableKey(qs, k) && UsableKey(qs, Reverse(k));
      assert Mutual(qs, qs[i].relationship.key) && c == CycleAt(k);
    }
  }

  lemma OwnerKeysAre(qs: seq<Qualification>, entities: map<EntityId, EntityFact>, service: EntityId, k: EdgeKey)
    ensures k in OwnerKeys(qs, entities, service) <==> k.kind == Owns && k.target == service && Owning(qs, entities, k.source, service)
  {
    if k in OwnerKeys(qs, entities, service) {
      var i :| 0 <= i < |qs| && AssertsOwner(qs[i], entities) && qs[i].relationship.key.target == service && qs[i].relationship.key == k;
      assert k == EdgeKey(k.source, Owns, service);
    }
    if k.kind == Owns && k.target == service && Owning(qs, entities, k.source, service) {
      var i :| 0 <= i < |qs| && qs[i].usable && qs[i].relationship.key == EdgeKey(k.source, Owns, service);
      assert AssertsOwner(qs[i], entities) && qs[i].relationship.key == k;
    }
  }

  lemma SourcesAre(qs: seq<Qualification>, entities: map<EntityId, EntityFact>, service: EntityId, o: EntityId)
    ensures o in Sources(OwnerKeys(qs, entities, service)) <==> Owning(qs, entities, o, service)
  {
    var keys := OwnerKeys(qs, entities, service);
    if o in Sources(keys) {
      var k :| k in keys && k.source == o;
      OwnerKeysAre(qs, entities, service, k);
    }
    if Owning(qs, entities, o, service) {
      OwnerKeysAre(qs, entities, service, EdgeKey(o, Owns, service));
      assert EdgeKey(o, Owns, service) in keys;
    }
  }

  lemma TwoOrMore<T>(s: set<T>)
    ensures |s| > 1 <==> exists a, b :: a in s && b in s && a != b
  {
    if |s| > 1 {
      var a :| a in s;
      assert |s - {a}| > 0;
      var b :| b in s - {a};
      assert a in s && b in s && a != b;
    }
    if a, b :| a in s && b in s && a != b {
      assert {a, b} <= s && |{a, b}| == 2;
      assert s == {a, b} + (s - {a, b});
    }
  }

  lemma AmbiguitiesAre(qs: seq<Qualification>, entities: map<EntityId, EntityFact>, c: Conflict)
    ensures c in Ambiguities(qs, entities) <==> exists service :: IsAmbiguity(qs, entities, c, service)
  {
    hide Owning, UsableEdge, OwnerKeys, Sources;
    if c in Ambiguities(qs, entities) {
      var i :| 0 <= i < |qs| && |Sources(OwnerKeys(qs, entities, qs[i].relationship.key.target))| > 1
               && c == OwnershipAt(OwnerKeys(qs, entities, qs[i].relationship.key.target), qs[i].relationship.key.target);
      var service := qs[i].relationship.key.target;
      var owners := Sources(OwnerKeys(qs, entities, service));
      forall k { OwnerKeysAre(qs, entities, service, k); }
      forall o { SourcesAre(qs, entities, service, o); }
      TwoOrMore(owners);
      var o, p :| o in owners && p in owners && o != p;
      assert IsAmbiguity(qs, entities, c, service);
    }
    if service :| IsAmbiguity(qs, entities, c, service) {
      var keys := OwnerKeys(qs, entities, service);
      forall k { OwnerKeysAre(qs, entities, service, k); }
      forall o { SourcesAre(qs, entities, service, o); }
      var o, p :| o != p && Owning(qs, entities, o, service) && Owning(qs, entities, p, service);
      assert o in Sources(keys) && p in Sources(keys);
      TwoOrMore(Sources(keys));
      assert c.keys == keys && c.entities == Sources(keys) + {service};
      var i := EdgeOf(qs, entities, o, service);
      assert c == OwnershipAt(OwnerKeys(qs, entities, qs[i].relationship.key.target), qs[i].relationship.key.target);
    }
  }

  lemma EdgeOf(qs: seq<Qualification>, entities: map<EntityId, EntityFact>, o: EntityId, service: EntityId) returns (i: nat)
    requires Owning(qs, entities, o, service)
    ensures i < |qs| && qs[i].relationship.key.target == service
  {
    i :| 0 <= i < |qs| && qs[i].usable && qs[i].relationship.key == EdgeKey(o, Owns, service);
  }

  /** The conflicts are the usable mutual dependencies and the services with more than one asserted owner, each with
      the entities and the edges it is about, and every edge carries the conflicts it is part of. */
  lemma ConflictsSay(qs: seq<Qualification>, entities: map<EntityId, EntityFact>)
    ensures forall c :: c in Conflicts(qs, entities) <==>
              (exists a, b :: IsCycle(qs, c, a, b)) || (exists service :: IsAmbiguity(qs, entities, c, service))
    ensures forall i, id :: 0 <= i < |qs| ==>
              (id in Detected(qs, entities)[i].conflicts <==>
                 exists c :: c in Conflicts(qs, entities) && c.id == id && qs[i].relationship.key in c.keys)
  {
    hide Cycles, Ambiguities, IsCycle, IsAmbiguity;
    forall c
      ensures c in Conflicts(qs, entities) <==>
                (exists a, b :: IsCycle(qs, c, a, b)) || (exists service :: IsAmbiguity(qs, entities, c, service))
    {
      CyclesAre(qs, c);
      AmbiguitiesAre(qs, entities, c);
    }
  }

  /** A service the change names, known, and tied to the repository by a usable edge. */
  ghost predicate Scoped(qs: seq<Qualification>, entities: map<EntityId, EntityFact>, repository: EntityId, s: EntityId) {
    s in entities && s.kind == Service && UsableEdge(qs, EdgeKey(s, BelongsTo, repository))
  }

  ghost predicate DependsUsably(qs: seq<Qualification>, entities: map<EntityId, EntityFact>, l: Link<EntityId>) {
    && UsableEdge(qs, EdgeKey(l.dependent, DependsOn, l.on)) && l.dependent in entities && l.on in entities
    && l.dependent.kind == Service && l.on.kind == Service
  }

  lemma ServicesAre(qs: seq<Qualification>, entities: map<EntityId, EntityFact>, repository: EntityId, s: EntityId)
    ensures s in ServicesOf(qs, entities, repository) <==> Scoped(qs, entities, repository, s)
  {
    if s in ServicesOf(qs, entities, repository) {
      var i :| 0 <= i < |qs| && qs[i].usable && qs[i].relationship.key.kind == BelongsTo
               && qs[i].relationship.key.target == repository && qs[i].relationship.key.source == s;
      assert qs[i].relationship.key == EdgeKey(s, BelongsTo, repository);
    }
    if Scoped(qs, entities, repository, s) {
      var i :| 0 <= i < |qs| && qs[i].usable && qs[i].relationship.key == EdgeKey(s, BelongsTo, repository);
    }
  }

  lemma LinksAre(qs: seq<Qualification>, entities: map<EntityId, EntityFact>, l: Link<EntityId>)
    ensures l in UsableLinks(qs, entities) <==> DependsUsably(qs, entities, l)
  {
    if l in UsableLinks(qs, entities) {
      var i :| 0 <= i < |qs| && JoinsServices(qs[i], entities)
               && l == Link(qs[i].relationship.key.source, qs[i].relationship.key.target);
      assert qs[i].relationship.key == EdgeKey(l.dependent, DependsOn, l.on);
    }
    if DependsUsably(qs, entities, l) {
      var i :| 0 <= i < |qs| && qs[i].usable && qs[i].relationship.key == EdgeKey(l.dependent, DependsOn, l.on);
      assert JoinsServices(qs[i], entities);
    }
  }

  lemma OwnersAre(qs: seq<Qualification>, entities: map<EntityId, EntityFact>, blast: set<EntityId>, o: EntityId)
    ensures o in OwnersOf(qs, entities, blast) <==> exists s :: s in blast && Owning(qs, entities, o, s)
  {
    if o in OwnersOf(qs, entities, blast) {
      var i :| 0 <= i < |qs| && AssertsOwner(qs[i], entities) && qs[i].relationship.key.target in blast && qs[i].relationship.key.source == o;
      var s := qs[i].relationship.key.target;
      assert qs[i].relationship.key == EdgeKey(o, Owns, s);
      assert Owning(qs, entities, o, s);
    }
    if s :| s in blast && Owning(qs, entities, o, s) {
      var i :| 0 <= i < |qs| && qs[i].usable && qs[i].relationship.key == EdgeKey(o, Owns, s);
      assert AssertsOwner(qs[i], entities);
    }
  }

  /** The scope of a qualified context, for the tenant's rows as the principal may use them. */
  lemma ScopeSays(t: Tenant, policy: Policy, repository: EntityId, requested: set<EntityId>, who: Principal, now: int, links: set<Link<EntityId>>)
    requires var qs := Detected(Qualifications(t, policy, who, now), t.entities);
             forall l :: l in links <==> DependsUsably(qs, t.entities, l)
    ensures ContextForChange(t, policy, repository, requested, who, now).Ok? <==> repository in t.entities && repository.kind == Repository
    ensures repository in t.entities && repository.kind == Repository ==>
              var qs, c := Detected(Qualifications(t, policy, who, now), t.entities),
                           ContextForChange(t, policy, repository, requested, who, now).value;
              && c.repository == repository
              && (forall s :: s in c.changed <==> s in requested && Scoped(qs, t.entities, repository, s))
              && IsImpact(c.blast, c.changed, links)
              && (forall o :: o in c.owners <==> exists s :: s in c.blast && Owning(qs, t.entities, o, s))
  {
    hide Qualifications, Detected, Scoped, DependsUsably, Owning, ServicesOf, UsableLinks, OwnersOf, IsImpact, Impact, Conflicts;
    var qs := Detected(Qualifications(t, policy, who, now), t.entities);
    forall s { ServicesAre(qs, t.entities, repository, s); }
    forall l { LinksAre(qs, t.entities, l); }
    assert links == UsableLinks(qs, t.entities);
    var changed := requested * ServicesOf(qs, t.entities, repository);
    ImpactIsLeast(changed, links);
    forall o { OwnersAre(qs, t.entities, Impact(changed, links), o); }
  }

  ghost predicate Touches(q: Qualification, ids: set<EntityId>) {
    q.relationship.key.source in ids || q.relationship.key.target in ids
  }

  lemma {:induction false} RelevantTouch(qs: seq<Qualification>, ids: set<EntityId>)
    ensures forall q :: q in Relevant(qs, ids) <==> q in qs && Touches(q, ids)
  {
    if qs != [] {
      assert qs == qs[..|qs| - 1] + [qs[|qs| - 1]];
      RelevantTouch(qs[..|qs| - 1], ids);
    }
  }

  /** A relationship a decision may rest on; evidence edges only say where a fact comes from. */
  ghost predicate Decisive(q: Qualification) {
    q.usable && q.relationship.key.kind != HasEvidence
  }

  lemma {:induction false} WeakestIsLeast(qs: seq<Qualification>)
    ensures Weakest(qs).None? <==> forall q :: q in qs ==> !Decisive(q)
    ensures Weakest(qs).Some? ==>
              && (exists q :: q in qs && Decisive(q) && q.confidence == Weakest(qs).value)
              && forall q :: q in qs && Decisive(q) ==> Weakest(qs).value <= q.confidence
  {
    if qs != [] {
      var before, last := qs[..|qs| - 1], qs[|qs| - 1];
      assert qs == before + [last] && last in qs;
      WeakestIsLeast(before);
      assert forall q :: q in before ==> q in qs;
    }
  }

  /** The listing holds each piece of evidence behind the qualifications once. */
  ghost predicate Gathers(es: seq<EvidenceQualification>, all: seq<EvidenceQualification>) {
    && (forall e :: e in es ==> e in all)
    && (forall e :: e in all ==> Names(es, e.id))
    && (forall i, j :: 0 <= i < j < |es| ==> es[i].id != es[j].id)
  }

  lemma NamesMore(es: seq<EvidenceQualification>, e: EvidenceQualification)
    ensures forall id :: Names(es + [e], id) <==> Names(es, id) || id == e.id
  {
    assert e in es + [e];
    forall id | Names(es, id) ensures Names(es + [e], id) {
      var d :| d in es && d.id == id;
      assert d in es + [e];
    }
  }

  lemma GathersOneMore(es: seq<EvidenceQualification>, all: seq<EvidenceQualification>, e: EvidenceQualification)
    requires Gathers(es, all)
    ensures if Names(es, e.id) then Gathers(es, all + [e]) else Gathers(es + [e], all + [e])
  {
    NamesMore(es, e);
    if !Names(es, e.id) {
      forall i | 0 <= i < |es| ensures es[i].id != e.id { assert es[i] in es; }
    }
    hide Names;
  }

  lemma {:induction false} DeduplicatedGathers(all: seq<EvidenceQualification>)
    ensures Gathers(Deduplicated(all), all)
  {
    hide Gathers;
    if all == [] {
      NothingGathered();
    } else {
      assert all == all[..|all| - 1] + [all[|all| - 1]];
      DeduplicatedGathers(all[..|all| - 1]);
      GathersOneMore(Deduplicated(all[..|all| - 1]), all[..|all| - 1], all[|all| - 1]);
    }
  }

  lemma NothingGathered()
    ensures Gathers([], [])
  {
  }

  lemma {:induction false} EvidenceIsOfThem(qs: seq<Qualification>, e: EvidenceQualification)
    ensures e in EvidenceOf(qs) <==> exists q :: q in qs && e in q.evidence
  {
    if qs != [] {
      var before, last := qs[..|qs| - 1], qs[|qs| - 1];
      assert qs == before + [last] && last in qs;
      EvidenceIsOfThem(before, e);
      assert forall q :: q in before ==> q in qs;
      if e in EvidenceOf(before) { var q :| q in before && e in q.evidence; assert q in qs; }
    }
  }

  lemma {:induction false} SupportsAre(qs: seq<Qualification>, id: EntityId)
    ensures forall q :: q in Supports(qs, id) <==> q in qs && q.relationship.key.kind == HasEvidence && q.relationship.key.source == id
  {
    if qs != [] {
      assert qs == qs[..|qs| - 1] + [qs[|qs| - 1]];
      SupportsAre(qs[..|qs| - 1], id);
    }
  }

  /** An entity is as certain as the fresh evidence its own evidence edges carry. */
  lemma EntitySays(qs: seq<Qualification>, id: EntityId, fact: EntityFact)
    ensures var e := QualifyEntity(id, fact, qs);
            && e.id == id && e.fact == fact
            && (forall d :: d in e.evidence ==>
                  exists q :: q in qs && q.relationship.key.kind == HasEvidence && q.relationship.key.source == id && d in q.evidence)
            && (forall q, d :: q in qs && q.relationship.key.kind == HasEvidence && q.relationship.key.source == id && d in q.evidence ==>
                  Names(e.evidence, d.id))
            && (forall i, j :: 0 <= i < j < |e.evidence| ==> e.evidence[i].id != e.evidence[j].id)
            && e.confidence == (if SomeFresh(e.evidence) then 1.0 - Open(e.evidence) else 0.0)
            && e.freshness == (if e.evidence == [] then Unknown else if SomeFresh(e.evidence) then Fresh else Stale)
  {
    hide Deduplicated, EvidenceOf, Supports, FreshConfidences, Open, Doubt, Names;
    var supports := Supports(qs, id);
    SupportsAre(qs, id);
    DeduplicatedGathers(EvidenceOf(supports));
    OnlyFreshCounts(Deduplicated(EvidenceOf(supports)));
    forall d ensures d in EvidenceOf(supports) <==> exists q :: q in supports && d in q.evidence { EvidenceIsOfThem(supports, d); }
  }

  /** What a context explains about its scope: the relationships that touch it, the least confidence among those a
      decision may rest on, the evidence behind them, the conflicts within it and every reservation that holds. */
  lemma ExplanationSays(qs: seq<Qualification>, all: set<Conflict>, entities: map<EntityId, EntityFact>, repository: EntityId,
                        requested: set<EntityId>, changed: set<EntityId>, blast: set<EntityId>, owners: set<EntityId>)
    ensures var c := Explained(qs, all, entities, repository, requested, changed, blast, owners);
            var ids := {repository} + blast + owners;
            && c.repository == repository && c.changed == changed && c.blast == blast && c.owners == owners
            && (forall q :: q in c.relationships <==> q in qs && Touches(q, ids))
            && (if forall q :: q in c.relationships ==> !Decisive(q) then c.confidence == 0.0
                else (exists q :: q in c.relationships && Decisive(q) && q.confidence == c.confidence)
                     && forall q :: q in c.relationships && Decisive(q) ==> c.confidence <= q.confidence)
            && (forall id :: id in c.entities <==> id in ids && id in entities)
            && (forall id :: id in c.entities ==> c.entities[id] == QualifyEntity(id, entities[id], qs))
            && (forall x :: x in c.conflicts <==> x in all && exists id :: id in x.entities && id in ids)
  {
    hide QualifyEntity, Decisive;
    var ids := Concerned(repository, blast, owners);
    RelevantTouch(qs, ids);
    WeakestIsLeast(Relevant(qs, ids));
    forall x | x in all && x.entities * ids != {} ensures exists id :: id in x.entities && id in ids {
      var id :| id in x.entities * ids;
    }
    forall x, id | x in all && id in x.entities && id in ids ensures x.entities * ids != {} {
      assert id in x.entities * ids;
    }
  }

  lemma ReservationsSay(qs: seq<Qualification>, all: set<Conflict>, entities: map<EntityId, EntityFact>, repository: EntityId,
                        requested: set<EntityId>, changed: set<EntityId>, blast: set<EntityId>, owners: set<EntityId>)
    ensures var c := Explained(qs, all, entities, repository, requested, changed, blast, owners);
            && (forall e :: e in c.evidence ==> exists q :: q in c.relationships && e in q.evidence)
            && (forall q, e :: q in c.relationships && e in q.evidence ==> Names(c.evidence, e.id))
            && (forall i, j :: 0 <= i < j < |c.evidence| ==> c.evidence[i].id != c.evidence[j].id)
            && (UnmappedServices in c.limitations <==> exists s :: s in requested && s !in changed)
            && (StaleRelationships in c.limitations <==> exists q :: q in c.relationships && q.freshness.Stale?)
            && (WithheldEvidence in c.limitations <==> exists q :: q in c.relationships && q.withheld > 0)
            && (UnusableRelationships in c.limitations <==> exists q :: q in c.relationships && !q.usable)
            && (Conflicting in c.limitations <==> c.conflicts != {})
            && (NothingQualified in c.limitations <==> forall q :: q in c.relationships ==> !q.usable)
  {
    var relevant := Relevant(qs, Concerned(repository, blast, owners));
    hide Relevant, QualifiedEntities, Weakest, Deduplicated, EvidenceOf, Names;
    DeduplicatedGathers(EvidenceOf(relevant));
    forall e ensures e in EvidenceOf(relevant) <==> exists q :: q in relevant && e in q.evidence { EvidenceIsOfThem(relevant, e); }
    if s :| s in requested && s !in changed { assert s in requested - changed; }
  }
}
