/** The loops behind a qualified read: conflict detection over the qualifications, and the indexed impact worklist. */
module WorldModelQueries {
  import opened Wrappers
  import opened BrainTypes
  import opened Reachability
  import opened WorldModel
  import Laws = WorldModelLaws

  /** The order in which identifiers are compared: of two different ones exactly one is above the other. */
  type Order = (EntityId, EntityId) -> bool

  ghost predicate Decides(above: Order) {
    forall a, b :: a != b ==> above(a, b) != above(b, a)
  }

  ghost predicate DistinctKeys(qs: seq<Qualification>) {
    && (forall i, j :: 0 <= i < j < |qs| ==> qs[i].relationship.key != qs[j].relationship.key)
    && (forall i :: 0 <= i < |qs| ==> qs[i].relationship.key.source != qs[i].relationship.key.target)
  }

  /** The half of a mutual pair that reports it. */
  predicate Reports(qs: seq<Qualification>, above: Order, i: nat)
    requires i < |qs|
  {
    var k := qs[i].relationship.key;
    Mutual(qs, k) && !above(k.source, k.target)
  }

  lemma OneHalfReports(qs: seq<Qualification>, above: Order, i: nat)
    requires DistinctKeys(qs) && Decides(above) && i < |qs| && Mutual(qs, qs[i].relationship.key)
    ensures exists j: nat :: j < |qs| && Reports(qs, above, j) && CycleAt(qs[j].relationship.key) == CycleAt(qs[i].relationship.key)
                             && qs[i].relationship.key in {qs[j].relationship.key, Reverse(qs[j].relationship.key)}
  {
    var k := qs[i].relationship.key;
    if above(k.source, k.target) {
      var j: nat :| j < |qs| && qs[j].relationship.key == Reverse(k) && qs[j].usable;
      assert Reverse(Reverse(k)) == k;
      Laws.SamePairSameCycle(k, Reverse(k));
      assert Reports(qs, above, j);
    } else {
      assert Reports(qs, above, i);
    }
  }

  lemma NoPairReportsTwice(qs: seq<Qualification>, above: Order, i: nat, j: nat)
    requires DistinctKeys(qs) && Decides(above) && i < j < |qs| && Reports(qs, above, i) && Reports(qs, above, j)
    ensures CycleAt(qs[i].relationship.key) != CycleAt(qs[j].relationship.key)
  {
    var k, l := qs[i].relationship.key, qs[j].relationship.key;
    assert k in CycleAt(k).keys;
    assert k != l && k != Reverse(l);
    assert k !in CycleAt(l).keys;
  }

  method ByKey(qs: seq<Qualification>) returns (usable: set<EdgeKey>)
    ensures forall k :: k in usable <==> UsableKey(qs, k)
  {
    usable := {};
    for i := 0 to |qs|
      invariant forall k :: k in usable <==> exists j :: 0 <= j < i && qs[j].relationship.key == k && qs[j].usable
    {
      if qs[i].usable { usable := usable + {qs[i].relationship.key}; }
    }
  }

  /** Whether this edge is the reporting half of a usable mutual dependency. */
  method IsReported(qs: seq<Qualification>, usable: set<EdgeKey>, above: Order, i: nat) returns (yes: bool)
    requires DistinctKeys(qs) && i < |qs| && forall k :: k in usable <==> UsableKey(qs, k)
    ensures yes <==> Reports(qs, above, i)
  {
    var key := qs[i].relationship.key;
    if key.kind != DependsOn || !qs[i].usable { return false; }
    assert UsableKey(qs, key);
    yes := Reverse(key) in usable && !above(key.source, key.target);
  }

  ghost predicate ReportedBelow(qs: seq<Qualification>, above: Order, n: nat, c: Conflict)
    requires n <= |qs|
  {
    exists j: nat :: j < n && Reports(qs, above, j) && c == CycleAt(qs[j].relationship.key)
  }

  ghost predicate CyclicBelow(qs: seq<Qualification>, above: Order, n: nat, k: EdgeKey)
    requires n <= |qs|
  {
    exists j: nat :: j < n && Reports(qs, above, j) && k in {qs[j].relationship.key, Reverse(qs[j].relationship.key)}
  }

  /** What the first `n + 1` report is what the first `n` report and what the next one does. */
  lemma ReportedOneMore(qs: seq<Qualification>, above: Order, n: nat, c: Conflict)
    requires n < |qs|
    ensures ReportedBelow(qs, above, n + 1, c) <==>
              ReportedBelow(qs, above, n, c) || (Reports(qs, above, n) && c == CycleAt(qs[n].relationship.key))
  {
    hide Reports, CycleAt;
    if ReportedBelow(qs, above, n + 1, c) {
      var j: nat :| j < n + 1 && Reports(qs, above, j) && c == CycleAt(qs[j].relationship.key);
      assert j < n || j == n;
    }
    if ReportedBelow(qs, above, n, c) {
      var j: nat :| j < n && Reports(qs, above, j) && c == CycleAt(qs[j].relationship.key);
      assert j < n + 1 && Reports(qs, above, j);
    }
    if Reports(qs, above, n) && c == CycleAt(qs[n].relationship.key) {
      assert n < n + 1 && Reports(qs, above, n);
    }
  }

  lemma CyclicOneMore(qs: seq<Qualification>, above: Order, n: nat, k: EdgeKey)
    requires n < |qs|
    ensures CyclicBelow(qs, above, n + 1, k) <==>
              CyclicBelow(qs, above, n, k)
              || (Reports(qs, above, n) && k in {qs[n].relationship.key, Reverse(qs[n].relationship.key)})
  {
    hide Reports, Reverse;
    if CyclicBelow(qs, above, n + 1, k) {
      var j: nat :| j < n + 1 && Reports(qs, above, j) && k in {qs[j].relationship.key, Reverse(qs[j].relationship.key)};
      assert j < n || j == n;
    }
    if CyclicBelow(qs, above, n, k) {
      var j: nat :| j < n && Reports(qs, above, j) && k in {qs[j].relationship.key, Reverse(qs[j].relationship.key)};
      assert j < n + 1 && Reports(qs, above, j);
    }
    if Reports(qs, above, n) && k in {qs[n].relationship.key, Reverse(qs[n].relationship.key)} {
      assert n < n + 1 && Reports(qs, above, n);
    }
  }

  lemma NotReportedBefore(qs: seq<Qualification>, above: Order, n: nat)
    requires DistinctKeys(qs) && Decides(above) && n < |qs| && Reports(qs, above, n)
    ensures !ReportedBelow(qs, above, n, CycleAt(qs[n].relationship.key))
  {
    hide Reports, CycleAt, DistinctKeys, Decides;
    forall j: nat | j < n && Reports(qs, above, j) ensures CycleAt(qs[j].relationship.key) != CycleAt(qs[n].relationship.key) {
      NoPairReportsTwice(qs, above, j, n);
    }
  }

  lemma MutualIsReported(qs: seq<Qualification>, above: Order, i: nat)
    requires DistinctKeys(qs) && Decides(above) && i < |qs| && Mutual(qs, qs[i].relationship.key)
    ensures ReportedBelow(qs, above, |qs|, CycleAt(qs[i].relationship.key))
    ensures CyclicBelow(qs, above, |qs|, qs[i].relationship.key)
  {
    OneHalfReports(qs, above, i);
    hide Reports, CycleAt, DistinctKeys, Mutual;
  }

  lemma ReportedIsMutual(qs: seq<Qualification>, above: Order, k: EdgeKey)
    requires CyclicBelow(qs, above, |qs|, k)
    ensures Mutual(qs, k)
  {
    var j: nat :| j < |qs| && Reports(qs, above, j) && k in {qs[j].relationship.key, Reverse(qs[j].relationship.key)};
    assert Reverse(Reverse(qs[j].relationship.key)) == qs[j].relationship.key;
  }

  lemma AllReported(qs: seq<Qualification>, above: Order)
    requires DistinctKeys(qs) && Decides(above)
    ensures forall c :: c in Cycles(qs) <==> ReportedBelow(qs, above, |qs|, c)
    ensures forall i :: 0 <= i < |qs| ==>
              (CyclicBelow(qs, above, |qs|, qs[i].relationship.key) <==> Mutual(qs, qs[i].relationship.key))
  {
    hide Reports, CycleAt, DistinctKeys, Mutual, CyclicBelow, ReportedBelow;
    forall i | 0 <= i < |qs| && Mutual(qs, qs[i].relationship.key)
      ensures ReportedBelow(qs, above, |qs|, CycleAt(qs[i].relationship.key))
      ensures CyclicBelow(qs, above, |qs|, qs[i].relationship.key)
    {
      MutualIsReported(qs, above, i);
    }
    forall k | CyclicBelow(qs, above, |qs|, k) ensures Mutual(qs, k) { ReportedIsMutual(qs, above, k); }
    forall c | ReportedBelow(qs, above, |qs|, c) ensures c in Cycles(qs) { ReportedIsCycle(qs, above, c); }
  }

  lemma ReportedIsCycle(qs: seq<Qualification>, above: Order, c: Conflict)
    requires ReportedBelow(qs, above, |qs|, c)
    ensures c in Cycles(qs)
  {
    var j: nat :| j < |qs| && Reports(qs, above, j) && c == CycleAt(qs[j].relationship.key);
    assert Mutual(qs, qs[j].relationship.key);
  }

  /** Report each usable mutual dependency, from the half whose source is not above its target. */
  method FindCycles(qs: seq<Qualification>, above: Order) returns (cycleKeys: set<EdgeKey>, conflicts: seq<Conflict>)
    requires DistinctKeys(qs) && Decides(above)
    ensures Lists(conflicts, Cycles(qs))
    ensures forall i :: 0 <= i < |qs| ==> (qs[i].relationship.key in cycleKeys <==> Mutual(qs, qs[i].relationship.key))
  {
    hide CycleAt, DistinctKeys, Reports, ReportedBelow, CyclicBelow;
    var usable := ByKey(qs);
    cycleKeys, conflicts := {}, [];
    NoneBelow(qs, above);
    for i := 0 to |qs|
      invariant forall k :: k in cycleKeys <==> CyclicBelow(qs, above, i, k)
      invariant forall c :: c in conflicts <==> ReportedBelow(qs, above, i, c)
      invariant forall a, b :: 0 <= a < b < |conflicts| ==> conflicts[a] != conflicts[b]
    {
      forall c: Conflict { ReportedOneMore(qs, above, i, c); }
      forall k: EdgeKey { CyclicOneMore(qs, above, i, k); }
      var key := qs[i].relationship.key;
      var reported := IsReported(qs, usable, above, i);
      if !reported { continue; }
      NotReportedBefore(qs, above, i);
      cycleKeys := cycleKeys + {key, Reverse(key)};
      conflicts := conflicts + [CycleAt(key)];
    }
    AllReported(qs, above);
  }

  lemma NoneBelow(qs: seq<Qualification>, above: Order)
    ensures forall k :: !CyclicBelow(qs, above, 0, k)
    ensures forall c :: !ReportedBelow(qs, above, 0, c)
  {
  }

  function At<T>(m: map<EntityId, set<T>>, id: EntityId): set<T> {
    if id in m then m[id] else {}
  }

  lemma OwnerKeysOneMore(qs: seq<Qualification>, entities: map<EntityId, EntityFact>, i: nat, service: EntityId)
    requires i < |qs|
    ensures OwnerKeys(qs[..i + 1], entities, service)
         == OwnerKeys(qs[..i], entities, service)
            + if AssertsOwner(qs[i], entities) && qs[i].relationship.key.target == service then {qs[i].relationship.key} else {}
  {
    var all := qs[..i + 1];
    forall k | k in OwnerKeys(qs[..i], entities, service) ensures k in OwnerKeys(all, entities, service) {
      var j :| 0 <= j < i && AssertsOwner(qs[..i][j], entities) && qs[..i][j].relationship.key.target == service
               && qs[..i][j].relationship.key == k;
      assert all[j] == qs[..i][j];
    }
    forall k | k in OwnerKeys(all, entities, service) && k != qs[i].relationship.key
      ensures k in OwnerKeys(qs[..i], entities, service)
    {
      var j :| 0 <= j < |all| && AssertsOwner(all[j], entities) && all[j].relationship.key.target == service && all[j].relationship.key == k;
      assert qs[..i][j] == all[j];
    }
    if AssertsOwner(qs[i], entities) && qs[i].relationship.key.target == service { assert all[i] == qs[i]; }
  }

  method OwnersByService(qs: seq<Qualification>, entities: map<EntityId, EntityFact>)
    returns (owners: map<EntityId, set<EntityId>>, relationships: map<EntityId, set<EdgeKey>>)
    ensures owners.Keys == relationships.Keys
    ensures forall s :: At(relationships, s) == OwnerKeys(qs, entities, s)
    ensures forall s :: s in owners ==> owners[s] == Sources(OwnerKeys(qs, entities, s))
  {
    owners, relationships := map[], map[];
    for i := 0 to |qs|
      invariant owners.Keys == relationships.Keys
      invariant forall s :: At(relationships, s) == OwnerKeys(qs[..i], entities, s)
      invariant forall s :: s in owners ==> owners[s] == Sources(At(relationships, s))
    {
      var key := qs[i].relationship.key;
      forall s ensures OwnerKeys(qs[..i + 1], entities, s)
                    == OwnerKeys(qs[..i], entities, s)
                       + if AssertsOwner(qs[i], entities) && key.target == s then {key} else {}
      {
        OwnerKeysOneMore(qs, entities, i, s);
      }
      ghost var before := relationships;
      if AssertsOwner(qs[i], entities) {
        owners := owners[key.target := At(owners, key.target) + {key.source}];
        relationships := relationships[key.target := At(relationships, key.target) + {key}];
      }
      assert forall s :: At(relationships, s)
                      == At(before, s) + if AssertsOwner(qs[i], entities) && key.target == s then {key} else {};
    }
    assert qs[..|qs|] == qs;
  }

  predicate Ambiguous(qs: seq<Qualification>, entities: map<EntityId, EntityFact>, service: EntityId) {
    |Sources(OwnerKeys(qs, entities, service))| > 1
  }

  lemma AmbiguitiesAre(qs: seq<Qualification>, entities: map<EntityId, EntityFact>, c: Conflict)
    ensures c in Ambiguities(qs, entities) <==>
              c.id.AmbiguousOwnership? && Ambiguous(qs, entities, c.id.service)
              && c == OwnershipAt(OwnerKeys(qs, entities, c.id.service), c.id.service)
  {
    if c.id.AmbiguousOwnership? && Ambiguous(qs, entities, c.id.service) {
      var keys := OwnerKeys(qs, entities, c.id.service);
      assert Sources(keys) != {};
      var k :| k in keys;
    }
  }

  /** Report each service with more than one asserted owner. */
  method FindAmbiguities(qs: seq<Qualification>, entities: map<EntityId, EntityFact>) returns (conflicts: seq<Conflict>)
    ensures Lists(conflicts, Ambiguities(qs, entities))
  {
    hide OwnerKeys, Ambiguities;
    var owners, relationships := OwnersByService(qs, entities);
    conflicts := [];
    var todo := owners.Keys;
    while todo != {}
      invariant todo <= owners.Keys
      invariant forall c :: c in conflicts <==>
                  c.id.AmbiguousOwnership? && c.id.service in owners.Keys - todo && Ambiguous(qs, entities, c.id.service)
                  && c == OwnershipAt(OwnerKeys(qs, entities, c.id.service), c.id.service)
      invariant forall a, b :: 0 <= a < b < |conflicts| ==> conflicts[a] != conflicts[b]
      decreases |todo|
    {
      var s :| s in todo;
      todo := todo - {s};
      if |owners[s]| <= 1 { continue; }
      assert At(relationships, s) == relationships[s];
      conflicts := conflicts + [Conflict(AmbiguousOwnership(s), owners[s] + {s}, relationships[s])];
    }
    forall s | Ambiguous(qs, entities, s) ensures s in owners {
      assert Sources(At(relationships, s)) != {};
    }
    forall c ensures c in conflicts <==> c in Ambiguities(qs, entities) { AmbiguitiesAre(qs, entities, c); }
  }

  lemma ListsBoth(cycles: seq<Conflict>, ambiguities: seq<Conflict>, qs: seq<Qualification>, entities: map<EntityId, EntityFact>)
    requires Lists(cycles, Cycles(qs)) && Lists(ambiguities, Ambiguities(qs, entities))
    ensures Lists(cycles + ambiguities, Conflicts(qs, entities))
  {
    var all := cycles + ambiguities;
    forall a, b | 0 <= a < b < |all| ensures all[a] != all[b] {
      if a < |cycles| <= b {
        assert all[a] in cycles && all[b] in ambiguities;
        assert all[a].id.DependencyCycle? && all[b].id.AmbiguousOwnership?;
      }
    }
  }

  /** Note on a qualification the conflicts that name its edge, and exclude it when it is half of a cycle. */
  method Note(q: Qualification, conflicts: seq<Conflict>, cyclic: bool) returns (r: Qualification)
    ensures forall cs :: Lists(conflicts, cs) ==>
              r == q.(usable := q.usable && !cyclic, conflicts := ConflictsAt(cs, q.relationship.key))
  {
    var ids := set c | c in conflicts && q.relationship.key in c.keys :: c.id;
    forall cs | Lists(conflicts, cs) ensures ids == ConflictsAt(cs, q.relationship.key) {
    }
    r := q.(usable := if cyclic then false else q.usable, conflicts := ids);
  }

  method DetectConflicts(qs: seq<Qualification>, entities: map<EntityId, EntityFact>, above: Order)
    returns (qualified: seq<Qualification>, conflicts: seq<Conflict>)
    requires DistinctKeys(qs) && Decides(above)
    ensures qualified == Detected(qs, entities)
    ensures Lists(conflicts, Conflicts(qs, entities))
  {
    var cycleKeys, cycles := FindCycles(qs, above);
    var ambiguities := FindAmbiguities(qs, entities);
    ListsBoth(cycles, ambiguities, qs, entities);
    conflicts := cycles + ambiguities;
    ghost var all := Conflicts(qs, entities);
    qualified := [];
    for i := 0 to |qs|
      invariant |qualified| == i
      invariant forall j :: 0 <= j < i ==>
                  qualified[j] == qs[j].(usable := qs[j].usable && !Mutual(qs, qs[j].relationship.key),
                                         conflicts := ConflictsAt(all, qs[j].relationship.key))
    {
      var q := Note(qs[i], conflicts, qs[i].relationship.key in cycleKeys);
      qualified := qualified + [q];
    }
  }

  lemma LinksOneMore(qs: seq<Qualification>, entities: map<EntityId, EntityFact>, i: nat)
    requires i < |qs|
    ensures UsableLinks(qs[..i + 1], entities)
         == UsableLinks(qs[..i], entities)
            + if JoinsServices(qs[i], entities) then {Link(qs[i].relationship.key.source, qs[i].relationship.key.target)} else {}
  {
    var all, before := qs[..i + 1], qs[..i];
    assert forall j :: 0 <= j < i ==> all[j] == before[j];
    assert all[i] == qs[i];
    forall l | l in UsableLinks(before, entities) ensures l in UsableLinks(all, entities) {
      var j :| 0 <= j < i && JoinsServices(before[j], entities)
               && l == Link(before[j].relationship.key.source, before[j].relationship.key.target);
      assert JoinsServices(all[j], entities);
    }
  }

  method Index(qs: seq<Qualification>, entities: map<EntityId, EntityFact>) returns (incoming: map<EntityId, set<EntityId>>)
    ensures forall id :: At(incoming, id) == DependentsOn(UsableLinks(qs, entities), {id})
  {
    incoming := map[];
    for i := 0 to |qs|
      invariant forall id :: At(incoming, id) == DependentsOn(UsableLinks(qs[..i], entities), {id})
    {
      var key := qs[i].relationship.key;
      ghost var before := incoming;
      LinksOneMore(qs, entities, i);
      if JoinsServices(qs[i], entities) {
        incoming := incoming[key.target := At(incoming, key.target) + {key.source}];
      }
      forall id ensures At(incoming, id) == DependentsOn(UsableLinks(qs[..i + 1], entities), {id}) {
        assert At(incoming, id) == At(before, id) + if JoinsServices(qs[i], entities) && key.target == id then {key.source} else {};
      }
    }
    assert qs[..|qs|] == qs;
  }

  /** The changed services and everything that transitively depends on them over usable dependencies. */
  method BlastRadius(changed: seq<EntityId>, qs: seq<Qualification>, entities: map<EntityId, EntityFact>) returns (seen: set<EntityId>)
    ensures seen == Impact((set c | c in changed), UsableLinks(qs, entities))
  {
    ghost var links, start := UsableLinks(qs, entities), (set c | c in changed);
    ghost var bound := Impact(start, links);
    ImpactIsLeast(start, links);
    assert start <= bound && Closed(bound, links);
    hide Impact, IsImpact, UsableLinks;
    var incoming := Index(qs, entities);
    seen := set c | c in changed;
    var pending := changed;
    while pending != []
      invariant start <= seen <= bound && forall x :: x in pending ==> x in seen
      invariant forall l :: l in links && l.on in seen ==> l.dependent in seen || l.on in pending
      decreases bound - seen, |pending|
    {
      ghost var all := pending;
      var current := pending[|pending| - 1];
      pending := pending[..|pending| - 1];
      assert forall x :: x in all ==> x == current || x in pending;
      var dependents := At(incoming, current);
      forall l | l in links && l.on == current ensures l.dependent in dependents {
        assert l.dependent in DependentsOn(links, {current});
      }
      seen, pending := Discover(dependents, seen, pending);
    }
    ClosedWithinImpact(seen, start, links);
  }

  lemma QualificationsAreDistinct(t: Tenant, policy: Policy, who: Principal, now: int)
    requires Keyed(t.relationships)
    ensures DistinctKeys(Qualifications(t, policy, who, now))
  {
  }

  /** The qualified context of a change, computed by the loops. */
  method QueryContext(t: Tenant, policy: Policy, repository: EntityId, requested: set<EntityId>, who: Principal, now: int, above: Order)
    returns (r: Result<QualifiedContext, WorldModelError>)
    requires Keyed(t.relationships) && Decides(above)
    ensures r == ContextForChange(t, policy, repository, requested, who, now)
  {
    hide Conflicts, Detected, Qualifications, UsableLinks, ServicesOf, OwnersOf, Explained, DistinctKeys;
    if repository !in t.entities || repository.kind != Repository { return Err(NoSuchRepository); }
    var raw := Qualifications(t, policy, who, now);
    QualificationsAreDistinct(t, policy, who, now);
    var qs, conflicts := DetectConflicts(raw, t.entities, above);
    var changed := requested * ServicesOf(qs, t.entities, repository);
    var pending := Listing(changed);
    assert (set c | c in pending) == changed;
    var blast := BlastRadius(pending, qs, t.entities);
    var all := set c | c in conflicts;
    assert all == Conflicts(raw, t.entities);
    r := Ok(Explained(qs, all, t.entities, repository, requested, changed, blast, OwnersOf(qs, t.entities, blast)));
  }
}
