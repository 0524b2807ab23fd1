/** Blast-radius locks: no two live remediations cover the same service. */
module ConcurrencyLock {
  import Text

  /** A lease id is an unguessable fresh token; `services` contains the leased service itself. */
  datatype Lease = Lease(id: nat, service: string, services: set<string>, acquiredAt: int, expiresAt: int)

  datatype Answer =
    | Granted(lease: Lease)
    | Refused(service: string, holder: nat)

  predicate Expired(lease: Lease, now: int) {
    now >= lease.expiresAt
  }

  function Scope(lease: Lease): set<string> {
    {lease.service} + lease.services
  }

  /** The table, in insertion order, without what has expired. */
  function Pruned(leases: seq<Lease>, now: int): (r: seq<Lease>)
    ensures forall l :: l in r <==> l in leases && !Expired(l, now)
    ensures Distinct(leases) ==> Distinct(r)
  {
    if leases == [] then []
    else
      var n := |leases| - 1;
      var rest := Pruned(leases[..n], now);
      assert Distinct(leases) ==> forall l :: l in rest ==> l.id != leases[n].id;
      rest + if Expired(leases[n], now) then [] else [leases[n]]
  }

  predicate Distinct(leases: seq<Lease>) {
    forall i, j :: 0 <= i < j < |leases| ==> leases[i].id != leases[j].id
  }

  function Without(leases: seq<Lease>, id: nat): (r: seq<Lease>)
    ensures forall l :: l in r <==> l in leases && l.id != id
    ensures Distinct(leases) ==> Distinct(r)
  {
    if leases == [] then []
    else
      var n := |leases| - 1;
      Without(leases[..n], id) + if leases[n].id == id then [] else [leases[n]]
  }

  /** Any two leases of the table cover different services. */
  ghost predicate Disjoint(leases: seq<Lease>) {
    forall l, l' :: l in leases && l' in leases && l.id != l'.id ==> Scope(l) !! Scope(l')
  }

  /** The answer fits the table: a refusal names the least service shared with a blocking lease, and a
      grant is given exactly when nothing unexpired overlaps. */
  ghost predicate Answers(leases: seq<Lease>, id: nat, service: string, impacted: set<string>, ttl: int, now: int, a: Answer) {
    var scope := {service} + impacted;
    match a
    case Granted(lease) =>
      && lease == Lease(id, service, scope, now, now + ttl)
      && forall l :: l in leases && !Expired(l, now) ==> Scope(l) !! scope
    case Refused(s, holder) =>
      exists l :: l in leases && !Expired(l, now) && l.id == holder && Text.IsLeast(s, Scope(l) * scope)
  }

  class LockManager {
    var leases: seq<Lease>

    constructor ()
      ensures leases == []
    {
      leases := [];
    }

    method PruneExpired(now: int)
      modifies this
      ensures leases == Pruned(old(leases), now)
    {
      leases := Pruned(leases, now);
    }

    method Acquire(id: nat, service: string, impacted: set<string>, ttl: int, now: int) returns (a: Answer)
      requires Distinct(leases) && Disjoint(leases) && forall l :: l in leases ==> l.id != id
      modifies this
      ensures Answers(old(leases), id, service, impacted, ttl, now, a)
      ensures leases == Pruned(old(leases), now) + if a.Granted? then [a.lease] else []
      ensures Distinct(leases) && Disjoint(leases)
    {
      PruneExpired(now);
      var scope := {service} + impacted;
      for i := 0 to |leases|
        invariant forall j :: 0 <= j < i ==> Scope(leases[j]) * scope == {}
      {
        var overlap := scope * Scope(leases[i]);
        assert Scope(leases[i]) * scope == overlap;
        if overlap != {} {
          var s := Text.Least(overlap);
          assert leases[i] in leases && Scope(leases[i]) * scope == overlap;
          return Refused(s, leases[i].id);
        }
      }
      var lease := Lease(id, service, scope, now, now + ttl);
      forall l | l in leases ensures Scope(l) !! scope {
        var j :| 0 <= j < |leases| && leases[j] == l;
      }
      leases := leases + [lease];
      a := Granted(lease);
    }

    method Release(lease: Lease) returns (held: bool)
      modifies this
      ensures leases == Without(old(leases), lease.id)
      ensures held <==> exists l :: l in old(leases) && l.id == lease.id
      ensures old(Distinct(leases) && Disjoint(leases)) ==> Distinct(leases) && Disjoint(leases)
    {
      held := exists l :: l in leases && l.id == lease.id;
      leases := Without(leases, lease.id);
    }

    method ActiveLeases(now: int) returns (active: seq<Lease>)
      modifies this
      ensures active == leases == Pruned(old(leases), now)
    {
      PruneExpired(now);
      active := leases;
    }
  }

  /** One call on the manager; an acquire names its fresh lease id. */
  datatype Call =
    | Acquiring(id: nat, service: string, impacted: set<string>, ttl: int, now: int)
    | Releasing(lease: Lease)
    | Listing(now: int)

  /** The table and, for the record, every lease ever granted, every id released, and the latest clock. */
  datatype World = World(leases: seq<Lease>, granted: set<Lease>, released: set<nat>, clock: int)

  function Ids(granted: set<Lease>): set<nat> {
    set l | l in granted :: l.id
  }

  /** One legal call under a clock that does not step back. */
  ghost predicate Step(w: World, c: Call, w': World) {
    match c
    case Acquiring(id, service, impacted, ttl, now) =>
      && w.clock <= now && id !in Ids(w.granted) && id !in w.released
      && exists a :: Answers(w.leases, id, service, impacted, ttl, now, a)
           && w' == World(Pruned(w.leases, now) + (if a.Granted? then [a.lease] else []),
                          w.granted + (if a.Granted? then {a.lease} else {}), w.released, now)
    case Releasing(lease) =>
      w' == World(Without(w.leases, lease.id), w.granted, w.released + {lease.id}, w.clock)
    case Listing(now) =>
      w.clock <= now && w' == World(Pruned(w.leases, now), w.granted, w.released, now)
  }

  /** A granted lease is live until it is released or expires. */
  predicate Live(w: World, l: Lease, now: int) {
    l in w.granted && l.id !in w.released && !Expired(l, now)
  }

  ghost predicate Invariant(w: World) {
    && Distinct(w.leases) && Disjoint(w.leases)
    && (forall l :: l in w.leases ==> l in w.granted && l.id !in w.released)
    && (forall l, l' :: l in w.granted && l' in w.granted && l.id == l'.id ==> l == l')
    && (forall l :: Live(w, l, w.clock) ==> l in w.leases)
  }

  lemma StepKeepsInvariant(w: World, c: Call, w': World)
    requires Invariant(w) && Step(w, c, w')
    ensures Invariant(w') && w.clock <= w'.clock
  {
    match c
    case Acquiring(id, service, impacted, ttl, now) =>
      var a :| Answers(w.leases, id, service, impacted, ttl, now, a)
        && w' == World(Pruned(w.leases, now) + (if a.Granted? then [a.lease] else []),
                       w.granted + (if a.Granted? then {a.lease} else {}), w.released, now);
      forall l | Live(w', l, now) ensures l in w'.leases {
        if l in w.granted { assert Live(w, l, w.clock); }
      }
    case Releasing(lease) =>
      forall l | Live(w', l, w'.clock) ensures l in w'.leases { assert Live(w, l, w.clock); }
    case Listing(now) =>
      forall l | Live(w', l, now) ensures l in w'.leases { assert Live(w, l, w.clock); }
  }

  ghost predicate Run(ws: seq<World>, calls: seq<Call>) {
    && |ws| == |calls| + 1
    && ws[0].leases == [] && ws[0].granted == {} && ws[0].released == {}
    && forall i :: 0 <= i < |calls| ==> Step(ws[i], calls[i], ws[i + 1])
  }

  lemma {:induction false} RunKeepsInvariant(ws: seq<World>, calls: seq<Call>, i: nat)
    requires Run(ws, calls) && i < |ws|
    ensures Invariant(ws[i])
  {
    if i > 0 {
      RunKeepsInvariant(ws, calls, i - 1);
      StepKeepsInvariant(ws[i - 1], calls[i - 1], ws[i]);
    }
  }

  /** In every run, at every instant from the last call on, no service is covered by two live leases. */
  lemma NoServiceIsLockedTwice(ws: seq<World>, calls: seq<Call>, i: nat, l: Lease, l': Lease, now: int)
    requires Run(ws, calls) && i < |ws| && ws[i].clock <= now
    requires Live(ws[i], l, now) && Live(ws[i], l', now) && l != l'
    ensures Scope(l) !! Scope(l')
  {
    RunKeepsInvariant(ws, calls, i);
    assert Live(ws[i], l, ws[i].clock) && Live(ws[i], l', ws[i].clock);
  }

  /** A request is refused exactly when an unexpired granted lease that was not released overlaps it. */
  lemma RefusedExactlyWhenLocked(ws: seq<World>, calls: seq<Call>, i: nat, id: nat, service: string,
                                 impacted: set<string>, ttl: int, now: int, a: Answer)
    requires Run(ws, calls) && i < |ws| && ws[i].clock <= now
    requires Answers(ws[i].leases, id, service, impacted, ttl, now, a)
    ensures a.Refused? <==> exists l :: Live(ws[i], l, now) && Scope(l) * ({service} + impacted) != {}
  {
    RunKeepsInvariant(ws, calls, i);
    forall l | Live(ws[i], l, now) ensures l in ws[i].leases { assert Live(ws[i], l, ws[i].clock); }
    match a
    case Granted(_) =>
    case Refused(s, holder) =>
      var l :| l in ws[i].leases && !Expired(l, now) && l.id == holder && Text.IsLeast(s, Scope(l) * ({service} + impacted));
      assert Live(ws[i], l, now) && s in Scope(l) * ({service} + impacted);
  }

  /** The clock must not step back: a lease pruned as expired is live again at an earlier instant, when
      the manager has already granted its service anew. */
  lemma SteppingBackLocksTwice()
    ensures exists w0: World, w1, w2, first: Lease, second: Lease ::
      && Step(w0, Acquiring(1, "api", {}, 10, 0), w1) && Step(w1, Acquiring(2, "api", {}, 10, 10), w2)
      && first != second && Live(w2, first, 5) && Live(w2, second, 5) && !(Scope(first) !! Scope(second))
  {
    var first, second := Lease(1, "api", {"api"}, 0, 10), Lease(2, "api", {"api"}, 10, 20);
    var w0, w1, w2 := World([], {}, {}, 0), World([first], {first}, {}, 0), World([second], {first, second}, {}, 10);
    assert {"api"} + {} == {"api"};
    assert Answers(w0.leases, 1, "api", {}, 10, 0, Granted(first));
    assert Pruned([first], 10) == [];
    assert Answers(w1.leases, 2, "api", {}, 10, 10, Granted(second));
    assert Step(w0, Acquiring(1, "api", {}, 10, 0), w1);
    assert Step(w1, Acquiring(2, "api", {}, 10, 10), w2);
    assert "api" in Scope(first) && "api" in Scope(second);
  }
}
