/** Impact over dependency links: the least set that holds the changed items and is closed under dependents. */
module Reachability {

  datatype Link<T> = Link(dependent: T, on: T)

  ghost predicate Closed<T(!new)>(s: set<T>, links: set<Link<T>>) {
    forall l :: l in links && l.on in s ==> l.dependent in s
  }

  ghost predicate IsImpact<T(!new)>(r: set<T>, changed: set<T>, links: set<Link<T>>) {
    && changed <= r && Closed(r, links)
    && forall s: set<T> :: changed <= s && Closed(s, links) ==> r <= s
  }

  function DependentsOn<T(==)>(links: set<Link<T>>, items: set<T>): set<T> {
    set l | l in links && l.on in items :: l.dependent
  }

  function Dependents<T(==)>(links: set<Link<T>>): set<T> {
    set l | l in links :: l.dependent
  }

  /** All items within reach, one round of dependents after the other. */
  function Impact<T(==)>(changed: set<T>, links: set<Link<T>>): set<T>
    decreases |Dependents(links) - changed|
  {
    var next := changed + DependentsOn(links, changed);
    if next == changed then changed
    else
      RoundsEnd(changed, links);
      Impact(next, links)
  }

  lemma RoundsEnd<T>(changed: set<T>, links: set<Link<T>>)
    requires changed + DependentsOn(links, changed) != changed
    ensures |Dependents(links) - (changed + DependentsOn(links, changed))| < |Dependents(links) - changed|
  {
    var next := changed + DependentsOn(links, changed);
    var before, after := Dependents(links) - changed, Dependents(links) - next;
    var x :| x in next && x !in changed;
    assert x in before && x !in after && after <= before - {x};
    SizeOfSubset(after, before - {x});
  }

  lemma SizeOfSubset<T>(s: set<T>, t: set<T>)
    requires s <= t
    ensures |s| <= |t|
  {
    assert t == s + (t - s);
  }

  /** The rounds compute the least closed set. */
  lemma {:induction false} ImpactIsLeast<T(!new)>(changed: set<T>, links: set<Link<T>>)
    ensures IsImpact(Impact(changed, links), changed, links)
    decreases |Dependents(links) - changed|
  {
    var next := changed + DependentsOn(links, changed);
    if next == changed {
      forall l | l in links && l.on in changed ensures l.dependent in changed {
        assert l.dependent in DependentsOn(links, changed);
      }
    } else {
      RoundsEnd(changed, links);
      ImpactIsLeast(next, links);
      forall s: set<T> | changed <= s && Closed(s, links) ensures Impact(changed, links) <= s {
        assert next <= s;
      }
    }
  }

  /** What a worklist is left with once nothing is pending. */
  lemma ClosedWithinImpact<T(!new)>(seen: set<T>, changed: set<T>, links: set<Link<T>>)
    requires changed <= seen <= Impact(changed, links) && Closed(seen, links)
    ensures seen == Impact(changed, links)
  {
    ImpactIsLeast(changed, links);
  }

  /** More changed items and more links never shrink the impact. */
  lemma ImpactGrows<T(!new)>(changed: set<T>, links: set<Link<T>>, changed': set<T>, links': set<Link<T>>)
    requires changed <= changed' && links <= links'
    ensures Impact(changed, links) <= Impact(changed', links')
  {
    ImpactIsLeast(changed, links);
    ImpactIsLeast(changed', links');
    assert Closed(Impact(changed', links'), links);
  }

  /** `n` links lead from an item of `from` to `x`. */
  ghost predicate Reaches<T(!new)>(from: set<T>, links: set<Link<T>>, x: T, n: nat)
    decreases n
  {
    if n == 0 then x in from else exists l :: l in links && l.dependent == x && Reaches(from, links, l.on, n - 1)
  }

  ghost predicate Reachable<T(!new)>(from: set<T>, links: set<Link<T>>, x: T) {
    exists n: nat :: Reaches(from, links, x, n)
  }

  /** An item is in the impact exactly when some chain of dependencies leads from it to a changed item. */
  lemma ImpactIsReachability<T(!new)>(changed: set<T>, links: set<Link<T>>, x: T)
    ensures x in Impact(changed, links) <==> Reachable(changed, links, x)
  {
    if x in Impact(changed, links) {
      forall y | y in changed ensures Reachable(changed, links, y) {
        assert Reaches(changed, links, y, 0);
      }
      ReachedInRounds(changed, changed, links, x);
    }
    forall n: nat | Reaches(changed, links, x, n) ensures x in Impact(changed, links) {
      ReachingIsImpacted(changed, links, x, n);
    }
  }

  lemma {:induction false} ReachingIsImpacted<T(!new)>(changed: set<T>, links: set<Link<T>>, x: T, n: nat)
    requires Reaches(changed, links, x, n)
    ensures x in Impact(changed, links)
    decreases n
  {
    ImpactIsLeast(changed, links);
    if n > 0 {
      var l :| l in links && l.dependent == x && Reaches(changed, links, l.on, n - 1);
      ReachingIsImpacted(changed, links, l.on, n - 1);
    }
  }

  lemma {:induction false} ReachedInRounds<T(!new)>(origin: set<T>, seen: set<T>, links: set<Link<T>>, x: T)
    requires forall y :: y in seen ==> Reachable(origin, links, y)
    requires x in Impact(seen, links)
    ensures Reachable(origin, links, x)
    decreases |Dependents(links) - seen|
  {
    var next := seen + DependentsOn(links, seen);
    if next == seen {
      assert x in seen;
    } else {
      RoundsEnd(seen, links);
      forall y | y in next ensures Reachable(origin, links, y) {
        if y !in seen {
          var l :| l in links && l.on in seen && l.dependent == y;
          var n: nat :| Reaches(origin, links, l.on, n);
          assert Reaches(origin, links, y, n + 1);
        }
      }
      ReachedInRounds(origin, next, links, x);
    }
  }

  /** A worklist with the items of a set. */
  method Listing<T(==)>(s: set<T>) returns (q: seq<T>)
    ensures forall x :: x in q <==> x in s
  {
    q := [];
    var todo := s;
    while todo != {}
      invariant todo <= s && forall x :: x in q <==> x in s - todo
      decreases |todo|
    {
      var x :| x in todo;
      assert forall y :: y in q + [x] <==> y in q || y == x;
      q, todo := q + [x], todo - {x};
    }
  }

  /** Mark the dependents not seen before, and queue them. */
  method Discover<T(==)>(dependents: set<T>, seen: set<T>, pending: seq<T>) returns (marked: set<T>, queued: seq<T>)
    ensures marked == seen + dependents
    ensures forall x :: x in queued <==> x in pending || x in dependents - seen
    ensures dependents <= seen ==> queued == pending
  {
    marked, queued := seen, pending;
    var todo := dependents;
    while todo != {}
      invariant todo <= dependents && marked == seen + (dependents - todo)
      invariant forall x :: x in queued <==> x in pending || x in dependents - todo - seen
      invariant dependents <= seen ==> queued == pending
      decreases |todo|
    {
      var x :| x in todo;
      todo := todo - {x};
      if x !in marked {
        assert forall y :: y in queued + [x] <==> y in queued || y == x;
        marked, queued := marked + {x}, queued + [x];
      }
    }
  }
}
