/** The service graph of the risk assessment, and its stack-based traversals. */
module ServiceGraph {
  import opened Reachability

  datatype Node = Node(name: string, tier: int, dependencies: seq<string>)

  function Dependencies(nodes: map<string, Node>): set<Link<string>> {
    set k, d | k in nodes && d in nodes[k].dependencies :: Link(nodes[k].name, d)
  }

  function Direct(reverse: map<string, set<string>>, on: string): set<string> {
    if on in reverse then reverse[on] else {}
  }

  ghost predicate IsMaxTier(nodes: map<string, Node>, services: set<string>, t: int) {
    if forall s :: s in services ==> s !in nodes then t == 3
    else (exists s :: s in services && s in nodes && nodes[s].tier == t)
         && forall s :: s in services && s in nodes ==> t <= nodes[s].tier
  }

  /** The names of the nodes among `done` that depend on `d`. */
  function Dependers(nodes: map<string, Node>, done: set<string>, d: string): set<string>
    requires done <= nodes.Keys
  {
    set k | k in done && d in nodes[k].dependencies :: nodes[k].name
  }

  lemma DependersOneMore(nodes: map<string, Node>, done: set<string>, k: string, d: string)
    requires done <= nodes.Keys && k in nodes
    ensures Dependers(nodes, done + {k}, d)
         == Dependers(nodes, done, d) + if d in nodes[k].dependencies then {nodes[k].name} else {}
  {
  }

  lemma DependersAll(nodes: map<string, Node>, d: string)
    ensures Dependers(nodes, nodes.Keys, d) == DependentsOn(Dependencies(nodes), {d})
  {
    forall k | k in nodes && d in nodes[k].dependencies ensures nodes[k].name in DependentsOn(Dependencies(nodes), {d}) {
      assert Link(nodes[k].name, d) in Dependencies(nodes);
    }
  }

  method Indexed(before: map<string, set<string>>, node: Node) returns (reverse: map<string, set<string>>)
    ensures forall d :: Direct(reverse, d) == Direct(before, d) + if d in node.dependencies then {node.name} else {}
  {
    reverse := before;
    for i := 0 to |node.dependencies|
      invariant forall d :: Direct(reverse, d) == Direct(before, d) + if d in node.dependencies[..i] then {node.name} else {}
    {
      var d := node.dependencies[i];
      reverse := reverse[d := Direct(reverse, d) + {node.name}];
    }
  }

  class ServiceGraph {
    var nodes: map<string, Node>

    constructor ()
      ensures nodes == map[]
    {
      nodes := map[];
    }

    method Add(node: Node)
      modifies this
      ensures nodes == old(nodes)[node.name := node]
    {
      nodes := nodes[node.name := node];
    }

    ghost function Links(): set<Link<string>>
      reads this
    {
      Dependencies(nodes)
    }

    /** Index the nodes by what they depend on. */
    method Reverse() returns (reverse: map<string, set<string>>)
      ensures forall d :: Direct(reverse, d) == DependentsOn(Links(), {d})
    {
      reverse := map[];
      var todo := nodes.Keys;
      while todo != {}
        invariant todo <= nodes.Keys
        invariant forall d :: Direct(reverse, d) == Dependers(nodes, nodes.Keys - todo, d)
        decreases |todo|
      {
        var k :| k in todo;
        reverse := Indexed(reverse, nodes[k]);
        forall d ensures Dependers(nodes, nodes.Keys - (todo - {k}), d)
                      == Dependers(nodes, nodes.Keys - todo, d) + if d in nodes[k].dependencies then {nodes[k].name} else {}
        {
          DependersOneMore(nodes, nodes.Keys - todo, k, d);
          assert nodes.Keys - (todo - {k}) == (nodes.Keys - todo) + {k};
        }
        todo := todo - {k};
      }
      forall d ensures Direct(reverse, d) == DependentsOn(Links(), {d}) {
        assert nodes.Keys - {} == nodes.Keys;
        DependersAll(nodes, d);
      }
    }

    /** Everything that depends on a service through at least one dependency; itself too when it is on a cycle. */
    method DependentsOf(service: string) returns (seen: set<string>)
      ensures seen == Impact(DependentsOn(Links(), {service}), Links())
    {
      ghost var direct, bound := DependentsOn(Links(), {service}), Impact(DependentsOn(Links(), {service}), Links());
      ImpactIsLeast(direct, Links());
      var reverse := Reverse();
      seen := {};
      var stack := Listing(Direct(reverse, service));
      while stack != []
        invariant seen <= bound && (forall x :: x in stack ==> x in bound)
        invariant forall x :: x in direct ==> x in seen || x in stack
        invariant forall l :: l in Links() && l.on in seen ==> l.dependent in seen || l.dependent in stack
        decreases bound - seen, |stack|
      {
        ghost var pending := stack;
        var current := stack[|stack| - 1];
        stack := stack[..|stack| - 1];
        assert forall x :: x in pending ==> x == current || x in stack;
        if current in seen { continue; }
        seen := seen + {current};
        var more := Listing(Direct(reverse, current) - seen);
        forall l | l in Links() && l.on == current ensures l.dependent in Direct(reverse, current) {
          assert l.dependent in DependentsOn(Links(), {current});
        }
        stack := stack + more;
      }
      ClosedWithinImpact(seen, direct, Links());
    }

    method BlastRadius(changed: set<string>) returns (impacted: set<string>)
      ensures impacted == Impact(changed, Links())
    {
      impacted := changed;
      var todo := changed;
      ImpactIsLeast(changed, Links());
      while todo != {}
        invariant todo <= changed <= impacted <= Impact(changed, Links())
        invariant forall s :: s in changed - todo ==> Impact(DependentsOn(Links(), {s}), Links()) <= impacted
        invariant forall x :: x in impacted && x !in changed ==> exists s :: s in changed && x in Impact(DependentsOn(Links(), {s}), Links())
        decreases |todo|
      {
        var s :| s in todo;
        var dependents := DependentsOf(s);
        ImpactIsLeast(DependentsOn(Links(), {s}), Links());
        impacted := impacted + dependents;
        todo := todo - {s};
      }
      ImpactFromEach(changed, impacted, Links());
    }

    /** The lowest tier number among known services, the default tier when none is known. */
    method MaxTier(services: set<string>) returns (tier: int)
      ensures IsMaxTier(nodes, services, tier)
    {
      var todo := set s | s in services && s in nodes;
      assert forall s :: s in services && s in nodes ==> s in todo;
      if todo == {} { return 3; }
      var first :| first in todo;
      tier := nodes[first].tier;
      todo := todo - {first};
      while todo != {}
        invariant forall s :: s in todo ==> s in services && s in nodes
        invariant exists s :: s in services && s in nodes && nodes[s].tier == tier
        invariant forall s :: s in services && s in nodes && s !in todo ==> tier <= nodes[s].tier
        decreases |todo|
      {
        var s :| s in todo;
        if nodes[s].tier < tier { tier := nodes[s].tier; }
        todo := todo - {s};
      }
    }
  }

  /** Changed services with the closures of their direct dependents make up the whole impact. */
  lemma ImpactFromEach(changed: set<string>, impacted: set<string>, links: set<Link<string>>)
    requires changed <= impacted <= Impact(changed, links)
    requires forall s :: s in changed ==> Impact(DependentsOn(links, {s}), links) <= impacted
    requires forall x :: x in impacted && x !in changed ==> exists s :: s in changed && x in Impact(DependentsOn(links, {s}), links)
    ensures impacted == Impact(changed, links)
  {
    forall l | l in links && l.on in impacted ensures l.dependent in impacted {
      if l.on in changed {
        ImpactIsLeast(DependentsOn(links, {l.on}), links);
        assert l.dependent in DependentsOn(links, {l.on});
      } else {
        var s :| s in changed && l.on in Impact(DependentsOn(links, {s}), links);
        ImpactIsLeast(DependentsOn(links, {s}), links);
      }
    }
    ClosedWithinImpact(impacted, changed, links);
  }
}
