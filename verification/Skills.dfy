/** skills/registry.py: routing by metadata and the depth-first execution order. */
module Skills {
  import opened Common

  datatype Skill = Skill(name: string, dependencies: seq<string>, technologies: seq<string>,
                         vulnerabilityClasses: seq<string>, provenance: string, trust: real)

  function Names(skills: seq<Skill>): set<string> { set s | s in skills :: s.name }

  ghost predicate DistinctNames(skills: seq<Skill>) {
    forall i, j :: 0 <= i < j < |skills| ==> skills[i].name != skills[j].name
  }

  lemma NamesAppend(skills: seq<Skill>, s: Skill)
    ensures Names(skills + [s]) == Names(skills) + {s.name}
  {
    assert forall t :: t in skills + [s] <==> t in skills || t == s;
    assert s in skills + [s];
    forall n | n in Names(skills) ensures n in Names(skills + [s]) {
      var t :| t in skills && t.name == n;
      assert t in skills + [s];
    }
  }

  // ---------------------------------------------------------------- route

  /** The supply-chain gate: vetted, or written in house. */
  predicate Trusted(s: Skill) { s.trust >= 0.6 || s.provenance == "internal" }

  predicate Relevant(s: Skill, technologies: seq<string>, hint: Option<string>) {
    (s.technologies == [] || exists t :: t in s.technologies && t in technologies)
    && (hint == None || s.vulnerabilityClasses == [] || hint.value in s.vulnerabilityClasses)
  }

  /** The skills that may be routed to, in the order of the registry. */
  function Routed(skills: seq<Skill>, technologies: seq<string>, hint: Option<string>): seq<Skill> {
    if skills == [] then []
    else Routed(Front(skills), technologies, hint)
         + When(Trusted(Last(skills)) && Relevant(Last(skills), technologies, hint), Last(skills))
  }

  lemma {:induction false} RoutedMembers(skills: seq<Skill>, technologies: seq<string>, hint: Option<string>, s: Skill)
    ensures s in Routed(skills, technologies, hint) <==> s in skills && Trusted(s) && Relevant(s, technologies, hint)
    ensures s in Routed(skills, technologies, hint) <==>
            && s in skills && (s.trust >= 0.6 || s.provenance == "internal")
            && (|s.technologies| == 0 || exists i :: 0 <= i < |s.technologies| && s.technologies[i] in technologies)
            && (hint == None || |s.vulnerabilityClasses| == 0 || hint.value in s.vulnerabilityClasses)
  {
    if skills != [] {
      FrontLast(skills);
      RoutedMembers(Front(skills), technologies, hint, s);
    }
  }

  lemma {:induction false} RoutedDistinct(skills: seq<Skill>, technologies: seq<string>, hint: Option<string>)
    requires DistinctNames(skills)
    ensures DistinctNames(Routed(skills, technologies, hint))
  {
    if skills != [] {
      var f, l, before := Front(skills), Last(skills), Routed(Front(skills), technologies, hint);
      RoutedDistinct(f, technologies, hint);
      forall j | 0 <= j < |before| ensures before[j].name != l.name {
        RoutedMembers(f, technologies, hint, before[j]);
        var i :| 0 <= i < |f| && f[i] == before[j];
        assert skills[i] == f[i];
      }
      assert before + [] == before;
    }
  }

  method Route(skills: seq<Skill>, technologies: seq<string>, hint: Option<string>) returns (candidates: seq<Skill>)
    ensures candidates == Routed(skills, technologies, hint)
    ensures forall s :: s in candidates <==> s in skills && Trusted(s) && Relevant(s, technologies, hint)
    ensures DistinctNames(skills) ==> DistinctNames(candidates)
  {
    candidates := [];
    for i := 0 to |skills|
      invariant candidates == Routed(skills[..i], technologies, hint)
    {
      FrontTake(skills, i);
      assert candidates + [] == candidates;
      var relevant, trusted := Relevant(skills[i], technologies, hint), Trusted(skills[i]);
      if relevant && trusted { candidates := candidates + [skills[i]]; }
    }
    assert skills[..|skills|] == skills;
    forall s { RoutedMembers(skills, technologies, hint, s); }
    if DistinctNames(skills) { RoutedDistinct(skills, technologies, hint); }
  }

  // ---------------------------------------------------------------- the dependency graph of a selection

  ghost predicate Edge(selected: seq<Skill>, a: string, b: string) {
    b in Names(selected) && exists s :: s in selected && s.name == a && b in s.dependencies
  }

  ghost predicate Chain(selected: seq<Skill>, p: seq<string>) {
    forall i :: 0 <= i < |p| - 1 ==> Edge(selected, p[i], p[i + 1])
  }

  ghost predicate Cycle(selected: seq<Skill>, p: seq<string>) {
    |p| >= 2 && p[0] == Last(p) && Chain(selected, p)
  }

  ghost predicate Cyclic(selected: seq<Skill>) { exists p :: Cycle(selected, p) }

  /** Every dependency among `names` comes before its dependents. */
  ghost predicate Ordered(order: seq<Skill>, names: set<string>) {
    forall j, d :: 0 <= j < |order| && d in order[j].dependencies && d in names ==> d in Names(order[..j])
  }

  /** Every selected dependency comes before its dependents. */
  ghost predicate Topological(order: seq<Skill>) { Ordered(order, Names(order)) }

  /** by_name: a later skill of the same name replaces an earlier one. */
  function ByName(selected: seq<Skill>): (m: map<string, Skill>)
    ensures m.Keys == Names(selected)
    ensures forall n :: n in m ==> m[n] in selected && m[n].name == n
  {
    if selected == [] then map[]
    else
      FrontLast(selected);
      NamesAppend(Front(selected), Last(selected));
      ByName(Front(selected))[Last(selected).name := Last(selected)]
  }

  lemma {:induction false} LastOfNameWins(selected: seq<Skill>, i: nat)
    requires i < |selected| && forall j :: i < j < |selected| ==> selected[j].name != selected[i].name
    ensures selected[i].name in ByName(selected) && ByName(selected)[selected[i].name] == selected[i]
  {
    if i < |selected| - 1 {
      var f := Front(selected);
      assert forall j :: i < j < |f| ==> f[j] == selected[j];
      LastOfNameWins(f, i);
      assert selected[|selected| - 1].name != selected[i].name;
    }
  }

  // ---------------------------------------------------------------- the depth-first visit

  /** The two variables the nested function `visit` shares with resolve_execution_order. */
  class OrderBuilder {
    const selected: seq<Skill>
    const byName: map<string, Skill>
    var visited: set<string>
    var order: seq<Skill>
    ghost var cycle: seq<string>  // a dependency cycle the visit has run into, or empty

    constructor (selected: seq<Skill>)
      ensures this.selected == selected && byName == ByName(selected)
      ensures visited == {} && order == [] && cycle == []
    {
      this.selected, byName, visited, order, cycle := selected, ByName(selected), {}, [], [];
    }

    /** `stack` names the skills whose visit is still open, outermost first. */
    ghost predicate Valid(stack: seq<string>)
      reads this
    {
      && byName == ByName(selected)
      && DistinctNames(order)
      && visited == Elems(stack) + Names(order)
      && Elems(stack) !! Names(order)
      && visited <= byName.Keys
      && (forall s :: s in order ==> s in selected)
      && (cycle == [] ==> Ordered(order, byName.Keys))
      && (cycle != [] ==> Cycle(selected, cycle))
    }

    /** Visited but not yet emitted means still open, and an edge back to an open skill closes a cycle. */
    ghost function BackEdge(stack: seq<string>, dep: string): (p: seq<string>)
      requires stack != [] && Chain(selected, stack)
      requires Edge(selected, Last(stack), dep) && dep in stack
      ensures Cycle(selected, p)
    {
      var i :| 0 <= i < |stack| && stack[i] == dep;
      var p := stack[i..] + [dep];
      assert forall k :: 0 <= k < |p| - 1 ==> Edge(selected, p[k], p[k + 1]) by {
        forall k | 0 <= k < |p| - 1 ensures Edge(selected, p[k], p[k + 1]) {
          assert p[k] == stack[i + k];
          if k < |p| - 2 { assert Edge(selected, stack[i + k], stack[i + k + 1]); }
        }
      }
      p
    }

    method Visit(skill: Skill, ghost stack: seq<string>)
      requires Valid(stack) && skill in selected
      requires Chain(selected, stack + [skill.name])
      modifies this
      ensures Valid(stack) && skill.name in visited
      ensures old(order) <= order && old(visited) <= visited
      ensures old(cycle) != [] ==> cycle != []
      decreases byName.Keys - visited, 0
    {
      if skill.name in visited { return; }
      visited := visited + {skill.name};
      ghost var open := stack + [skill.name];
      assert Elems(open) == Elems(stack) + {skill.name};
      for i := 0 to |skill.dependencies|
        invariant Valid(open) && old(order) <= order && old(visited) + {skill.name} <= visited
        invariant old(cycle) != [] ==> cycle != []
        invariant cycle == [] ==>
                    forall k :: 0 <= k < i && skill.dependencies[k] in byName ==> skill.dependencies[k] in Names(order)
      {
        var dep := skill.dependencies[i];
        if dep in byName { VisitDependency(skill, dep, open); }
      }
      Emit(skill, stack);
    }

    /** One round of the loop over the dependencies, for a dependency that is selected. */
    method VisitDependency(skill: Skill, dep: string, ghost open: seq<string>)
      requires Valid(open) && skill in selected
      requires open != [] && Last(open) == skill.name && Chain(selected, open)
      requires dep in skill.dependencies && dep in byName
      modifies this
      ensures Valid(open) && old(order) <= order && old(visited) <= visited
      ensures Names(old(order)) <= Names(order)
      ensures old(cycle) != [] ==> cycle != []
      ensures cycle == [] ==> dep in Names(order)
      decreases byName.Keys - visited, 1
    {
      assert Edge(selected, skill.name, dep);
      Visit(byName[dep], open);
      assert Names(old(order)) <= Names(order);
      if cycle == [] && dep !in Names(order) { cycle := BackEdge(open, dep); }
    }

    method Emit(skill: Skill, ghost stack: seq<string>)
      requires Valid(stack + [skill.name]) && skill in selected && skill.name !in stack
      requires cycle == [] ==> forall d :: d in skill.dependencies && d in byName ==> d in Names(order)
      modifies this`order
      ensures order == old(order) + [skill] && Valid(stack)
    {
      ghost var before := order;
      order := order + [skill];
      NamesAppend(before, skill);
      assert Elems(stack + [skill.name]) == Elems(stack) + {skill.name};
      assert forall j :: 0 <= j < |before| ==> order[..j] == before[..j];
      assert order[..|before|] == before;
    }
  }

  /**
   Total on every selection, cyclic or not, with repeated names or not: every selected name comes out
   once.  On distinct names the result is a permutation of the selection, and it is a topological
   order exactly when the selection has one at all, that is, when it has no dependency cycle.
   */
  method ResolveExecutionOrder(selected: seq<Skill>) returns (order: seq<Skill>)
    ensures DistinctNames(order) && Names(order) == Names(selected)
    ensures forall s :: s in order ==> s in selected
    ensures !Cyclic(selected) ==> Topological(order)
    ensures DistinctNames(selected) ==> multiset(order) == multiset(selected)
    ensures DistinctNames(selected) ==> (Topological(order) <==> !Cyclic(selected))
  {
    var b := new OrderBuilder(selected);
    for i := 0 to |selected|
      invariant b.selected == selected && b.Valid([])
      invariant Names(selected[..i]) <= b.visited
    {
      assert selected[..i + 1] == selected[..i] + [selected[i]];
      NamesAppend(selected[..i], selected[i]);
      b.Visit(selected[i], []);
    }
    assert selected[..|selected|] == selected;
    order := b.order;
    OrderFacts(order, selected, b.cycle);
  }

  // ---------------------------------------------------------------- why the order is what it is

  lemma {:induction false} NoDupMultiset<T>(s: seq<T>, x: T)
    requires NoDup(s)
    ensures multiset(s)[x] == if x in s then 1 else 0
  {
    if s != [] {
      NoDupMultiset(Front(s), x);
      FrontLast(s);
    }
  }

  lemma SameNamesPermutation(order: seq<Skill>, selected: seq<Skill>)
    requires DistinctNames(order) && DistinctNames(selected) && Names(order) == Names(selected)
    requires forall s :: s in order ==> s in selected
    ensures multiset(order) == multiset(selected)
  {
    forall s ensures multiset(order)[s] == multiset(selected)[s] {
      if s in selected {
        assert s.name in Names(order);
        var t :| t in order && t.name == s.name;
        var i :| 0 <= i < |selected| && selected[i] == s;
        var k :| 0 <= k < |selected| && selected[k] == t;
      }
      NoDupMultiset(order, s);
      NoDupMultiset(selected, s);
    }
  }

  /** What the finished visit gives: an order without cycle found is topological, and a cycle rules every order out. */
  lemma OrderFacts(order: seq<Skill>, selected: seq<Skill>, cycle: seq<string>)
    requires DistinctNames(order) && Names(order) == Names(selected)
    requires forall s :: s in order ==> s in selected
    requires if cycle == [] then Topological(order) else Cycle(selected, cycle)
    ensures !Cyclic(selected) ==> Topological(order)
    ensures DistinctNames(selected) ==> multiset(order) == multiset(selected)
    ensures DistinctNames(selected) ==> (Topological(order) <==> !Cyclic(selected))
  {
    if DistinctNames(selected) {
      SameNamesPermutation(order, selected);
      if Topological(order) { OrderedIsAcyclic(order, selected); }
    }
  }

  ghost function Position(order: seq<Skill>, name: string): (i: nat)
    requires name in Names(order)
    ensures i < |order| && order[i].name == name
  {
    var s :| s in order && s.name == name;
    var i: nat :| i < |order| && order[i] == s;
    i
  }

  /** In a topological order positions go down along every dependency edge. */
  lemma EdgeDescends(order: seq<Skill>, selected: seq<Skill>, a: string, b: string)
    requires DistinctNames(order) && multiset(order) == multiset(selected) && Topological(order)
    requires Edge(selected, a, b)
    ensures a in Names(order) && b in Names(order) && Position(order, b) < Position(order, a)
  {
    assert forall s :: s in selected <==> s in order by {
      assert forall s :: s in selected <==> s in multiset(selected);
      assert forall s :: s in order <==> s in multiset(order);
    }
    var s :| s in selected && s.name == a && b in s.dependencies;
    var j :| 0 <= j < |order| && order[j] == s;
    var t :| t in selected && t.name == b;
    assert t in order && b in Names(order);
    assert b in order[j].dependencies;
    assert b in Names(order[..j]);
    var u :| u in order[..j] && u.name == b;
    var i :| 0 <= i < j && order[i] == u;
    assert Position(order, a) == j && Position(order, b) == i;
  }

  lemma {:induction false} ChainDescends(order: seq<Skill>, selected: seq<Skill>, p: seq<string>)
    requires DistinctNames(order) && multiset(order) == multiset(selected) && Topological(order)
    requires |p| >= 2 && Chain(selected, p)
    ensures p[0] in Names(order) && Last(p) in Names(order)
    ensures Position(order, Last(p)) < Position(order, p[0])
  {
    EdgeDescends(order, selected, p[0], p[1]);
    if |p| > 2 {
      assert Chain(selected, p[1..]) by {
        forall i | 0 <= i < |p[1..]| - 1 ensures Edge(selected, p[1..][i], p[1..][i + 1]) {
          assert Edge(selected, p[i + 1], p[i + 2]);
        }
      }
      ChainDescends(order, selected, p[1..]);
    }
  }

  /** No permutation of a cyclic selection is a topological order. */
  lemma OrderedIsAcyclic(order: seq<Skill>, selected: seq<Skill>)
    requires DistinctNames(order) && multiset(order) == multiset(selected) && Topological(order)
    ensures !Cyclic(selected)
  {
    if Cyclic(selected) {
      var p :| Cycle(selected, p);
      ChainDescends(order, selected, p);
    }
  }
}
