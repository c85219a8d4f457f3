/** knowledge/compiler.py: the lineage edges a compile run emits, and the closure over them. */
module Lineage {
  import opened Common

  datatype LineageEdge = LineageEdge(parent: string, child: string, relation: string)

  datatype SourceEntry = SourceEntry(sourceId: string, linked: seq<string>)

  /** `sourceMentions` are the SRC-dddd matches in the record's text, in order. */
  datatype Record = Record(id: string, kind: string, related: seq<string>, sourceMentions: seq<string>)

  // ---------------------------------------------------------------- de-duplication

  /** dict.fromkeys: the first occurrence of each element. */
  function Dedup<T(==)>(s: seq<T>): seq<T> {
    if s == [] then [] else Dedup(Front(s)) + if Last(s) in Front(s) then [] else [Last(s)]
  }

  function FirstIndex<T(==)>(s: seq<T>, x: T): (i: nat)
    requires x in s
    ensures i < |s| && s[i] == x && x !in s[..i]
  {
    if x in Front(s) then
      assert forall k: nat :: k < |s| ==> Front(s)[..k] == s[..k];
      FirstIndex(Front(s), x)
    else
      FrontLast(s);
      |s| - 1
  }

  lemma {:induction false} DedupMember<T>(s: seq<T>, x: T)
    ensures x in Dedup(s) <==> x in s
  {
    if s != [] {
      DedupMember(Front(s), x);
      FrontLast(s);
    }
  }

  /** Survivors keep the order in which they first appeared; in particular no two are equal. */
  lemma {:induction false} DedupKeepsOrder<T>(s: seq<T>, i: nat, j: nat)
    requires i < j < |Dedup(s)|
    ensures Dedup(s)[i] in s && Dedup(s)[j] in s && FirstIndex(s, Dedup(s)[i]) < FirstIndex(s, Dedup(s)[j])
  {
    var u, v := Dedup(s), Dedup(Front(s));
    FrontLast(s);
    assert u[i] == v[i] && v[i] in v;
    DedupMember(Front(s), v[i]);
    if j < |v| {
      assert u[j] == v[j] && v[j] in v;
      DedupMember(Front(s), v[j]);
      DedupKeepsOrder(Front(s), i, j);
    } else {
      assert u[j] == Last(s);
    }
  }

  /** Nothing lost, nothing twice. */
  lemma DedupFacts<T>(s: seq<T>)
    ensures NoDup(Dedup(s)) && Elems(Dedup(s)) == Elems(s)
  {
    forall x ensures x in Dedup(s) <==> x in s { DedupMember(s, x); }
    assert Elems(Dedup(s)) == Elems(s);
    forall i, j | 0 <= i < j < |Dedup(s)| ensures Dedup(s)[i] != Dedup(s)[j] { DedupKeepsOrder(s, i, j); }
  }

  // ---------------------------------------------------------------- the edges of a compile run

  function SourceEdges(src: SourceEntry): seq<LineageEdge> {
    seq(|src.linked|, i requires 0 <= i < |src.linked| => LineageEdge(src.sourceId, src.linked[i], "extracts"))
  }

  function EdgesFrom(parents: seq<string>, child: string, relation: string, prefix: string): seq<LineageEdge> {
    if parents == [] then []
    else EdgesFrom(Front(parents), child, relation, prefix)
         + if prefix <= Last(parents) then [LineageEdge(Last(parents), child, relation)] else []
  }

  function RecordEdges(r: Record): seq<LineageEdge> {
    EdgesFrom(r.related, r.id, "references", "")
    + EdgesFrom(r.sourceMentions, r.id, "derived_from", "")
    + (if r.kind == "procedure" then EdgesFrom(r.related, r.id, "implements", "PAT-") else [])
    + if r.kind == "pattern" then EdgesFrom(r.related, r.id, "generalizes", "CASE-") else []
  }

  function AllEdges(sources: seq<SourceEntry>, records: seq<Record>): seq<LineageEdge> {
    if records != [] then AllEdges(sources, Front(records)) + RecordEdges(Last(records))
    else if sources != [] then AllEdges(Front(sources), []) + SourceEdges(Last(sources))
    else []
  }

  /** Why an edge is there, read off the sources and the records: five relations, each with its direction. */
  ghost predicate Justified(sources: seq<SourceEntry>, records: seq<Record>, e: LineageEdge) {
    || (e.relation == "extracts" && exists s :: s in sources && s.sourceId == e.parent && e.child in s.linked)
    || exists r :: r in records && r.id == e.child && JustifiedBy(r, e)
  }

  predicate JustifiedBy(r: Record, e: LineageEdge) {
    || (e.relation == "references" && e.parent in r.related)
    || (e.relation == "derived_from" && e.parent in r.sourceMentions)
    || (e.relation == "implements" && r.kind == "procedure" && e.parent in r.related && "PAT-" <= e.parent)
    || (e.relation == "generalizes" && r.kind == "pattern" && e.parent in r.related && "CASE-" <= e.parent)
  }

  lemma {:induction false} EdgesFromExactly(parents: seq<string>, child: string, relation: string, prefix: string, e: LineageEdge)
    ensures e in EdgesFrom(parents, child, relation, prefix) <==>
            e.child == child && e.relation == relation && e.parent in parents && prefix <= e.parent
  {
    if parents != [] {
      FrontLast(parents);
      EdgesFromExactly(Front(parents), child, relation, prefix, e);
    }
  }

  lemma RecordEdgesExactly(r: Record, e: LineageEdge)
    ensures e in RecordEdges(r) <==> e.child == r.id && JustifiedBy(r, e)
  {
    EdgesFromExactly(r.related, r.id, "references", "", e);
    EdgesFromExactly(r.sourceMentions, r.id, "derived_from", "", e);
    EdgesFromExactly(r.related, r.id, "implements", "PAT-", e);
    EdgesFromExactly(r.related, r.id, "generalizes", "CASE-", e);
    assert "implements" != "generalizes" && "references" != "derived_from";
  }

  lemma SourceEdgesExactly(src: SourceEntry, e: LineageEdge)
    ensures e in SourceEdges(src) <==> e.relation == "extracts" && e.parent == src.sourceId && e.child in src.linked
  {
    if e.relation == "extracts" && e.parent == src.sourceId && e.child in src.linked {
      var i :| 0 <= i < |src.linked| && src.linked[i] == e.child;
      assert SourceEdges(src)[i] == e;
    }
  }

  /** A compile run emits every justified edge and no other. */
  lemma {:induction false} EdgesExactly(sources: seq<SourceEntry>, records: seq<Record>, e: LineageEdge)
    ensures e in AllEdges(sources, records) <==> Justified(sources, records, e)
    decreases |sources| + |records|
  {
    if records != [] {
      FrontLast(records);
      EdgesExactly(sources, Front(records), e);
      RecordEdgesExactly(Last(records), e);
      JustifiedGrows(sources, Front(records), Last(records), e);
    } else if sources != [] {
      FrontLast(sources);
      EdgesExactly(Front(sources), [], e);
      SourceEdgesExactly(Last(sources), e);
      assert forall s :: s in sources <==> s in Front(sources) || s == Last(sources);
    }
  }

  lemma JustifiedGrows(sources: seq<SourceEntry>, records: seq<Record>, r: Record, e: LineageEdge)
    ensures Justified(sources, records + [r], e) <==>
            Justified(sources, records, e) || (r.id == e.child && JustifiedBy(r, e))
  {
    assert forall x :: x in records + [r] <==> x in records || x == r;
  }

  method Compile(sources: seq<SourceEntry>, records: seq<Record>) returns (unique: seq<LineageEdge>)
    ensures unique == Dedup(AllEdges(sources, records))
  {
    var edges: seq<LineageEdge> := [];
    for i := 0 to |sources|
      invariant edges == AllEdges(sources[..i], [])
    {
      FrontTake(sources, i);
      edges := edges + SourceEdges(sources[i]);
    }
    assert sources[..|sources|] == sources;
    for i := 0 to |records|
      invariant edges == AllEdges(sources, records[..i])
    {
      FrontTake(records, i);
      edges := edges + RecordEdges(records[i]);
    }
    assert records[..|records|] == records;
    unique := FirstOccurrences(edges);
  }

  /** The loop over `seen` and `unique`. */
  method FirstOccurrences(edges: seq<LineageEdge>) returns (unique: seq<LineageEdge>)
    ensures unique == Dedup(edges)
  {
    var seen: set<LineageEdge> := {};
    unique := [];
    for i := 0 to |edges|
      invariant unique == Dedup(edges[..i]) && seen == Elems(edges[..i])
    {
      FrontTake(edges, i);
      assert edges[..i + 1] == edges[..i] + [edges[i]];
      assert Dedup(edges[..i + 1]) == if edges[i] in seen then unique else unique + [edges[i]];
      if edges[i] !in seen { seen, unique := seen + {edges[i]}, unique + [edges[i]]; }
    }
    assert edges[..|edges|] == edges;
  }

  // ---------------------------------------------------------------- ancestors

  function Parents(edges: seq<LineageEdge>, id: string): set<string> {
    set e | e in edges && e.child == id :: e.parent
  }

  /** A walk from a record up through parents. */
  ghost predicate Walk(edges: seq<LineageEdge>, p: seq<string>) {
    p != [] && forall i :: 0 <= i < |p| - 1 ==> p[i + 1] in Parents(edges, p[i])
  }

  ghost predicate IsAncestor(edges: seq<LineageEdge>, a: string, id: string) {
    exists p :: Walk(edges, p) && |p| >= 2 && p[0] == id && Last(p) == a
  }

  function AllParents(edges: seq<LineageEdge>): set<string> { set e | e in edges :: e.parent }

  /** The transitive closure of Parents. */
  ghost function AncestorSet(edges: seq<LineageEdge>, id: string): set<string> {
    set a | a in AllParents(edges) && IsAncestor(edges, a, id)
  }

  ghost predicate AcyclicAbove(edges: seq<LineageEdge>, id: string) {
    !IsAncestor(edges, id, id) && forall a :: IsAncestor(edges, a, id) ==> !IsAncestor(edges, a, a)
  }

  lemma JoinWalks(edges: seq<LineageEdge>, p: seq<string>, q: seq<string>)
    requires Walk(edges, p) && Walk(edges, q) && Last(p) == q[0]
    ensures Walk(edges, p + q[1..]) && Last(p + q[1..]) == Last(q) && (p + q[1..])[0] == p[0]
  {
    var r := p + q[1..];
    forall i | 0 <= i < |r| - 1 ensures r[i + 1] in Parents(edges, r[i]) {
      if i < |p| - 1 {
      } else {
        assert r[i] == q[i - |p| + 1] && r[i + 1] == q[i - |p| + 2];
      }
    }
  }

  lemma AncestorTransitive(edges: seq<LineageEdge>, a: string, b: string, c: string)
    requires IsAncestor(edges, a, b) && IsAncestor(edges, b, c)
    ensures IsAncestor(edges, a, c)
  {
    var p :| Walk(edges, p) && |p| >= 2 && p[0] == b && Last(p) == a;
    var q :| Walk(edges, q) && |q| >= 2 && q[0] == c && Last(q) == b;
    JoinWalks(edges, q, p);
  }

  lemma ParentIsAncestor(edges: seq<LineageEdge>, p: string, id: string)
    requires p in Parents(edges, id)
    ensures IsAncestor(edges, p, id)
  {
    assert Walk(edges, [id, p]) && Last([id, p]) == p;
  }

  lemma AncestorIsParent(edges: seq<LineageEdge>, a: string, id: string)
    requires IsAncestor(edges, a, id)
    ensures a in AllParents(edges)
    ensures exists p :: p in Parents(edges, id) && (a == p || IsAncestor(edges, a, p))
  {
    var w :| Walk(edges, w) && |w| >= 2 && w[0] == id && Last(w) == a;
    assert w[|w| - 2 + 1] in Parents(edges, w[|w| - 2]);
    assert w[0 + 1] in Parents(edges, w[0]);
    if |w| > 2 {
      assert Walk(edges, w[1..]) by {
        forall i | 0 <= i < |w[1..]| - 1 ensures w[1..][i + 1] in Parents(edges, w[1..][i]) {
          assert w[(i + 1) + 1] in Parents(edges, w[i + 1]);
        }
      }
    }
  }

  /** One level of the closure, and why the recursion goes down where there is no cycle. */
  lemma ClosureStep(edges: seq<LineageEdge>, id: string, p: string)
    requires p in Parents(edges, id) && AcyclicAbove(edges, id)
    ensures AcyclicAbove(edges, p)
    ensures p in AncestorSet(edges, id) && AncestorSet(edges, p) < AncestorSet(edges, id)
  {
    ParentIsAncestor(edges, p, id);
    AncestorIsParent(edges, p, id);
    forall a | IsAncestor(edges, a, p) ensures IsAncestor(edges, a, id) { AncestorTransitive(edges, a, p, id); }
    assert p !in AncestorSet(edges, p);
  }

  lemma ClosureUnfolds(edges: seq<LineageEdge>, id: string, a: string)
    requires a in AncestorSet(edges, id)
    ensures a in Parents(edges, id) || exists p :: p in Parents(edges, id) && a in AncestorSet(edges, p)
  {
    AncestorIsParent(edges, a, id);
  }

  /** list(set): the elements in an order nobody promises. */
  method ListOf(s: set<string>) returns (out: seq<string>)
    ensures Elems(out) == s && NoDup(out)
  {
    out := [];
    var rest := s;
    while rest != {}
      invariant rest <= s && Elems(out) == s - rest && NoDup(out)
    {
      var x :| x in rest;
      assert x !in Elems(out);
      assert Elems(out + [x]) == Elems(out) + {x};
      out, rest := out + [x], rest - {x};
    }
  }

  /** Unmemoised recursion; on a graph without a cycle above the record it returns the closure, each ancestor once. */
  method Ancestors(edges: seq<LineageEdge>, id: string) returns (out: seq<string>)
    requires AcyclicAbove(edges, id)
    ensures NoDup(out) && Elems(out) == AncestorSet(edges, id)
    decreases AncestorSet(edges, id)
  {
    var parents := ListOf(Parents(edges, id));
    out := parents;
    for i := 0 to |parents|
      invariant Elems(parents) <= Elems(out) <= Elems(parents) + AncestorSet(edges, id)
      invariant forall k :: 0 <= k < i ==> AncestorSet(edges, parents[k]) <= Elems(out)
    {
      assert parents[i] in Elems(parents);
      ClosureStep(edges, id, parents[i]);
      var more := Ancestors(edges, parents[i]);
      assert Elems(out + more) == Elems(out) + Elems(more);
      out := out + more;
    }
    forall a | a in Elems(parents) ensures a in AncestorSet(edges, id) { ClosureStep(edges, id, a); }
    forall a | a in AncestorSet(edges, id) ensures a in Elems(out) {
      ClosureUnfolds(edges, id, a);
      if a !in Elems(parents) {
        var p :| p in Parents(edges, id) && a in AncestorSet(edges, p);
        assert p in Elems(parents);
        var k :| 0 <= k < |parents| && parents[k] == p;
      }
    }
    DedupFacts(out);
    out := Dedup(out);
  }

  method LineageFor(edges: seq<LineageEdge>, id: string) returns (chain: seq<string>)
    requires AcyclicAbove(edges, id)
    ensures chain != [] && chain[0] == id && NoDup(chain)
    ensures Elems(chain) == {id} + AncestorSet(edges, id)
  {
    var above := Ancestors(edges, id);
    chain := [id] + above;
    assert id !in Elems(above);
    assert forall i :: 1 <= i < |chain| ==> chain[i] == above[i - 1] && above[i - 1] in Elems(above);
    assert forall x :: x in chain <==> x == id || x in above;
  }

  // ---------------------------------------------------------------- exactly when the recursion ends

  /** The recursion on `id` reaches depth n: n nested calls, each on a parent of the one before. */
  ghost predicate ReachesDepth(edges: seq<LineageEdge>, id: string, n: nat) {
    exists p :: Walk(edges, p) && p[0] == id && |p| == n + 1
  }

  lemma {:induction false} DepthBounded(edges: seq<LineageEdge>, p: seq<string>)
    requires Walk(edges, p) && AcyclicAbove(edges, p[0])
    ensures |p| - 1 <= |AncestorSet(edges, p[0])|
  {
    if |p| >= 2 {
      assert p[0 + 1] in Parents(edges, p[0]);
      ClosureStep(edges, p[0], p[1]);
      assert Walk(edges, p[1..]) by {
        forall i | 0 <= i < |p[1..]| - 1 ensures p[1..][i + 1] in Parents(edges, p[1..][i]) {
          assert p[(i + 1) + 1] in Parents(edges, p[i + 1]);
        }
      }
      DepthBounded(edges, p[1..]);
      ProperSubsetSmaller(AncestorSet(edges, p[1]), AncestorSet(edges, p[0]));
    }
  }

  lemma ProperSubsetSmaller<T>(a: set<T>, b: set<T>)
    requires a < b
    ensures |a| < |b|
  {
    assert b == a + (b - a);
    assert b - a != {};
  }

  /** Going round a cycle again and again. */
  lemma {:induction false} Pump(edges: seq<LineageEdge>, start: seq<string>, loop: seq<string>, n: nat)
      returns (p: seq<string>)
    requires Walk(edges, start) && Walk(edges, loop) && |loop| >= 2 && loop[0] == Last(loop) == Last(start)
    ensures Walk(edges, p) && p[0] == start[0] && Last(p) == Last(start) && |p| >= n + 1
  {
    if n == 0 {
      p := start;
    } else {
      var q := Pump(edges, start, loop, n - 1);
      JoinWalks(edges, q, loop);
      p := q + loop[1..];
    }
  }

  lemma ShortenWalk(edges: seq<LineageEdge>, p: seq<string>, n: nat)
    requires Walk(edges, p) && n < |p|
    ensures Walk(edges, p[..n + 1])
  {
    var q := p[..n + 1];
    forall i | 0 <= i < |q| - 1 ensures q[i + 1] in Parents(edges, q[i]) {
      assert q[i] == p[i] && p[i + 1] in Parents(edges, p[i]);
    }
  }

  /** The precondition of Ancestors is exact: without it the recursion goes deeper than any bound. */
  lemma EndsExactlyWithoutCycle(edges: seq<LineageEdge>, id: string)
    ensures AcyclicAbove(edges, id) <==> exists bound: nat :: !ReachesDepth(edges, id, bound)
  {
    if AcyclicAbove(edges, id) {
      var bound := |AncestorSet(edges, id)| + 1;
      if ReachesDepth(edges, id, bound) {
        var p :| Walk(edges, p) && p[0] == id && |p| == bound + 1;
        DepthBounded(edges, p);
      }
      assert !ReachesDepth(edges, id, bound);
    } else {
      var start := CycleAbove(edges, id);
      var loop :| Walk(edges, loop) && |loop| >= 2 && loop[0] == Last(start) && Last(loop) == Last(start);
      forall n: nat ensures ReachesDepth(edges, id, n) {
        var p := Pump(edges, start, loop, n);
        ShortenWalk(edges, p, n);
        assert |p[..n + 1]| == n + 1 && p[..n + 1][0] == id;
      }
    }
  }

  lemma CycleAbove(edges: seq<LineageEdge>, id: string) returns (start: seq<string>)
    requires !AcyclicAbove(edges, id)
    ensures Walk(edges, start) && start[0] == id && IsAncestor(edges, Last(start), Last(start))
  {
    if IsAncestor(edges, id, id) {
      start := [id];
      assert Last(start) == id;
    } else {
      var a :| IsAncestor(edges, a, id) && IsAncestor(edges, a, a);
      start :| Walk(edges, start) && |start| >= 2 && start[0] == id && Last(start) == a;
    }
  }

  // ---------------------------------------------------------------- compile does not guarantee it

  lemma {:induction false} EdgesFromHas(parents: seq<string>, child: string, relation: string, p: string)
    requires p in parents
    ensures LineageEdge(p, child, relation) in EdgesFrom(parents, child, relation, "")
  {
    FrontLast(parents);
    if p in Front(parents) { EdgesFromHas(Front(parents), child, relation, p); }
  }

  lemma {:induction false} RelatedEdgeEmitted(sources: seq<SourceEntry>, records: seq<Record>, r: Record, p: string)
    requires r in records && p in r.related
    ensures LineageEdge(p, r.id, "references") in AllEdges(sources, records)
  {
    FrontLast(records);
    if r == Last(records) {
      EdgesFromHas(r.related, r.id, "references", p);
    } else {
      RelatedEdgeEmitted(sources, Front(records), r, p);
    }
  }

  /** Two records that list each other as related give edges both ways, so ancestors never returns on either. */
  lemma MutualReferenceDiverges(sources: seq<SourceEntry>, records: seq<Record>, r: Record, s: Record)
    requires r in records && s in records && s.id in r.related && r.id in s.related
    ensures !AcyclicAbove(Dedup(AllEdges(sources, records)), r.id)
  {
    var edges := Dedup(AllEdges(sources, records));
    RelatedEdgeEmitted(sources, records, r, s.id);
    RelatedEdgeEmitted(sources, records, s, r.id);
    DedupFacts(AllEdges(sources, records));
    assert forall e :: e in edges <==> e in Elems(edges);
    var up, down := LineageEdge(s.id, r.id, "references"), LineageEdge(r.id, s.id, "references");
    assert up in Elems(AllEdges(sources, records)) && down in Elems(AllEdges(sources, records));
    assert up in edges && down in edges;
    ParentIsAncestor(edges, s.id, r.id);
    ParentIsAncestor(edges, r.id, s.id);
    AncestorTransitive(edges, r.id, s.id, r.id);
  }
}
