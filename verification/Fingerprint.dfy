/**
 research/branch.py: the canonical text of a (hypotheses, experiments) path, sort then join.
 The source hashes this text; the hash is taken to be collision-free, so the text stands for it.
 */
module Fingerprint {
  import opened Common

  // ---------------------------------------------------------------- sorting strings

  /** Python's order on strings: by code point, a prefix first. */
  predicate LexLe(a: string, b: string) {
    a == "" || (b != "" && (a[0] < b[0] || (a[0] == b[0] && LexLe(a[1..], b[1..]))))
  }

  lemma {:induction false} LexTotal(a: string, b: string)
    ensures LexLe(a, b) || LexLe(b, a)
  {
    if a != "" && b != "" && a[0] == b[0] { LexTotal(a[1..], b[1..]); }
  }

  lemma {:induction false} LexAntisymmetric(a: string, b: string)
    requires LexLe(a, b) && LexLe(b, a)
    ensures a == b
  {
    if a != "" && b != "" {
      LexAntisymmetric(a[1..], b[1..]);
      assert a == [a[0]] + a[1..] && b == [b[0]] + b[1..];
    }
  }

  lemma {:induction false} LexTransitive(a: string, b: string, c: string)
    requires LexLe(a, b) && LexLe(b, c)
    ensures LexLe(a, c)
  {
    if a != "" && a[0] == b[0] == c[0] { LexTransitive(a[1..], b[1..], c[1..]); }
  }

  /** The order, without recursion: a prefix, or smaller at the first place where the two differ. */
  lemma {:induction false} LexMeans(a: string, b: string)
    ensures LexLe(a, b) <==> a <= b || exists k :: 0 <= k < |a| && k < |b| && a[..k] == b[..k] && a[k] < b[k]
  {
    if a != "" && b != "" {
      if a[0] == b[0] {
        LexMeans(a[1..], b[1..]);
        assert a == [a[0]] + a[1..] && b == [b[0]] + b[1..];
        if k :| 0 <= k < |a[1..]| && k < |b[1..]| && a[1..][..k] == b[1..][..k] && a[1..][k] < b[1..][k] {
          assert a[..k + 1] == [a[0]] + a[1..][..k] && b[..k + 1] == [b[0]] + b[1..][..k];
        }
        if k :| 0 <= k < |a| && k < |b| && a[..k] == b[..k] && a[k] < b[k] {
          assert k > 0 && a[1..][..k - 1] == a[..k][1..] && b[1..][..k - 1] == b[..k][1..];
          assert a[1..][k - 1] < b[1..][k - 1];
        }
      } else if a[0] < b[0] {
        assert a[..0] == b[..0];
      } else if k :| 0 <= k < |a| && k < |b| && a[..k] == b[..k] && a[k] < b[k] {
        assert k == 0 || a[..k][0] == b[..k][0];
      }
    }
  }

  function Insert(x: string, s: seq<string>): seq<string> {
    if s == [] || LexLe(x, s[0]) then [x] + s else [s[0]] + Insert(x, s[1..])
  }

  /** sorted(list). */
  function Sort(s: seq<string>): seq<string> {
    if s == [] then [] else Insert(s[0], Sort(s[1..]))
  }

  ghost predicate Sorted(s: seq<string>) {
    forall i, j :: 0 <= i < j < |s| ==> LexLe(s[i], s[j])
  }

  lemma {:induction false} InsertMembers(x: string, s: seq<string>)
    ensures multiset(Insert(x, s)) == multiset{x} + multiset(s)
  {
    if !(s == [] || LexLe(x, s[0])) {
      InsertMembers(x, s[1..]);
      assert s == [s[0]] + s[1..];
    }
  }

  lemma {:induction false} InsertSorted(x: string, s: seq<string>)
    requires Sorted(s)
    ensures Sorted(Insert(x, s))
  {
    if s == [] {
    } else if LexLe(x, s[0]) {
      forall j | 0 <= j < |s| ensures LexLe(x, s[j]) {
        if j > 0 { LexTransitive(x, s[0], s[j]); }
      }
    } else {
      LexTotal(x, s[0]);
      var t := Insert(x, s[1..]);
      InsertSorted(x, s[1..]);
      InsertMembers(x, s[1..]);
      forall j | 0 <= j < |t| ensures LexLe(s[0], t[j]) {
        assert t[j] in multiset(t);
        if t[j] != x {
          assert t[j] in multiset(s[1..]);
          var k :| 0 <= k < |s[1..]| && s[1..][k] == t[j];
          assert s[k + 1] == t[j];
        }
      }
    }
  }

  lemma {:induction false} InsertKeepsDistinct(x: string, s: seq<string>)
    requires NoDup(s) && x !in s
    ensures NoDup(Insert(x, s))
  {
    if !(s == [] || LexLe(x, s[0])) {
      var t := Insert(x, s[1..]);
      InsertKeepsDistinct(x, s[1..]);
      InsertMembers(x, s[1..]);
      assert s[0] !in s[1..];
      forall j | 0 <= j < |t| ensures t[j] != s[0] {
        assert t[j] in multiset(t);
        assert t[j] == x || t[j] in s[1..];
      }
    }
  }

  lemma {:induction false} SortSorts(s: seq<string>)
    ensures Sorted(Sort(s)) && multiset(Sort(s)) == multiset(s)
  {
    if s != [] {
      SortSorts(s[1..]);
      InsertSorted(s[0], Sort(s[1..]));
      InsertMembers(s[0], Sort(s[1..]));
      assert s == [s[0]] + s[1..];
    }
  }

  lemma FirstIsLeast(a: seq<string>, x: string)
    requires Sorted(a) && x in a
    ensures LexLe(a[0], x)
  {
    LexTotal(a[0], a[0]);
  }

  lemma SameFirst(a: seq<string>, b: seq<string>)
    requires Sorted(a) && Sorted(b) && multiset(a) == multiset(b) && a != [] && b != []
    ensures a[0] == b[0]
  {
    assert a[0] in multiset(b) && b[0] in multiset(a);
    FirstIsLeast(a, b[0]);
    FirstIsLeast(b, a[0]);
    LexAntisymmetric(a[0], b[0]);
  }

  lemma DropFirst(a: seq<string>)
    requires a != []
    ensures multiset(a[1..]) == multiset(a) - multiset{a[0]}
  {
    assert a == [a[0]] + a[1..];
  }

  /** There is only one sorted arrangement. */
  lemma {:induction false} SortedUnique(a: seq<string>, b: seq<string>)
    requires Sorted(a) && Sorted(b) && multiset(a) == multiset(b)
    ensures a == b
  {
    assert |multiset(a)| == |a| && |multiset(b)| == |b|;
    if a != [] {
      SameFirst(a, b);
      DropFirst(a);
      DropFirst(b);
      SortedUnique(a[1..], b[1..]);
      assert a == [a[0]] + a[1..] && b == [b[0]] + b[1..];
    }
  }

  lemma SortIsCanonical(a: seq<string>, b: seq<string>)
    ensures Sort(a) == Sort(b) <==> multiset(a) == multiset(b)
  {
    SortSorts(a);
    SortSorts(b);
    if multiset(a) == multiset(b) { SortedUnique(Sort(a), Sort(b)); }
  }

  // ---------------------------------------------------------------- join and its inverse

  /** "|".join(parts). */
  function Join(parts: seq<string>): string {
    if parts == [] then "" else if |parts| == 1 then parts[0] else parts[0] + "|" + Join(parts[1..])
  }

  /** text.split("|"). */
  function Split(text: string): (parts: seq<string>)
    ensures parts != []
  {
    if text == "" then [""]
    else
      var rest := Split(text[1..]);
      if text[0] == '|' then [""] + rest else [[text[0]] + rest[0]] + rest[1..]
  }

  ghost predicate BarFree(ids: seq<string>) { forall i :: 0 <= i < |ids| ==> '|' !in ids[i] }

  ghost predicate HashFree(ids: seq<string>) { forall i :: 0 <= i < |ids| ==> '#' !in ids[i] }

  lemma {:induction false} SplitFirst(x: string, rest: string)
    requires '|' !in x
    ensures Split(x) == [x]
    ensures Split(x + "|" + rest) == [x] + Split(rest)
  {
    if x == "" {
      assert ("|" + rest)[1..] == rest && "" + "|" + rest == "|" + rest;
    } else {
      SplitFirst(x[1..], rest);
      assert (x + "|" + rest)[1..] == x[1..] + "|" + rest;
      assert x == [x[0]] + x[1..];
    }
  }

  /** Splitting undoes joining, for any non-empty list of texts without bars. */
  lemma {:induction false} SplitJoin(parts: seq<string>)
    requires parts != [] && BarFree(parts)
    ensures Split(Join(parts)) == parts
  {
    if |parts| == 1 {
      SplitFirst(parts[0], "");
    } else {
      SplitFirst(parts[0], Join(parts[1..]));
      SplitJoin(parts[1..]);
    }
  }

  lemma {:induction false} JoinHashFree(parts: seq<string>)
    requires HashFree(parts)
    ensures '#' !in Join(parts)
  {
    if |parts| > 1 { JoinHashFree(parts[1..]); }
  }

  // ---------------------------------------------------------------- the fingerprint

  function Text(hypotheses: seq<string>, experiments: seq<string>): string {
    Join(Sort(hypotheses)) + "#" + Join(Sort(experiments))
  }

  /** The list as a multiset, except that a single empty id counts as no id: both join to the empty text. */
  function Canon(ids: seq<string>): multiset<string> { if ids == [""] then multiset{} else multiset(ids) }

  lemma MembersClean(a: seq<string>)
    ensures BarFree(a) ==> BarFree(Sort(a))
    ensures HashFree(a) ==> HashFree(Sort(a))
  {
    SortSorts(a);
    forall i | 0 <= i < |Sort(a)| ensures exists k :: 0 <= k < |a| && a[k] == Sort(a)[i] {
      assert Sort(a)[i] in multiset(Sort(a));
      assert Sort(a)[i] in a;
    }
  }

  lemma JoinedEmpty(a: seq<string>)
    requires BarFree(a)
    ensures Join(Sort(a)) == "" <==> a == [] || a == [""]
  {
    SortSorts(a);
    assert |Sort(a)| == |multiset(Sort(a))| == |a|;
    if Join(Sort(a)) == "" && a != [] {
      MembersClean(a);
      SplitJoin(Sort(a));
      assert Sort(a)[0] in multiset(a);
    }
  }

  lemma JoinIsCanonical(a: seq<string>, b: seq<string>)
    requires BarFree(a) && BarFree(b)
    ensures Join(Sort(a)) == Join(Sort(b)) <==> Canon(a) == Canon(b)
  {
    SortIsCanonical(a, b);
    JoinedEmpty(a);
    JoinedEmpty(b);
    MembersClean(a);
    MembersClean(b);
    SortSorts(a);
    SortSorts(b);
    assert |multiset(a)| == |a| && |multiset(b)| == |b|;
    if Join(Sort(a)) == Join(Sort(b)) && Join(Sort(a)) != "" {
      SplitJoin(Sort(a));
      SplitJoin(Sort(b));
    }
    if Canon(a) == Canon(b) && a != [""] && b != [""] {
    } else if Canon(a) == Canon(b) {
      assert (a == [] || a == [""]) && (b == [] || b == [""]);
    }
  }

  lemma FirstHashSplits(a: string, b: string, c: string, d: string)
    requires '#' !in a && '#' !in c && a + "#" + b == c + "#" + d
    ensures a == c && b == d
  {
    var s := a + "#" + b;
    assert s[|a|] == '#' && (c + "#" + d)[|c|] == '#';
    assert a == s[..|a|] && c == s[..|c|];
    assert b == s[|a| + 1..] && d == s[|c| + 1..];
  }

  /**
   Exactly which paths share a fingerprint: for ids without bars, and hypothesis ids without '#', the two
   paths that are equal as multisets, up to the empty id.  Experiment ids may contain '#'.
   */
  lemma SameTextSamePath(h: seq<string>, e: seq<string>, h': seq<string>, e': seq<string>)
    requires BarFree(h) && BarFree(e) && BarFree(h') && BarFree(e') && HashFree(h) && HashFree(h')
    ensures Text(h, e) == Text(h', e') <==> Canon(h) == Canon(h') && Canon(e) == Canon(e')
  {
    MembersClean(h);
    MembersClean(h');
    JoinHashFree(Sort(h));
    JoinHashFree(Sort(h'));
    JoinIsCanonical(h, h');
    JoinIsCanonical(e, e');
    if Text(h, e) == Text(h', e') {
      FirstHashSplits(Join(Sort(h)), Join(Sort(e)), Join(Sort(h')), Join(Sort(e')));
    }
  }

  /** Outside that condition paths do get confused: a bar in an id, a '#' in a hypothesis id, the empty id. */
  lemma ConfusedPaths()
    ensures Text(["a|b"], []) == Text(["a", "b"], [])
    ensures Text(["a#b"], [""]) == Text(["a"], ["b#"])
    ensures Text([""], []) == Text([], [])
  {
    assert Sort(["b"]) == ["b"] && LexLe("a", "b");
    assert ["a", "b"][1..] == ["b"];
    assert Sort(["a", "b"]) == ["a", "b"];
    assert Sort(["a|b"]) == ["a|b"] && Sort(["a#b"]) == ["a#b"] && Sort(["a"]) == ["a"] && Sort(["b#"]) == ["b#"];
    assert Sort([""]) == [""];
    assert Join(["a", "b"]) == "a|b";
    assert "a#b" + "#" + "" == "a" + "#" + "b#";
  }

  ghost predicate CleanIds(ids: seq<string>) {
    forall i :: 0 <= i < |ids| ==> ids[i] != "" && '|' !in ids[i] && '#' !in ids[i]
  }

  /** For the ids the program mints, the fingerprint forgets order and nothing else. */
  lemma CleanFingerprint(h: seq<string>, e: seq<string>, h': seq<string>, e': seq<string>)
    requires CleanIds(h) && CleanIds(e) && CleanIds(h') && CleanIds(e')
    ensures Text(h, e) == Text(h', e') <==> multiset(h) == multiset(h') && multiset(e) == multiset(e')
  {
    SameTextSamePath(h, e, h', e');
  }
}
