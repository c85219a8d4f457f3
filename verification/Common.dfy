/** Small helpers shared by the other modules. */
module Common {

  datatype Option<+T> = None | Some(value: T)
  {
    function GetOr(default: T): T { if Some? then value else default }
  }

  function Min(a: int, b: int): int { if a <= b then a else b }

  function Max(a: int, b: int): int { if a >= b then a else b }

  /** No element occurs twice. */
  ghost predicate NoDup<T>(s: seq<T>) {
    forall i, j :: 0 <= i < j < |s| ==> s[i] != s[j]
  }

  ghost function Elems<T>(s: seq<T>): set<T> { set x | x in s }

  function Front<T>(s: seq<T>): seq<T> requires s != [] { s[..|s| - 1] }

  function Last<T>(s: seq<T>): T requires s != [] { s[|s| - 1] }

  /** The element, if the condition holds. */
  function When<T>(b: bool, x: T): (s: seq<T>)
    ensures s == [] <==> !b
  {
    if b then [x] else []
  }

  lemma FrontLast<T>(s: seq<T>)
    requires s != []
    ensures s == Front(s) + [Last(s)]
  {}

  lemma FrontAppend<T>(s: seq<T>, x: T)
    ensures Front(s + [x]) == s && Last(s + [x]) == x
  {}

  lemma FrontConcat<T>(a: seq<T>, b: seq<T>)
    requires b != []
    ensures Front(a + b) == a + Front(b) && Last(a + b) == Last(b)
  {}

  lemma FrontTake<T>(s: seq<T>, i: nat)
    requires i < |s|
    ensures Front(s[..i + 1]) == s[..i] && Last(s[..i + 1]) == s[i]
  {}

  /** ASCII part of Python's str.lower. */
  function LowerChar(c: char): char {
    if 'A' <= c <= 'Z' then (c as int + 32) as char else c
  }

  function Lower(s: string): string {
    seq(|s|, i requires 0 <= i < |s| => LowerChar(s[i]))
  }

  /** The ASCII characters that str.strip removes. */
  predicate IsSpace(c: char) {
    c == ' ' || '\t' <= c <= '\r' || (28 <= c as int <= 31)
  }

  /** Python's `not s or not s.strip()`. */
  predicate Blank(s: string) {
    forall i :: 0 <= i < |s| ==> IsSpace(s[i])
  }

  /** Python's `needle in hay`. */
  predicate Contains(needle: string, hay: string) {
    exists k {:trigger hay[k..]} :: 0 <= k <= |hay| && needle <= hay[k..]
  }

  /** Substring, said without positions. */
  lemma ContainsMeans(needle: string, hay: string)
    ensures Contains(needle, hay) <==> exists before, after :: hay == before + needle + after
  {
    if k :| 0 <= k <= |hay| && needle <= hay[k..] {
      assert hay == hay[..k] + needle + hay[k + |needle|..];
    }
    if before, after :| hay == before + needle + after {
      assert needle <= hay[|before|..];
    }
  }

  /** Lower case keeps the length, changes the capital letters A to Z and nothing else, and is stable. */
  lemma LowerMeans(s: string)
    ensures |Lower(s)| == |s| && Lower(Lower(s)) == Lower(s)
    ensures forall i :: 0 <= i < |s| ==>
              (if s[i] in "ABCDEFGHIJKLMNOPQRSTUVWXYZ" then Lower(s)[i] as int - 'a' as int == s[i] as int - 'A' as int
               else Lower(s)[i] == s[i])
  {
    forall i | 0 <= i < |s| ensures s[i] in "ABCDEFGHIJKLMNOPQRSTUVWXYZ" <==> 'A' <= s[i] <= 'Z' { CapitalLetters(s[i]); }
  }

  lemma CapitalLetters(c: char)
    ensures c in "ABCDEFGHIJKLMNOPQRSTUVWXYZ" <==> 'A' <= c <= 'Z'
  {
    var letters := "ABCDEFGHIJKLMNOPQRSTUVWXYZ";
    if 'A' <= c <= 'Z' { assert letters[c as int - 'A' as int] == c; }
  }
}
