/** String operations of the Java runtime that the listeners rely on. */
module Text {
  import opened Wrappers

  /** Case folding of one character; only ASCII letters are folded. */
  function Lower(c: char): (d: char)
    ensures 'A' <= c <= 'Z' ==> 'a' <= d <= 'z' && d as int - c as int == 32
    ensures !('A' <= c <= 'Z') ==> d == c
  {
    if 'A' <= c <= 'Z' then (c as int + 32) as char else c
  }

  /** The whole string folded to lower case. */
  function LowerString(s: string): (r: string)
    ensures |r| == |s|
    ensures forall i :: 0 <= i < |s| ==> r[i] == Lower(s[i])
  {
    if s == [] then [] else [Lower(s[0])] + LowerString(s[1..])
  }

  /** Character-wise equality after folding is equality of the folded strings. */
  lemma FoldingAgrees(a: string, b: string)
    ensures (|a| == |b| && forall i :: 0 <= i < |a| ==> Lower(a[i]) == Lower(b[i]))
            <==> LowerString(a) == LowerString(b)
  {
    if LowerString(a) == LowerString(b) {
      forall i | 0 <= i < |a| ensures Lower(a[i]) == Lower(b[i]) {
        assert LowerString(a)[i] == LowerString(b)[i];
      }
    }
  }

  /**
   * `String.equalsIgnoreCase`: same length, and equal character by character after folding;
   * that is, both strings fold to the same lower-case string.
   */
  function EqualsIgnoreCase(a: string, b: string): (r: bool)
    ensures r <==> LowerString(a) == LowerString(b)
  {
    FoldingAgrees(a, b);
    |a| == |b| && forall i :: 0 <= i < |a| ==> Lower(a[i]) == Lower(b[i])
  }

  /** Every string matches itself. */
  lemma EqualsIgnoreCaseReflexive(a: string)
    ensures EqualsIgnoreCase(a, a)
  {
  }

  /** A string with no letters matches only itself: `"{}".equalsIgnoreCase(s)` is `s == "{}"`. */
  lemma BracesMatchOnlyThemselves(s: string)
    ensures EqualsIgnoreCase("{}", s) <==> s == "{}"
  {
    if EqualsIgnoreCase("{}", s) {
      assert Lower(s[0]) == '{' && Lower(s[1]) == '}';
    }
  }

  /** Java's string concatenation of a possibly null reference: null becomes "null". */
  function JavaString(o: Option<string>): (r: string)
    ensures o.Some? ==> r == o.value
    ensures o.None? ==> r == "null"
  {
    match o
    case Some(s) => s
    case None => "null"
  }

  /** `t` holds `s` as a contiguous part. */
  ghost predicate Mentions(t: string, s: string) {
    exists pre: string, post: string :: t == pre + s + post
  }
}
