/** Substring, prefix and suffix relations on strings, used to state what a
    built prompt contains. */
module Text {

  /** `s` is the first |s| characters of `t`. */
  predicate IsPrefix(s: string, t: string) {
    |s| <= |t| && t[..|s|] == s
  }

  /** `s` is the last |s| characters of `t`. */
  predicate IsSuffix(s: string, t: string) {
    |s| <= |t| && t[|t| - |s|..] == s
  }

  /** `s` occurs in `t` starting at index `i`. */
  predicate OccursAt(s: string, t: string, i: int) {
    0 <= i <= |t| - |s| && t[i..i + |s|] == s
  }

  /** `s` occurs contiguously somewhere inside `t`. */
  ghost predicate IsSubstring(s: string, t: string) {
    exists i :: OccursAt(s, t, i)
  }

  /** A string surrounded by any text is a substring of the whole. */
  lemma SubstringOfConcat(a: string, s: string, b: string)
    ensures IsSubstring(s, a + s + b)
  {
    var t := a + s + b;
    assert t[|a|..|a| + |s|] == s;
    assert OccursAt(s, t, |a|);
  }

  /** A prefix of a string is also a substring of it. */
  lemma PrefixIsSubstring(s: string, t: string)
    requires IsPrefix(s, t)
    ensures IsSubstring(s, t)
  {
    assert OccursAt(s, t, 0);
  }
}
