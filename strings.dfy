/** String tests used by the static-file handler: the JavaScript methods
    `startsWith`, `endsWith` and `includes` on strings, over `seq<char>`. */
module Strings {

  /** `s.startsWith(p)` */
  predicate StartsWith(s: string, p: string) {
    |p| <= |s| && s[..|p|] == p
  }

  /** `s.endsWith(p)` */
  predicate EndsWith(s: string, p: string) {
    |p| <= |s| && s[|s| - |p|..] == p
  }

  /** "t occurs in s at position i". */
  predicate OccursAt(s: string, t: string, i: int) {
    0 <= i && i + |t| <= |s| && s[i..i + |t|] == t
  }

  /** `s.includes(t)`: `t` occurs somewhere in `s`. */
  predicate Contains(s: string, t: string) {
    exists i | 0 <= i <= |s| - |t| :: OccursAt(s, t, i)
  }

  /** A string never contains a longer one. */
  lemma NotContainsLonger(s: string, t: string)
    requires |s| < |t|
    ensures !Contains(s, t)
  {
  }

  /** A prefix fixes the first characters of the string. */
  lemma StartsWithAt(s: string, p: string, k: nat)
    requires StartsWith(s, p) && k < |p|
    ensures s[k] == p[k]
  {
    assert s[..|p|][k] == s[k];
  }

  /** A suffix fixes the last characters of the string. */
  lemma EndsWithAt(s: string, p: string, k: nat)
    requires EndsWith(s, p) && 0 < k <= |p|
    ensures s[|s| - k] == p[|p| - k]
  {
    assert s[|s| - |p|..][|p| - k] == s[|s| - k];
  }

  /** `t` occurs in `a + t + b` right after `a`. */
  lemma OccursBetween(a: string, t: string, b: string)
    ensures OccursAt(a + t + b, t, |a|)
  {
    assert (a + t + b)[|a|..|a| + |t|] == t;
  }

  /** A string cannot contain a fragment with a character it lacks. */
  lemma NotContainsMissingChar(s: string, t: string, c: char)
    requires c in t && c !in s
    ensures !Contains(s, t)
  {
    forall i | 0 <= i ensures !OccursAt(s, t, i) {
      if i + |t| <= |s| {
        var k :| 0 <= k < |t| && t[k] == c;
        assert s[i..i + |t|][k] == s[i + k];
      }
    }
  }
}
