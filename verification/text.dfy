/**
 ASCII text helpers shared by the role-name checks and the attachment-name test:
 lower-casing, substring search and suffix test over `string` (= `seq<char>`).
 Only the ASCII letters A-Z are folded; every other character is left alone.
 */
module Text {

  /** Lower-cases one ASCII upper-case letter; any other character is unchanged. */
  function LowerChar(c: char): char {
    if 'A' <= c <= 'Z' then (c as int + 32) as char else c
  }

  /** Character-wise ASCII lower-casing. */
  function Lower(s: string): (r: string)
    ensures |r| == |s|
    ensures forall i :: 0 <= i < |s| ==> r[i] == LowerChar(s[i])
  {
    seq(|s|, i requires 0 <= i < |s| => LowerChar(s[i]))
  }

  /** True iff `p` occurs in `s` as a contiguous substring. */
  predicate Contains(s: string, p: string) {
    exists i :: 0 <= i <= |s| && p <= s[i..]
  }

  /** True iff `s` ends with `suffix`. */
  predicate EndsWith(s: string, suffix: string) {
    |suffix| <= |s| && s[|s| - |suffix|..] == suffix
  }

  /** Lower-casing commutes with taking a suffix. */
  lemma LowerSuffix(s: string, k: nat)
    requires k <= |s|
    ensures Lower(s)[k..] == Lower(s[k..])
  {
  }

  /** A needle longer than the haystack never occurs in it. */
  lemma TooLongNotContained(s: string, p: string)
    requires |s| < |p|
    ensures !Contains(s, p)
  {
  }
}
