/** The two operations of Go's `strings` package that the CNAME rewrite relies on. */
module Strings {

  /** `strings.HasSuffix`: `s` ends with `suffix`. */
  predicate HasSuffix(s: string, suffix: string) {
    |suffix| <= |s| && s[|s| - |suffix|..] == suffix
  }

  /** `strings.TrimSuffix`: `s` with one trailing occurrence of `suffix` removed,
      or `s` itself when it does not end with `suffix`. */
  function TrimSuffix(s: string, suffix: string): (r: string)
    ensures HasSuffix(s, suffix) ==> r + suffix == s
    ensures !HasSuffix(s, suffix) ==> r == s
  {
    if HasSuffix(s, suffix) then s[..|s| - |suffix|] else s
  }

  /** Trimming undoes appending: the round trip of `TrimSuffix`. */
  lemma TrimSuffixAppended(s: string, suffix: string)
    ensures TrimSuffix(s + suffix, suffix) == s
  {
  }

  /** Only one occurrence is removed: a name ending in two separators keeps one. */
  lemma TrimSuffixRemovesOnlyOne(s: string, suffix: string)
    ensures TrimSuffix(s + suffix + suffix, suffix) == s + suffix
  {
  }

  /** For the one-character suffix "." trimming is decided by the last character:
      it drops that character when it is '.', and keeps the string otherwise. */
  lemma TrimDot(s: string)
    ensures |s| > 0 && s[|s| - 1] == '.' ==> TrimSuffix(s, ".") == s[..|s| - 1]
    ensures !(|s| > 0 && s[|s| - 1] == '.') ==> TrimSuffix(s, ".") == s
  {
  }
}
