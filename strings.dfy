/**
 The two JavaScript string operations the proxy relies on: `startsWith` and
 `replace` with a string (not a regular expression) pattern, which replaces only
 the FIRST occurrence of the pattern. JavaScript expands `$` sequences (`$&`,
 `$$`, ...) in the replacement string; the model inserts the replacement
 literally, which is exact for replacements without `$`, such as the "" used by
 the proxy, and only those are admitted.
 */
module Strings {
  import opened Wrappers

  /** `s.startsWith(prefix)`: `s` is `prefix` followed by the rest of `s`. */
  predicate StartsWith(s: string, prefix: string)
    ensures StartsWith(s, prefix) <==> |prefix| <= |s| && s == prefix + s[|prefix|..]
  {
    |prefix| <= |s| && s[..|prefix|] == prefix
  }

  /** `pat` occurs in `s` starting at position `i`. */
  predicate OccursAt(s: string, pat: string, i: nat) {
    i + |pat| <= |s| && s[i..i + |pat|] == pat
  }

  /** `s.indexOf(pat, from)`: the first position at or after `from` where `pat` occurs. */
  function IndexFrom(s: string, pat: string, from: nat): (r: Option<nat>)
    requires from <= |s|
    decreases |s| - from
    ensures r.Some? ==> from <= r.value && OccursAt(s, pat, r.value)
    ensures r.Some? ==> forall j :: from <= j < r.value ==> !OccursAt(s, pat, j)
    ensures r.None? ==> forall j :: from <= j <= |s| ==> !OccursAt(s, pat, j)
  {
    if OccursAt(s, pat, from) then Some(from)
    else if from == |s| then None
    else IndexFrom(s, pat, from + 1)
  }

  /** `s.indexOf(pat)`: the first position where `pat` occurs, if any. */
  function IndexOf(s: string, pat: string): (r: Option<nat>)
    ensures r.Some? ==> OccursAt(s, pat, r.value)
    ensures r.Some? ==> forall j :: 0 <= j < r.value ==> !OccursAt(s, pat, j)
    ensures r.None? ==> forall j :: 0 <= j <= |s| ==> !OccursAt(s, pat, j)
  {
    IndexFrom(s, pat, 0)
  }

  /**
   `s.replace(pat, rep)` for a string pattern and a replacement without `$`:
   only the first occurrence is replaced.
   */
  function ReplaceFirst(s: string, pat: string, rep: string): (r: string)
    requires '$' !in rep
    ensures (forall j :: 0 <= j <= |s| ==> !OccursAt(s, pat, j)) ==> r == s
  {
    match IndexOf(s, pat)
    case None => s
    case Some(i) => s[..i] + rep + s[i + |pat|..]
  }

  /** When `pat` first occurs at `i`, the result is `s` with that one copy replaced. */
  lemma ReplaceFirstAt(s: string, pat: string, rep: string, i: nat)
    requires '$' !in rep
    requires OccursAt(s, pat, i)
    requires forall j :: 0 <= j < i ==> !OccursAt(s, pat, j)
    ensures ReplaceFirst(s, pat, rep) == s[..i] + rep + s[i + |pat|..]
  {
  }

  /** A string that begins with the pattern loses exactly that leading copy. */
  lemma ReplaceFirstOfPrefixed(pat: string, rest: string, rep: string)
    requires '$' !in rep
    ensures ReplaceFirst(pat + rest, pat, rep) == rep + rest
  {
  }

  /**
   When no character before a copy of `pat` can start it, that copy is the first
   and is the one replaced.
   */
  lemma ReplaceFirstAfter(before: string, pat: string, after: string, rep: string)
    requires |pat| > 0 && '$' !in rep
    requires forall j :: 0 <= j < |before| ==> before[j] != pat[0]
    ensures ReplaceFirst(before + pat + after, pat, rep) == before + rep + after
  {
    var s := before + pat + after;
    assert s[|before|..|before| + |pat|] == pat;
    forall j | 0 <= j < |before| ensures !OccursAt(s, pat, j) {
      assert s[j] == before[j];
      assert j + |pat| <= |s| ==> s[j..j + |pat|][0] == s[j];
    }
    ReplaceFirstAt(s, pat, rep, |before|);
    assert s[..|before|] == before && s[|before| + |pat|..] == after;
  }
}
