/** The string operations the client and the mappers rely on:
    `str.replace`, `str.lstrip` and the trailing-Z normalisation applied
    before every ISO-8601 parse. */
module Text {

  predicate StartsWith(s: string, p: string) {
    |p| <= |s| && s[..|p|] == p
  }

  /** `p in s` for strings: `p` occurs at some position of `s`. */
  predicate Contains(s: string, p: string)
    decreases |s|
  {
    StartsWith(s, p) || (|s| > 0 && Contains(s[1..], p))
  }

  /** `s.replace("", rep)`: `rep` before every character and at the end. */
  function Interleave(s: string, rep: string): string
    decreases |s|
  {
    if s == "" then rep else rep + [s[0]] + Interleave(s[1..], rep)
  }

  /** `s.replace(pat, rep)`: non-overlapping occurrences of `pat`, found by a
      left-to-right scan, each replaced by `rep`. */
  function ReplaceAll(s: string, pat: string, rep: string): string
    decreases |s|
  {
    if pat == "" then Interleave(s, rep)
    else if StartsWith(s, pat) then rep + ReplaceAll(s[|pat|..], pat, rep)
    else if s == "" then ""
    else [s[0]] + ReplaceAll(s[1..], pat, rep)
  }

  /** A string without an occurrence of the pattern is left as it is. */
  lemma {:induction false} ReplaceWithoutOccurrence(s: string, pat: string, rep: string)
    requires pat != "" && !Contains(s, pat)
    ensures ReplaceAll(s, pat, rep) == s
    decreases |s|
  {
    if s != "" {
      ReplaceWithoutOccurrence(s[1..], pat, rep);
      assert [s[0]] + s[1..] == s;
    }
  }

  /** A leading occurrence of the pattern is replaced and the scan resumes after it. */
  lemma ReplaceLeading(s: string, pat: string, rep: string)
    requires pat != ""
    ensures ReplaceAll(pat + s, pat, rep) == rep + ReplaceAll(s, pat, rep)
  {
    assert (pat + s)[..|pat|] == pat;
    assert (pat + s)[|pat|..] == s;
  }

  /** A one-character pattern occurs exactly when the character does. */
  lemma {:induction false} ContainsChar(s: string, c: char)
    ensures Contains(s, [c]) <==> c in s
    decreases |s|
  {
    if s != "" {
      ContainsChar(s[1..], c);
      assert s == [s[0]] + s[1..];
    }
  }

  /** Replacing a character by text that lacks it leaves no copy of it. */
  lemma {:induction false} ReplaceEliminatesChar(s: string, c: char, rep: string)
    requires c !in rep
    ensures c !in ReplaceAll(s, [c], rep)
    decreases |s|
  {
    if s != "" {
      ReplaceEliminatesChar(s[1..], c, rep);
      if StartsWith(s, [c]) {
        assert s[1..] == s[|[c]|..];
      }
    }
  }

  /** `s.replace("Z", "+00:00")`, applied to every timestamp before it is parsed. */
  function NormalizeZ(s: string): (r: string)
    ensures 'Z' !in r
    ensures 'Z' !in s ==> r == s
  {
    ReplaceEliminatesChar(s, 'Z', "+00:00");
    ContainsChar(s, 'Z');
    if 'Z' in s then ReplaceAll(s, "Z", "+00:00")
    else
      ReplaceWithoutOccurrence(s, "Z", "+00:00");
      ReplaceAll(s, "Z", "+00:00")
  }

  /** `s.lstrip(c)`: every leading copy of `c` removed. */
  function LStrip(s: string, c: char): (r: string)
    ensures |r| <= |s| && r == s[|s| - |r|..]
    ensures r == "" || r[0] != c
    ensures forall i :: 0 <= i < |s| - |r| ==> s[i] == c
    decreases |s|
  {
    if s != "" && s[0] == c then LStrip(s[1..], c) else s
  }
}
