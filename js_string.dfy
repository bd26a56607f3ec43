/**
 * The JavaScript string operation the download worker relies on:
 * `String.prototype.replace` called with a string (not a regular expression)
 * as the pattern, together with the StringIndexOf search it uses.  `replace` with a string
 * pattern replaces only the FIRST occurrence of the pattern, and expands the
 * replacement's `$` patterns as the ECMAScript abstract operation
 * GetSubstitution does (section 22.1.3.19.1 of ECMA-262, 2023 edition).
 */
module JsString {
  import opened Wrappers

  /** `pat` occurs in `s` at position `i`. */
  predicate OccursAt(s: string, pat: string, i: nat) {
    i + |pat| <= |s| && s[i..i + |pat|] == pat
  }

  /**
   * The abstract operation StringIndexOf(s, pat, from): the least position at
   * or after `from` where `pat` occurs.  Unlike `s.indexOf(pat, from)` it does
   * not clamp `from` to `|s|`; `replace` only calls it with `from` = 0.
   */
  function IndexOfFrom(s: string, pat: string, from: nat): (r: Option<nat>)
    ensures r.Some? ==> from <= r.value && OccursAt(s, pat, r.value)
    ensures r.Some? ==> forall j :: from <= j < r.value ==> !OccursAt(s, pat, j)
    ensures r.None? <==> forall j :: from <= j ==> !OccursAt(s, pat, j)
    decreases |s| - from
  {
    if from + |pat| > |s| then None
    else if OccursAt(s, pat, from) then Some(from)
    else IndexOfFrom(s, pat, from + 1)
  }

  /** StringIndexOf(s, pat, 0), which is also `s.indexOf(pat)`. */
  function IndexOf(s: string, pat: string): (r: Option<nat>) {
    IndexOfFrom(s, pat, 0)
  }

  /**
   * GetSubstitution for a string pattern (no capture groups): `$$` stands for
   * `$`, `$&` for the matched text, `` $` `` for the text before the match,
   * `$'` for the text after it; every other character, and every other `$`
   * (`$1`, `$<`, a trailing `$`), is copied literally.
   */
  function Substitution(replacement: string, matched: string, before: string, after: string): (r: string)
    decreases |replacement|
  {
    if |replacement| == 0 then ""
    else if |replacement| >= 2 && replacement[0] == '$' && replacement[1] == '$' then
      "$" + Substitution(replacement[2..], matched, before, after)
    else if |replacement| >= 2 && replacement[0] == '$' && replacement[1] == '&' then
      matched + Substitution(replacement[2..], matched, before, after)
    else if |replacement| >= 2 && replacement[0] == '$' && replacement[1] == '`' then
      before + Substitution(replacement[2..], matched, before, after)
    else if |replacement| >= 2 && replacement[0] == '$' && replacement[1] == '\'' then
      after + Substitution(replacement[2..], matched, before, after)
    else
      [replacement[0]] + Substitution(replacement[1..], matched, before, after)
  }

  /** `s.replace(pat, replacement)` with a string pattern. */
  function Replace(s: string, pat: string, replacement: string): (r: string) {
    match IndexOf(s, pat)
    case None => s
    case Some(i) =>
      s[..i] + Substitution(replacement, pat, s[..i], s[i + |pat|..]) + s[i + |pat|..]
  }

  /** A replacement without `$` is inserted verbatim. */
  lemma {:induction false} SubstitutionLiteral(replacement: string, matched: string, before: string, after: string)
    requires '$' !in replacement
    ensures Substitution(replacement, matched, before, after) == replacement
    decreases |replacement|
  {
    if |replacement| > 0 {
      assert replacement[0] != '$';
      assert '$' !in replacement[1..] by {
        forall k | 0 <= k < |replacement[1..]| ensures replacement[1..][k] != '$' {
          assert replacement[1..][k] == replacement[k + 1];
        }
      }
      SubstitutionLiteral(replacement[1..], matched, before, after);
      assert [replacement[0]] + replacement[1..] == replacement;
    }
  }

  /** When `pat` does not occur in `s`, `replace` returns `s` unchanged. */
  lemma ReplaceAbsent(s: string, pat: string, replacement: string)
    requires forall j: nat :: !OccursAt(s, pat, j)
    ensures Replace(s, pat, replacement) == s
  {
  }

  /**
   * When `pat` occurs in `s`, only its first occurrence, at position `i`, is
   * replaced: the text before it and the text after it (which may hold
   * further occurrences) are kept.
   */
  lemma ReplaceFirst(s: string, pat: string, replacement: string, i: nat)
    requires OccursAt(s, pat, i)
    requires forall j :: 0 <= j < i ==> !OccursAt(s, pat, j)
    requires '$' !in replacement
    ensures Replace(s, pat, replacement) == s[..i] + replacement + s[i + |pat|..]
  {
    SubstitutionLiteral(replacement, pat, s[..i], s[i + |pat|..]);
  }

  /** `replace` of a prefix swaps the prefix and leaves the rest of the string untouched. */
  lemma ReplacePrefix(s: string, pat: string, replacement: string)
    requires |pat| <= |s| && s[..|pat|] == pat
    requires '$' !in replacement
    ensures Replace(s, pat, replacement) == replacement + s[|pat|..]
  {
    assert OccursAt(s, pat, 0);
    ReplaceFirst(s, pat, replacement, 0);
  }

  /** `$&` in the replacement re-inserts the matched pattern itself. */
  lemma ReplaceMatchPattern(s: string, pat: string, tail: string)
    requires |pat| <= |s| && s[..|pat|] == pat
    requires '$' !in tail
    ensures Replace(s, pat, "$&" + tail) == pat + tail + s[|pat|..]
  {
    assert OccursAt(s, pat, 0);
    var r := "$&" + tail;
    assert r[2..] == tail;
    SubstitutionLiteral(tail, pat, s[..0], s[|pat|..]);
  }
}
