/**
 * The JavaScript string operations the authentication code relies on: `a || b` on a
 * possibly undefined string, `indexOf` with a string argument, and `replace` with a string
 * (not a regular expression) pattern, which replaces the FIRST occurrence only.
 */
module JsString {
  import opened Wrappers

  /**
   * `value || fallback`: an undefined or empty string falls back. A non-empty fallback so
   * never yields the empty string, and any other result is the given value itself.
   */
  function Or(value: Option<string>, fallback: string): (r: string)
    ensures fallback != "" ==> r != ""
    ensures r != fallback ==> value == Some(r)
  {
    if value.Some? && value.value != "" then value.value else fallback
  }

  /** `pat` occurs in `s` starting at index `i`. */
  predicate OccursAt(s: string, pat: string, i: nat) {
    i + |pat| <= |s| && s[i..i + |pat|] == pat
  }

  /** `s.indexOf(pat, k)`: the first occurrence of `pat` at or after `k`. */
  function IndexOfFrom(s: string, pat: string, k: nat): (r: Option<nat>)
    requires k <= |s|
    ensures r.Some? ==> k <= r.value && OccursAt(s, pat, r.value)
    ensures r.Some? ==> forall j :: k <= j < r.value ==> !OccursAt(s, pat, j)
    ensures r.None? ==> forall j :: k <= j <= |s| ==> !OccursAt(s, pat, j)
    decreases |s| - k
  {
    if OccursAt(s, pat, k) then Some(k)
    else if k == |s| then None
    else IndexOfFrom(s, pat, k + 1)
  }

  /** `s.indexOf(pat)`. */
  function IndexOf(s: string, pat: string): (r: Option<nat>)
    ensures r.Some? <==> exists j :: 0 <= j <= |s| && OccursAt(s, pat, j)
    ensures r.Some? ==> OccursAt(s, pat, r.value) && forall j :: 0 <= j < r.value ==> !OccursAt(s, pat, j)
  {
    IndexOfFrom(s, pat, 0)
  }

  /**
   * `s.replace(pat, rep)` for a string pattern: the first occurrence of `pat` is
   * replaced by `rep`; without an occurrence `s` is returned as it is. (`rep` is
   * taken literally; the `$` substitution patterns are not modelled.)
   */
  function ReplaceFirst(s: string, pat: string, rep: string): (r: string)
    ensures IndexOf(s, pat).None? ==> r == s
    ensures IndexOf(s, pat).Some? ==>
      var i := IndexOf(s, pat).value;
      r == s[..i] + rep + s[i + |pat|..]
  {
    match IndexOf(s, pat)
    case None => s
    case Some(i) => s[..i] + rep + s[i + |pat|..]
  }

  /** A string that starts with `pat` has its prefix occurrence replaced, whatever follows. */
  lemma ReplaceLeading(pat: string, rest: string, rep: string)
    ensures ReplaceFirst(pat + rest, pat, rep) == rep + rest
  {
  }
}
