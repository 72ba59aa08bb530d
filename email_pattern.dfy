/**
 * The signup form's e-mail test, the unanchored regular expression
 * `/\S+@\S+\.\S+/`: somewhere in the string there is a run of non-space
 * characters, an `@`, another run, a `.`, and a third run.
 */
module EmailPattern {
  import opened JsText

  /** `s[i..j]` is a non-empty run of characters matched by `\S`. */
  predicate NonSpaceRun(s: string, i: int, j: int) {
    0 <= i < j <= |s| && forall k :: i <= k < j ==> !IsWhiteSpace(s[k])
  }

  /** The regular expression matches `s[a..e]` with its `@` at `p` and its `.` at `q`. */
  predicate MatchesAt(s: string, a: int, p: int, q: int, e: int) {
    NonSpaceRun(s, a, p) && 0 <= p < |s| && s[p] == '@'
    && NonSpaceRun(s, p + 1, q) && 0 <= q < |s| && s[q] == '.'
    && NonSpaceRun(s, q + 1, e)
  }

  /** `/\S+@\S+\.\S+/.test(s)`, read literally: some substring matches. */
  ghost predicate RegexMatches(s: string) {
    exists a, p, q, e :: MatchesAt(s, a, p, q, e)
  }

  /**
   * The same test reduced to the two separators: an `@` at `p` with a
   * non-space character before it, a non-empty non-space stretch up to a
   * `.` at `q`, then a non-space character after the `.`.
   */
  predicate ShapeAt(s: string, p: int, q: int) {
    0 < p < q < |s| - 1 && s[p] == '@' && s[q] == '.' && !IsWhiteSpace(s[p - 1])
    && NonSpaceRun(s, p + 1, q) && !IsWhiteSpace(s[q + 1])
  }

  predicate HasEmailShape(s: string) {
    exists p, q | 0 < p < q < |s| - 1 :: ShapeAt(s, p, q)
  }

  /** The reduced test accepts exactly the strings the regular expression matches. */
  lemma EmailShapeIsRegex(s: string)
    ensures HasEmailShape(s) <==> RegexMatches(s)
  {
    if HasEmailShape(s) {
      var p, q :| 0 < p < q < |s| - 1 && ShapeAt(s, p, q);
      assert NonSpaceRun(s, p - 1, p);
      assert NonSpaceRun(s, q + 1, q + 2);
      assert MatchesAt(s, p - 1, p, q, q + 2);
    }
    if RegexMatches(s) {
      var a, p, q, e :| MatchesAt(s, a, p, q, e);
      assert ShapeAt(s, p, q);
    }
  }

  /** Without an `@`, or without a `.`, there is no match. */
  lemma NoSeparatorNoMatch(s: string)
    requires (forall k :: 0 <= k < |s| ==> s[k] != '@') || (forall k :: 0 <= k < |s| ==> s[k] != '.')
    ensures !HasEmailShape(s)
  {
  }

  lemma EmailExamples()
    ensures HasEmailShape("arjun@gita.in")
    ensures HasEmailShape("mail: a@b.c!")
    ensures !HasEmailShape("arjun@gita")
  {
    assert ShapeAt("arjun@gita.in", 5, 10);
    assert ShapeAt("mail: a@b.c!", 7, 9);
    NoSeparatorNoMatch("arjun@gita");
  }
}
