/**
 * The e-mail pattern `^[^\s@]+@[^\s@]+\.[^\s@]+$` shared by the sign-up and
 * login validators and the invite dialog. `SplitsAsEmail` transcribes the
 * pattern (three runs of characters that are neither white space nor `@`,
 * separated by `@` and `.`); `IsValidEmail` is the executable check, proved
 * to accept exactly the strings the pattern matches.
 */
module EmailPattern {
  import Text
  import opened Wrappers

  /** A run of the class `[^\s@]`, possibly empty. */
  predicate NoSpaceOrAt(t: string) {
    forall k :: 0 <= k < |t| ==> !Text.IsWhitespace(t[k]) && t[k] != '@'
  }

  /** `s` matches the pattern with its `@` at index `i` and the `.` the
      pattern consumes at index `j`. */
  ghost predicate SplitsAsEmail(s: string, i: int, j: int) {
    && 0 < i && i + 1 < j && j + 1 < |s|
    && s[i] == '@' && s[j] == '.'
    && NoSpaceOrAt(s[..i]) && NoSpaceOrAt(s[i + 1..j]) && NoSpaceOrAt(s[j + 1..])
  }

  /** The regular expression's language. */
  ghost predicate MatchesEmailPattern(s: string) {
    exists i, j :: SplitsAsEmail(s, i, j)
  }

  /** Index of the first occurrence of `c`. */
  function IndexOf(s: string, c: char): (r: Option<nat>)
    ensures r.Some? ==> r.value < |s| && s[r.value] == c && c !in s[..r.value]
    ensures r.None? ==> c !in s
  {
    if |s| == 0 then None
    else if s[0] == c then Some(0)
    else
      var r := IndexOf(s[1..], c);
      if r.Some? then
        assert s[..r.value + 1] == [s[0]] + s[1..][..r.value];
        Some(r.value + 1)
      else
        assert s == [s[0]] + s[1..];
        None
  }

  /** The domain part has a `.` with at least one character on each side. */
  function HasInnerDot(d: string): (r: bool)
    ensures r <==> exists j :: 1 <= j <= |d| - 2 && d[j] == '.'
  {
    if |d| < 3 then false
    else if d[1] == '.' then true
    else
      var r := HasInnerDot(d[1..]);
      assert forall j :: 2 <= j <= |d| - 2 ==> d[j] == d[1..][j - 1];
      r
  }

  /** The executable check: a non-empty local part before the first `@`, and a
      domain after it with no further `@`, no white space and an inner dot. */
  function IsValidEmail(s: string): bool {
    match IndexOf(s, '@')
    case None => false
    case Some(i) => i > 0 && NoSpaceOrAt(s[..i]) && NoSpaceOrAt(s[i + 1..]) && HasInnerDot(s[i + 1..])
  }

  /** The executable check accepts exactly the strings the pattern matches. */
  lemma IsValidEmailMatchesPattern(s: string)
    ensures IsValidEmail(s) <==> MatchesEmailPattern(s)
  {
    if IsValidEmail(s) {
      var i := IndexOf(s, '@').value;
      var d := s[i + 1..];
      var jd :| 1 <= jd <= |d| - 2 && d[jd] == '.';
      var j := i + 1 + jd;
      assert s[i + 1..j] == d[..jd];
      assert s[j + 1..] == d[jd + 1..];
      assert SplitsAsEmail(s, i, j);
    }
    if MatchesEmailPattern(s) {
      var i, j :| SplitsAsEmail(s, i, j);
      var r := IndexOf(s, '@');
      assert '@' !in s[..i];
      assert r.Some?;
      assert forall k :: 0 <= k < i ==> s[..i][k] == s[k];
      assert forall k :: 0 <= k < r.value ==> s[..r.value][k] == s[k];
      assert r.value == i;
      var d := s[i + 1..];
      forall k | 0 <= k < |d| ensures !Text.IsWhitespace(d[k]) && d[k] != '@' {
        if k < j - i - 1 {
          assert d[k] == s[i + 1..j][k];
        } else if k > j - i - 1 {
          assert d[k] == s[j + 1..][k - (j - i)];
        }
      }
      assert d[j - i - 1] == '.';
    }
  }

  /** The empty string is not an e-mail address. */
  lemma EmptyIsNotEmail()
    ensures !IsValidEmail("")
  {
  }
}
