/** The e-mail pattern of `EmployeeModel.validate_email`:
    `re.match(r'^[a-zA-Z0-9._%+-]+@[a-zA-Z0-9.-]+\.[a-zA-Z]{2,}$', v)`, written as character classes. */
module EmailPattern {
  import opened Wrappers
  import opened Frames

  predicate IsLetter(c: char) {
    'a' <= c <= 'z' || 'A' <= c <= 'Z'
  }

  /** `[a-zA-Z0-9._%+-]` */
  predicate IsLocalChar(c: char) {
    IsLetter(c) || IsDigit(c) || c == '.' || c == '_' || c == '%' || c == '+' || c == '-'
  }

  /** `[a-zA-Z0-9.-]` */
  predicate IsDomainChar(c: char) {
    IsLetter(c) || IsDigit(c) || c == '.' || c == '-'
  }

  predicate AllLocal(s: string) {
    forall k :: 0 <= k < |s| ==> IsLocalChar(s[k])
  }

  predicate AllDomain(s: string) {
    forall k :: 0 <= k < |s| ==> IsDomainChar(s[k])
  }

  predicate AllLetters(s: string) {
    forall k :: 0 <= k < |s| ==> IsLetter(s[k])
  }

  /** `s` is `local @ domain . tld` with the `@` at position `i` and the `.` at position `j`:
      a non-empty local part, a non-empty domain and a top-level part of at least two letters. */
  predicate SplitsAt(s: string, i: int, j: int) {
    0 < i && i + 1 < j && j + 2 < |s| &&
    s[i] == '@' && s[j] == '.' &&
    AllLocal(s[..i]) && AllDomain(s[i + 1..j]) && AllLetters(s[j + 1..])
  }

  /** The pattern between `^` and `$` matches the whole of `s` (the regex may backtrack to any split). */
  ghost predicate WholeMatch(s: string) {
    exists i: int, j: int :: SplitsAt(s, i, j)
  }

  /** What `re.match` with `^…$` accepts: Python's `$` also matches just before a final newline. */
  ghost predicate PatternMatches(s: string) {
    WholeMatch(s) || (|s| > 0 && s[|s| - 1] == '\n' && WholeMatch(s[..|s| - 1]))
  }

  /** Joining a local part, a domain and a top-level part around `@` and `.` gives a split. */
  lemma SplitsAtJoin(local: string, domain: string, tld: string)
    requires |local| > 0 && |domain| > 0 && |tld| >= 2
    requires AllLocal(local) && AllDomain(domain) && AllLetters(tld)
    ensures SplitsAt(local + "@" + (domain + "." + tld), |local|, |local| + 1 + |domain|)
  {
    var s := local + "@" + (domain + "." + tld);
    var i := |local|;
    var j := i + 1 + |domain|;
    assert s[..i] == local;
    assert s[i + 1..j] == domain;
    assert s[j + 1..] == tld;
  }

  /** The position of the first `c` in `s`. */
  function FirstIndex(s: string, c: char): (r: Option<nat>)
    ensures r.Some? ==> r.value < |s| && s[r.value] == c && c !in s[..r.value]
    ensures r.None? ==> c !in s
  {
    if s == [] then None
    else if s[0] == c then Some(0)
    else match FirstIndex(s[1..], c)
      case None => None
      case Some(k) => assert s[1..][..k] == s[1..k + 1]; Some(k + 1)
  }

  /** The position of the last `c` in `s`. */
  function LastIndex(s: string, c: char): (r: Option<nat>)
    ensures r.Some? ==> r.value < |s| && s[r.value] == c && c !in s[r.value + 1..]
    ensures r.None? ==> c !in s
  {
    if s == [] then None
    else if s[|s| - 1] == c then Some(|s| - 1)
    else match LastIndex(s[..|s| - 1], c)
      case None => None
      case Some(k) => assert s[k + 1..] == s[..|s| - 1][k + 1..] + [s[|s| - 1]]; Some(k)
  }

  /** Any split that matches uses the first `@` and the last `.` of `s`: no `@` can occur in the
      local part or the domain, and no `.` in the top-level part. */
  lemma SplitIsCanonical(s: string, i: int, j: int)
    requires SplitsAt(s, i, j)
    ensures FirstIndex(s, '@') == Some(i as nat)
    ensures LastIndex(s, '.') == Some(j as nat)
  {
    var at := FirstIndex(s, '@');
    assert '@' !in s[..i] by {
      forall k | 0 <= k < i ensures s[..i][k] != '@' { assert IsLocalChar(s[..i][k]); }
    }
    assert at.Some? by { assert s[i] == '@'; }
    var dot := LastIndex(s, '.');
    assert '.' !in s[j + 1..] by {
      forall k | j + 1 <= k < |s| ensures s[k] != '.' { assert IsLetter(s[j + 1..][k - (j + 1)]); }
    }
    assert dot.Some? by { assert s[j] == '.'; }
  }

  /** Executable check that the pattern matches all of `s`. */
  function MatchesWhole(s: string): (b: bool)
    ensures b <==> WholeMatch(s)
  {
    var at := FirstIndex(s, '@');
    var dot := LastIndex(s, '.');
    MatchUsesCanonicalSplit(s);
    at.Some? && dot.Some? && SplitsAt(s, at.value, dot.value)
  }

  lemma MatchUsesCanonicalSplit(s: string)
    ensures WholeMatch(s) ==> SplitsAt(s, FirstIndex(s, '@').value, LastIndex(s, '.').value)
  {
    if WholeMatch(s) {
      var i: int, j: int :| SplitsAt(s, i, j);
      SplitIsCanonical(s, i, j);
    }
  }

  /** `validate_email`'s test: true exactly when `re.match` finds the pattern in `s`. */
  function IsValidEmail(s: string): (b: bool)
    ensures b <==> PatternMatches(s)
  {
    MatchesWhole(s) || (|s| > 0 && s[|s| - 1] == '\n' && MatchesWhole(s[..|s| - 1]))
  }

  /** A matching address has exactly one split: at its first `@`, with a non-empty local part before. */
  lemma {:induction false} MatchHasNonEmptyLocalPart(s: string)
    requires PatternMatches(s)
    ensures FirstIndex(s, '@').Some? && FirstIndex(s, '@').value > 0
  {
    if WholeMatch(s) {
      var i: int, j: int :| SplitsAt(s, i, j);
      SplitIsCanonical(s, i, j);
    } else {
      var t := s[..|s| - 1];
      var i: int, j: int :| SplitsAt(t, i, j);
      SplitIsCanonical(t, i, j);
      assert s[..i + 1] == t[..i + 1];
      assert '@' !in t[..i];
      assert s[..i] == t[..i];
      var r := FirstIndex(s, '@');
      assert s[i] == '@';
      assert r.Some?;
    }
  }
}
