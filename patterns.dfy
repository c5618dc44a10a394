/**
 * The four regular expressions the forms test, each written out as the
 * predicate on strings that the pattern accepts.
 */
module Patterns {
  import opened Text

  /** No whitespace and no `@`: the class `[^\s@]`. */
  predicate NoSpaceOrAt(t: string) {
    forall k :: 0 <= k < |t| ==> !IsSpace(t[k]) && t[k] != '@'
  }

  /** The `[^\s@]` class, one character at a time. */
  predicate NoSpaceOrAtScan(t: string) {
    t == [] || (!IsSpace(t[0]) && t[0] != '@' && NoSpaceOrAtScan(t[1..]))
  }

  lemma {:induction false} NoSpaceOrAtScanMeaning(t: string)
    ensures NoSpaceOrAtScan(t) <==> NoSpaceOrAt(t)
  {
    if t != [] {
      NoSpaceOrAtScanMeaning(t[1..]);
      assert forall k :: 1 <= k < |t| ==> t[k] == t[1..][k - 1];
    }
  }

  /** The first position of `c` in `s`, or `|s|` when there is none. */
  function IndexOf(s: string, c: char): (i: nat)
    ensures i <= |s| && (i < |s| ==> s[i] == c)
    ensures forall k :: 0 <= k < i ==> s[k] != c
  {
    if s == [] then 0 else if s[0] == c then 0 else 1 + IndexOf(s[1..], c)
  }

  /**
   * `/^[^\s@]+@[^\s@]+\.[^\s@]+$/.test(s)`, as a scan: a non-empty local part
   * up to the first `@`, then a domain with no whitespace and no `@` that
   * holds a `.` neither first nor last.
   */
  predicate ValidEmail(s: string)
    ensures ValidEmail(s) ==> |s| >= 5 && s[0] != '@' && !IsSpace(s[0])
  {
    var i := IndexOf(s, '@');
    0 < i < |s| && NoSpaceOrAtScan(s[..i]) && NoSpaceOrAtScan(s[i + 1..])
    && |s[i + 1..]| >= 3 && '.' in s[i + 2..|s| - 1]
  }

  /**
   * The pattern read as it is written: the whole string splits into a
   * non-empty run, `@`, a non-empty run, `.`, a non-empty run, where no run
   * holds whitespace or `@` (the middle run may itself hold dots).
   */
  ghost predicate MatchesEmailPattern(s: string) {
    exists i, j | 0 < i < j < |s| ::
      i + 1 < j && j + 1 < |s| && s[i] == '@' && s[j] == '.'
      && NoSpaceOrAt(s[..i]) && NoSpaceOrAt(s[i + 1..j]) && NoSpaceOrAt(s[j + 1..])
  }

  /** What the scan accepts splits as the pattern demands, at the first `@` and a later `.`. */
  lemma ValidEmailMatches(s: string)
    requires ValidEmail(s)
    ensures MatchesEmailPattern(s)
  {
    var i := IndexOf(s, '@');
    var d := s[i + 1..];
    NoSpaceOrAtScanMeaning(s[..i]);
    NoSpaceOrAtScanMeaning(d);
    var m :| i + 2 <= m < |s| - 1 && s[m] == '.';
    assert s[i + 1..m] == d[..m - i - 1];
    assert s[m + 1..] == d[m - i..];
    assert NoSpaceOrAt(s[i + 1..m]) && NoSpaceOrAt(s[m + 1..]);
    assert 0 < i < m < |s| && i + 1 < m && m + 1 < |s| && s[i] == '@' && s[m] == '.';
  }

  /** An `@` with no `@` before it is the first one. */
  lemma FirstAt(s: string, a: int)
    requires 0 <= a < |s| && s[a] == '@' && NoSpaceOrAt(s[..a])
    ensures IndexOf(s, '@') == a
  {
    assert forall k :: 0 <= k < a ==> s[k] == s[..a][k];
  }

  /** Two runs without whitespace or `@`, joined by a `.`, make one such run. */
  lemma DomainNoSpaceOrAt(s: string, a: int, j: int)
    requires 0 <= a < j < |s| && s[j] == '.'
    requires NoSpaceOrAt(s[a + 1..j]) && NoSpaceOrAt(s[j + 1..])
    ensures NoSpaceOrAt(s[a + 1..])
  {
    var d := s[a + 1..];
    forall k | 0 <= k < |d|
      ensures !IsSpace(d[k]) && d[k] != '@'
    {
      if k < j - a - 1 { assert d[k] == s[a + 1..j][k]; }
      else if k > j - a - 1 { assert d[k] == s[j + 1..][k - (j - a)]; }
    }
  }

  /** A string the pattern matches passes the scan: its only `@` is the first one. */
  lemma MatchIsValidEmail(s: string)
    requires MatchesEmailPattern(s)
    ensures ValidEmail(s)
  {
    var a, j :| 0 < a < j < |s| && a + 1 < j && j + 1 < |s| && s[a] == '@' && s[j] == '.'
      && NoSpaceOrAt(s[..a]) && NoSpaceOrAt(s[a + 1..j]) && NoSpaceOrAt(s[j + 1..]);
    FirstAt(s, a);
    DomainNoSpaceOrAt(s, a, j);
    NoSpaceOrAtScanMeaning(s[..a]);
    NoSpaceOrAtScanMeaning(s[a + 1..]);
    assert s[a + 2..|s| - 1][j - a - 2] == '.';
  }

  /** The scan accepts exactly the strings the pattern matches. */
  lemma ValidEmailMeansPattern(s: string)
    ensures ValidEmail(s) <==> MatchesEmailPattern(s)
  {
    if ValidEmail(s) {
      ValidEmailMatches(s);
    }
    if MatchesEmailPattern(s) {
      MatchIsValidEmail(s);
    }
  }

  /** The whole of `t` matches `\S+@\S+\.\S+` (each `\S` run may hold `@` and `.`). */
  predicate FullEmailLike(t: string) {
    NoSpace(t)
    && exists i, j | 0 < i < j < |t| :: i + 1 < j && j + 1 < |t| && t[i] == '@' && t[j] == '.'
  }

  /** `/\S+@\S+\.\S+/.test(s)`: unanchored, so some substring matches. */
  predicate ContainsEmailLike(s: string)
    ensures ContainsEmailLike(s) ==> |s| >= 5 && '@' in s && '.' in s
  {
    exists p, q | 0 <= p <= q <= |s| :: FullEmailLike(s[p..q])
  }

  /** The shortest match, located: `@` at `i` and `.` at `j` with non-space characters from `i - 1` to `j + 1`. */
  predicate EmailLikeAt(s: string, i: int, j: int) {
    1 <= i && i + 1 < j && j + 1 < |s| && s[i] == '@' && s[j] == '.'
    && forall k :: i - 1 <= k <= j + 1 ==> !IsSpace(s[k])
  }

  /** The unanchored search succeeds exactly when a shortest match exists somewhere. */
  lemma ContainsEmailLikeLocal(s: string)
    ensures ContainsEmailLike(s) <==> exists i, j :: EmailLikeAt(s, i, j)
  {
    if ContainsEmailLike(s) {
      var p, q :| 0 <= p <= q <= |s| && FullEmailLike(s[p..q]);
      var t := s[p..q];
      var i, j :| 0 < i < j < |t| && i + 1 < j && j + 1 < |t| && t[i] == '@' && t[j] == '.';
      forall k | p + i - 1 <= k <= p + j + 1
        ensures !IsSpace(s[k])
      {
        assert s[k] == t[k - p];
      }
      assert EmailLikeAt(s, p + i, p + j);
    }
    if exists i, j :: EmailLikeAt(s, i, j) {
      var i, j :| EmailLikeAt(s, i, j);
      var t := s[i - 1..j + 2];
      assert t[1] == '@' && t[j - i + 1] == '.';
      assert FullEmailLike(t);
    }
  }

  /** Whatever the drawers' anchored pattern accepts, the looser unanchored one accepts too. */
  lemma ValidEmailIsEmailLike(s: string)
    requires ValidEmail(s)
    ensures ContainsEmailLike(s)
  {
    ValidEmailMatches(s);
    var i, j :| 0 < i < j < |s| && i + 1 < j && j + 1 < |s| && s[i] == '@' && s[j] == '.'
      && NoSpaceOrAt(s[..i]) && NoSpaceOrAt(s[i + 1..j]) && NoSpaceOrAt(s[j + 1..]);
    SplitIsEmailLikeAt(s, i, j);
    ContainsEmailLikeLocal(s);
  }

  /** A split of the anchored pattern is a located match of the unanchored one. */
  lemma SplitIsEmailLikeAt(s: string, i: int, j: int)
    requires 0 < i < j < |s| && i + 1 < j && j + 1 < |s| && s[i] == '@' && s[j] == '.'
    requires NoSpaceOrAt(s[..i]) && NoSpaceOrAt(s[i + 1..j]) && NoSpaceOrAt(s[j + 1..])
    ensures EmailLikeAt(s, i, j)
  {
    forall k | i - 1 <= k <= j + 1
      ensures !IsSpace(s[k])
    {
      if k == i - 1 { assert s[k] == s[..i][k]; }
      else if i < k < j { assert s[k] == s[i + 1..j][k - i - 1]; }
      else if k == j + 1 { assert s[k] == s[j + 1..][0]; }
    }
  }

  /** An accepted address has exactly one `@` and no whitespace, so it is never blank. */
  lemma ValidEmailShape(s: string)
    requires ValidEmail(s)
    ensures NoSpace(s) && !IsBlank(s)
    ensures exists i :: 0 < i < |s| && s[i] == '@' && forall k :: 0 <= k < |s| && s[k] == '@' ==> k == i
  {
    ValidEmailMatches(s);
    var i, j :| 0 < i < j < |s| && i + 1 < j && j + 1 < |s| && s[i] == '@' && s[j] == '.'
      && NoSpaceOrAt(s[..i]) && NoSpaceOrAt(s[i + 1..j]) && NoSpaceOrAt(s[j + 1..]);
    forall k | 0 <= k < |s| && k != i
      ensures !IsSpace(s[k]) && s[k] != '@'
    {
      SplitCharAt(s, i, j, k);
    }
    assert !IsSpace(s[0]);
  }

  /** Outside the `@`, every character of a split address lies in a run without whitespace or `@`. */
  lemma SplitCharAt(s: string, i: int, j: int, k: int)
    requires 0 < i < j < |s| && s[j] == '.'
    requires NoSpaceOrAt(s[..i]) && NoSpaceOrAt(s[i + 1..j]) && NoSpaceOrAt(s[j + 1..])
    requires 0 <= k < |s| && k != i
    ensures !IsSpace(s[k]) && s[k] != '@'
  {
    if k < i { assert s[k] == s[..i][k]; }
    else if k < j { assert s[k] == s[i + 1..j][k - i - 1]; }
    else if k > j { assert s[k] == s[j + 1..][k - j - 1]; }
  }

  /** A blank string is never an address: the drawers' "blank" and "invalid" cases do not overlap. */
  lemma BlankIsNotValidEmail(s: string)
    requires IsBlank(s)
    ensures !ValidEmail(s)
  {
    if ValidEmail(s) {
      ValidEmailShape(s);
    }
  }

  /** The unanchored test accepts text around an address that the anchored test refuses. */
  lemma EmailPatternsDiffer()
    ensures ContainsEmailLike("to a@b.co") && !ValidEmail("to a@b.co")
  {
    var s := "to a@b.co";
    assert EmailLikeAt(s, 4, 6);
    ContainsEmailLikeLocal(s);
    assert !NoSpace(s) by { assert IsSpace(s[2]); }
    if ValidEmail(s) {
      ValidEmailShape(s);
      assert false;
    }
  }

  /** The character classes that the password pattern's look-aheads search for. */
  datatype CharClass = Lowercase | Uppercase | Digit | Symbol

  /** `[a-z]`, `[A-Z]`, `\d` and `[\W_]` (everything but ASCII letters and digits). */
  predicate InClass(c: char, cls: CharClass) {
    match cls
    case Lowercase => IsLower(c)
    case Uppercase => IsUpper(c)
    case Digit => IsDigit(c)
    case Symbol => !IsAlnum(c)
  }

  predicate NoLineTerminator(s: string) {
    forall k :: 0 <= k < |s| ==> !IsLineTerminator(s[k])
  }

  /** `(?=.*X)` at the start of `s`: an `X` character reached without crossing a line terminator. */
  predicate LookaheadFinds(s: string, cls: CharClass) {
    exists k | 0 <= k < |s| :: InClass(s[k], cls) && NoLineTerminator(s[..k])
  }

  /** `/^(?=.*[a-z])(?=.*[A-Z])(?=.*\d)(?=.*[\W_]).{6,}$/.test(s)`. */
  predicate StrongPassword(s: string)
    ensures StrongPassword(s) ==>
              Contains(s, Lowercase) && Contains(s, Uppercase) && Contains(s, Digit) && Contains(s, Symbol)
  {
    LookaheadFinds(s, Lowercase) && LookaheadFinds(s, Uppercase)
    && LookaheadFinds(s, Digit) && LookaheadFinds(s, Symbol)
    && |s| >= 6 && NoLineTerminator(s)
  }

  predicate Contains(s: string, cls: CharClass) {
    exists k | 0 <= k < |s| :: InClass(s[k], cls)
  }

  /** What the pattern asks, in plain terms: one of each class, six characters, one line. */
  lemma StrongPasswordMeaning(s: string)
    ensures StrongPassword(s) <==>
      Contains(s, Lowercase) && Contains(s, Uppercase) && Contains(s, Digit) && Contains(s, Symbol)
      && |s| >= 6 && NoLineTerminator(s)
  {
    if NoLineTerminator(s) {
      forall cls | Contains(s, cls)
        ensures LookaheadFinds(s, cls)
      {
        var k :| 0 <= k < |s| && InClass(s[k], cls);
        assert NoLineTerminator(s[..k]);
      }
    }
  }

  /** Case-insensitive comparison of one character with a lower-case ASCII letter or a symbol. */
  predicate SameIgnoringCase(c: char, lower: char) {
    c == lower || c == UpperChar(lower)
  }

  predicate PrefixIgnoringCase(s: string, p: string) {
    |p| <= |s| && forall k :: 0 <= k < |p| ==> SameIgnoringCase(s[k], p[k])
  }

  /**
   * `/^https?:\/\//i.test(s)`. Without the `u` flag the `i` flag folds a
   * character only onto a same-width ASCII one, so only ASCII letters match case-insensitively.
   */
  predicate StartsWithHttp(s: string)
    ensures StartsWithHttp(s) ==> |s| >= 7 && LowerAscii(s[..4]) == "http"
  {
    PrefixIgnoringCase(s, "http://") || PrefixIgnoringCase(s, "https://")
  }

  function LowerChar(c: char): (l: char)
    ensures IsUpper(c) ==> IsLower(l) && UpperChar(l) == c
    ensures !IsUpper(c) ==> l == c
  {
    if IsUpper(c) then (c as int + 32) as char else c
  }

  function LowerAscii(s: string): (r: string)
    ensures |r| == |s| && forall k :: 0 <= k < |s| ==> r[k] == LowerChar(s[k])
  {
    seq(|s|, k requires 0 <= k < |s| => LowerChar(s[k]))
  }

  /** The URL test does not depend on the case of the letters. */
  lemma StartsWithHttpIgnoresCase(s: string)
    ensures StartsWithHttp(s) <==> StartsWithHttp(LowerAscii(s))
  {
    var l := LowerAscii(s);
    forall k | 0 <= k < |s|
      ensures forall lower :: IsLower(lower) || !IsUpper(lower) ==> (SameIgnoringCase(s[k], lower) <==> SameIgnoringCase(l[k], lower))
    {
    }
  }

  /** Text after the scheme does not matter: the test looks at a prefix only. */
  lemma StartsWithHttpPrefix(s: string, rest: string)
    requires StartsWithHttp(s)
    ensures StartsWithHttp(s + rest)
  {
    assert forall k :: 0 <= k < |s| ==> (s + rest)[k] == s[k];
  }
}
