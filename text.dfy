/**
 * Characters and strings as the browser's String methods and regular
 * expressions see them: whitespace, digits, letters, trimming, the digit
 * filter of the WhatsApp field, decimal rendering of indices and joining.
 */
module Text {

  /** `\s` in an ECMAScript regular expression; String.prototype.trim strips the same set. */
  predicate IsSpace(c: char) {
    c == ' ' || c == '\t' || c == '\n' || c == '\U{000B}' || c == '\U{000C}' || c == '\r'
    || c == '\U{00A0}' || c == '\U{1680}' || ('\U{2000}' <= c <= '\U{200A}')
    || c == '\U{2028}' || c == '\U{2029}' || c == '\U{202F}' || c == '\U{205F}'
    || c == '\U{3000}' || c == '\U{FEFF}'
  }

  /** The characters `.` in a regular expression without the `s` flag refuses. */
  predicate IsLineTerminator(c: char) {
    c == '\n' || c == '\r' || c == '\U{2028}' || c == '\U{2029}'
  }

  /** `\d` (without the `u` flag): the ASCII digits only. */
  predicate IsDigit(c: char) { '0' <= c <= '9' }

  predicate IsLower(c: char) { 'a' <= c <= 'z' }

  predicate IsUpper(c: char) { 'A' <= c <= 'Z' }

  /** Letters and digits of ASCII; `[\W_]` is every character that is not one of these. */
  predicate IsAlnum(c: char) { IsLower(c) || IsUpper(c) || IsDigit(c) }

  /** Upper-casing of one character, on the ASCII letters. */
  function UpperChar(c: char): (u: char)
    ensures IsLower(c) ==> IsUpper(u) && u as int == c as int - 32
    ensures !IsLower(c) ==> u == c
  {
    if IsLower(c) then (c as int - 32) as char else c
  }

  /** True when `!s.trim()` holds: nothing but whitespace (or nothing at all). */
  predicate IsBlank(s: string) {
    forall k :: 0 <= k < |s| ==> IsSpace(s[k])
  }

  predicate NoSpace(s: string) {
    forall k :: 0 <= k < |s| ==> !IsSpace(s[k])
  }

  /** Leading whitespace removed. */
  function TrimStart(s: string): (r: string)
    ensures IsBlank(r) <==> IsBlank(s)
    ensures r != [] ==> !IsSpace(r[0])
  {
    if s != [] && IsSpace(s[0]) then
      assert IsBlank(s) <==> IsBlank(s[1..]) by {
        assert forall k :: 1 <= k < |s| ==> s[k] == s[1..][k - 1];
      }
      TrimStart(s[1..])
    else s
  }

  /** Trailing whitespace removed. */
  function TrimEnd(s: string): (r: string)
    ensures r == [] <==> IsBlank(s)
    ensures r != [] ==> !IsSpace(r[|r| - 1])
  {
    if s != [] && IsSpace(s[|s| - 1]) then
      assert IsBlank(s) <==> IsBlank(s[..|s| - 1]) by {
        assert forall k :: 0 <= k < |s| - 1 ==> s[k] == s[..|s| - 1][k];
      }
      TrimEnd(s[..|s| - 1])
    else s
  }

  /** String.prototype.trim. */
  function Trim(s: string): (r: string)
    ensures r == [] <==> IsBlank(s)
  {
    TrimEnd(TrimStart(s))
  }

  /** `s.replace(/\D/g, "")`: the digits of `s`, in their order. */
  function KeepDigits(s: string): (r: string)
    ensures |r| <= |s|
    ensures forall k :: 0 <= k < |r| ==> IsDigit(r[k])
  {
    if s == [] then []
    else (if IsDigit(s[0]) then [s[0]] else []) + KeepDigits(s[1..])
  }

  /** Every digit of the input is kept, as often as it occurs, and nothing else is. */
  lemma {:induction false} KeepDigitsKeepsEveryDigit(s: string)
    ensures forall c :: IsDigit(c) ==> multiset(KeepDigits(s))[c] == multiset(s)[c]
    ensures forall c :: !IsDigit(c) ==> multiset(KeepDigits(s))[c] == 0
  {
    if s != [] {
      KeepDigitsKeepsEveryDigit(s[1..]);
      assert s == [s[0]] + s[1..];
      assert multiset(s) == multiset([s[0]]) + multiset(s[1..]);
    }
  }

  /** The kept digits are in the order they had in the input. */
  lemma {:induction false} KeepDigitsKeepsOrder(s: string)
    ensures IsSubsequence(KeepDigits(s), s)
  {
    if s != [] {
      KeepDigitsKeepsOrder(s[1..]);
      var rest := KeepDigits(s[1..]);
      if IsDigit(s[0]) {
        assert KeepDigits(s) == [s[0]] + rest;
        assert KeepDigits(s)[1..] == rest;
      } else {
        assert KeepDigits(s) == rest;
        assert rest != [] ==> IsDigit(rest[0]) && rest[0] != s[0];
      }
    }
  }

  /** `a` can be obtained from `b` by deleting elements: the elements of `a` keep their order in `b`. */
  predicate IsSubsequence<T(==)>(a: seq<T>, b: seq<T>)
    decreases |b|
  {
    if a == [] then true
    else if b == [] then false
    else if a[0] == b[0] then IsSubsequence(a[1..], b[1..])
    else IsSubsequence(a, b[1..])
  }

  /** A string of digits is left as it is by the filter. */
  lemma {:induction false} KeepDigitsOfDigits(s: string)
    requires forall k :: 0 <= k < |s| ==> IsDigit(s[k])
    ensures KeepDigits(s) == s
  {
    if s != [] {
      KeepDigitsOfDigits(s[1..]);
    }
  }

  /** Filtering twice is filtering once. */
  lemma KeepDigitsIdempotent(s: string)
    ensures KeepDigits(KeepDigits(s)) == KeepDigits(s)
  {
    KeepDigitsOfDigits(KeepDigits(s));
  }

  /** The filter works piecewise, so the digits of `a` come out before those of `b`. */
  lemma {:induction false} KeepDigitsConcat(a: string, b: string)
    ensures KeepDigits(a + b) == KeepDigits(a) + KeepDigits(b)
  {
    if a == [] {
      assert a + b == b;
    } else {
      assert (a + b)[1..] == a[1..] + b;
      KeepDigitsConcat(a[1..], b);
    }
  }

  /** A filtered string is blank exactly when it is empty: it holds no whitespace. */
  lemma KeepDigitsBlankIffEmpty(s: string)
    ensures IsBlank(KeepDigits(s)) <==> KeepDigits(s) == []
  {
    var r := KeepDigits(s);
    if r != [] {
      assert IsDigit(r[0]) && !IsSpace(r[0]);
    }
  }

  function DigitChar(d: nat): (c: char)
    requires d < 10
    ensures IsDigit(c)
  {
    ('0' as int + d) as char
  }

  /** The decimal rendering of a natural number, as `${i}` in a template string gives it. */
  function NatToString(n: nat): (r: string)
    ensures |r| >= 1 && (n < 10 <==> |r| == 1)
    ensures forall k :: 0 <= k < |r| ==> IsDigit(r[k])
  {
    if n < 10 then [DigitChar(n)] else NatToString(n / 10) + [DigitChar(n % 10)]
  }

  /** Different numbers render differently. */
  lemma {:induction false} NatToStringInjective(a: nat, b: nat)
    requires NatToString(a) == NatToString(b)
    ensures a == b
  {
    if a >= 10 && b >= 10 {
      var ra, rb := NatToString(a / 10), NatToString(b / 10);
      assert NatToString(a) == ra + [DigitChar(a % 10)];
      assert NatToString(b) == rb + [DigitChar(b % 10)];
      assert |ra| == |rb|;
      assert DigitChar(a % 10) == NatToString(a)[|ra|] == DigitChar(b % 10);
      assert ra == NatToString(a)[..|ra|] == rb;
      NatToStringInjective(a / 10, b / 10);
    } else {
      assert NatToString(a)[0] == NatToString(b)[0];
    }
  }

  /** A stored property that is printed with `toString()`: a non-negative integer, a string, or missing. */
  datatype Printable = NumberValue(n: nat) | StringValue(s: string) | NoValue

  /** `(v ?? "").toString()`: a number prints in decimal, which is never empty. */
  function ToText(v: Printable): (r: string)
    ensures v.NumberValue? ==> r != [] && forall k :: 0 <= k < |r| ==> IsDigit(r[k])
    ensures v.StringValue? ==> r == v.s
    ensures v.NoValue? ==> r == ""
  {
    match v
    case NumberValue(n) => NatToString(n)
    case StringValue(t) => t
    case NoValue => ""
  }

  /** Array.prototype.join on strings. */
  function Join(xs: seq<string>, sep: string): (r: string)
    ensures xs == [] ==> r == []
    ensures |xs| > 0 ==> |r| >= |xs[0]| && r[..|xs[0]|] == xs[0]
    ensures |xs| > 1 ==> |r| >= |xs[0]| + |sep|
  {
    if xs == [] then []
    else if |xs| == 1 then xs[0]
    else xs[0] + sep + Join(xs[1..], sep)
  }

  /** With a non-empty separator, a join is empty exactly for no element or one empty element. */
  lemma JoinEmptyIff(xs: seq<string>, sep: string)
    requires sep != []
    ensures Join(xs, sep) == [] <==> xs == [] || xs == [[]]
  {
    if |xs| == 1 && xs[0] == [] {
      assert xs == [[]];
    }
  }
}
