/**
 * The few Python string operations the services rely on: `str.strip`,
 * `str.upper`, `str.split`, `str.startswith`, `str(int)`, `int(str)`,
 * `str.isdigit` and string comparison.
 */
module Strings {
  import opened Wrappers
  import opened Seqs

  /** The characters `str.isspace` accepts. */
  predicate IsSpace(c: char) {
    || c == ' '
    || '\t' <= c <= '\r'
    || '\U{1C}' <= c <= '\U{1F}'
    || c == '\U{85}' || c == '\U{A0}' || c == '\U{1680}'
    || '\U{2000}' <= c <= '\U{200A}'
    || c == '\U{2028}' || c == '\U{2029}' || c == '\U{202F}' || c == '\U{205F}' || c == '\U{3000}'
  }

  /** Neither end is whitespace. */
  predicate IsStripped(s: string) {
    |s| == 0 || (!IsSpace(s[0]) && !IsSpace(s[|s| - 1]))
  }

  function TrimStart(s: string): (r: string)
    ensures |r| == 0 || !IsSpace(r[0])
    ensures |r| <= |s|
    ensures r == s[|s| - |r|..]
    ensures forall k :: 0 <= k < |s| - |r| ==> IsSpace(s[k])
  {
    if |s| > 0 && IsSpace(s[0]) then TrimStart(s[1..]) else s
  }

  function TrimEnd(s: string): (r: string)
    ensures |r| == 0 || !IsSpace(r[|r| - 1])
    ensures |r| <= |s|
    ensures r == s[..|r|]
    ensures forall k :: |r| <= k < |s| ==> IsSpace(s[k])
  {
    if |s| > 0 && IsSpace(s[|s| - 1]) then TrimEnd(s[..|s| - 1]) else s
  }

  /** `s.strip()`: the longest slice of `s` with no whitespace at either end. */
  function Strip(s: string): (r: string)
    ensures IsStripped(r)
    ensures |r| <= |s|
    ensures IsStripped(s) ==> r == s
  {
    var t := TrimStart(s);
    var r := TrimEnd(t);
    assert |r| > 0 ==> r[0] == t[0];
    assert IsStripped(s) ==> t == s;
    assert IsStripped(t) ==> r == t;
    r
  }

  /** Stripping leaves nothing exactly when `s` is all whitespace: the blank cells. */
  lemma StripBlank(s: string)
    ensures Strip(s) == "" <==> forall k :: 0 <= k < |s| ==> IsSpace(s[k])
  {
    var t := TrimStart(s);
    assert |t| > 0 ==> |TrimEnd(t)| > 0;
    assert (forall k :: 0 <= k < |s| ==> IsSpace(s[k])) ==> |t| == 0 by {
      if |t| > 0 { assert t[0] == s[|s| - |t|]; }
    }
  }

  /** `c.upper()` for the ASCII letters. */
  function UpperChar(c: char): char {
    if 'a' <= c <= 'z' then (c as int - 32) as char else c
  }

  function Upper(s: string): (r: string)
    ensures |r| == |s| && forall i :: 0 <= i < |s| ==> r[i] == UpperChar(s[i])
  {
    seq(|s|, i requires 0 <= i < |s| => UpperChar(s[i]))
  }

  /** A string without lower-case ASCII letters is its own upper case. */
  lemma UpperOfUpperCase(s: string)
    requires forall i :: 0 <= i < |s| ==> !('a' <= s[i] <= 'z')
    ensures Upper(s) == s
  {
  }

  /** `s.startswith(prefix)`. */
  predicate StartsWith(s: string, prefix: string) {
    prefix <= s
  }

  /** Position of the first `c` in `s`, or `|s|` when there is none. */
  function IndexOf(s: string, c: char): (i: nat)
    ensures i <= |s|
    ensures i < |s| ==> s[i] == c
    ensures forall j :: 0 <= j < i ==> s[j] != c
  {
    if |s| == 0 || s[0] == c then 0 else IndexOf(s[1..], c) + 1
  }

  /** `s.split(c)`: one more part than there are separators. */
  function Split(s: string, c: char): (parts: seq<string>)
    ensures |parts| == multiset(s)[c] + 1
    ensures parts[0] == s[..IndexOf(s, c)]
    ensures IndexOf(s, c) < |s| ==> parts[1..] == Split(s[IndexOf(s, c) + 1..], c)
    decreases |s|
  {
    var i := IndexOf(s, c);
    if i == |s| then
      assert c !in multiset(s);
      [s]
    else
      assert s == s[..i] + [c] + s[i + 1..];
      assert c !in multiset(s[..i]);
      [s[..i]] + Split(s[i + 1..], c)
  }

  /** `sep.join(parts)`. */
  function Join(parts: seq<string>, sep: string): string {
    if |parts| == 0 then "" else if |parts| == 1 then parts[0] else parts[0] + sep + Join(parts[1..], sep)
  }

  predicate IsDigit(c: char) {
    '0' <= c <= '9'
  }

  function DigitChar(d: nat): (c: char)
    requires d < 10
    ensures IsDigit(c)
  {
    ('0' as int + d) as char
  }

  function DigitValue(c: char): (d: nat)
    requires IsDigit(c)
    ensures d < 10 && DigitChar(d) == c
  {
    c as int - '0' as int
  }

  /** The characters of `s` for which `str.isdigit` holds. */
  function Digits(s: string): (r: string)
    ensures forall i :: 0 <= i < |r| ==> IsDigit(r[i])
  {
    Filter(s, IsDigit)
  }

  /** `str(n)` for a natural number. */
  function NatToString(n: nat): (r: string)
    ensures |r| > 0
    ensures forall i :: 0 <= i < |r| ==> IsDigit(r[i])
  {
    if n < 10 then [DigitChar(n)] else NatToString(n / 10) + [DigitChar(n % 10)]
  }

  /** `str(n)`. */
  function IntToString(n: int): (r: string)
    ensures |r| > 0
  {
    if n < 0 then "-" + NatToString(-n) else NatToString(n)
  }

  /** `str(n)` of a single digit is that digit. */
  lemma SingleDigitString(n: int)
    requires 0 <= n < 10
    ensures IntToString(n) == [DigitChar(n)]
    ensures forall m :: 0 <= m < 10 && DigitChar(m) == DigitChar(n) ==> m == n
  {
  }

  /** The number a string of decimal digits denotes. */
  function DigitsValue(s: string): nat
    requires forall i :: 0 <= i < |s| ==> IsDigit(s[i])
  {
    if |s| == 0 then 0 else DigitsValue(s[..|s| - 1]) * 10 + DigitValue(s[|s| - 1])
  }

  /** What `int()` accepts after an optional sign: digits, single underscores between them. */
  predicate IsDigitGroups(s: string) {
    && |s| > 0
    && IsDigit(s[0]) && IsDigit(s[|s| - 1])
    && (forall i :: 0 <= i < |s| ==> IsDigit(s[i]) || s[i] == '_')
    && (forall i :: 0 <= i < |s| - 1 ==> s[i] == '_' ==> s[i + 1] != '_')
  }

  function ParseNat(s: string): (r: Option<nat>)
    ensures r.Some? <==> IsDigitGroups(s)
  {
    if IsDigitGroups(s) then Some(DigitsValue(Digits(s))) else None
  }

  /** `int(s)` on an already stripped string; `None` where Python raises `ValueError`. */
  function ParseInt(s: string): (r: Option<int>)
    ensures r.Some? ==> |s| > 0
  {
    if |s| == 0 then None
    else
      var signed := s[0] == '-' || s[0] == '+';
      match ParseNat(if signed then s[1..] else s)
      case Some(n) => Some(if s[0] == '-' then 0 - n else n)
      case None => None
  }

  lemma {:induction false} NatToStringValue(n: nat)
    ensures DigitsValue(NatToString(n)) == n
  {
    if n >= 10 {
      var r := NatToString(n);
      NatToStringValue(n / 10);
      assert r[..|r| - 1] == NatToString(n / 10);
    }
  }

  lemma NatToStringParses(m: nat)
    ensures ParseNat(NatToString(m)) == Some(m)
  {
    var digits := NatToString(m);
    FilterKeepsAll(digits, IsDigit);
    assert Digits(digits) == digits;
    NatToStringValue(m);
    assert IsDigitGroups(digits);
  }

  /** `int(str(n)) == n`. */
  lemma IntToStringRoundTrip(n: int)
    ensures ParseInt(IntToString(n)) == Some(n)
  {
    if n < 0 {
      NegativeRoundTrip(-n);
      assert IntToString(n) == "-" + NatToString(-n);
    } else {
      NonNegativeRoundTrip(n);
      assert IntToString(n) == NatToString(n);
    }
  }

  lemma NegativeRoundTrip(m: nat)
    ensures ParseInt("-" + NatToString(m)) == Some(0 - m)
  {
    NatToStringParses(m);
    ParseIntMinus(NatToString(m), m);
  }

  /** A leading minus negates what the rest parses to. */
  lemma ParseIntMinus(t: string, n: nat)
    requires ParseNat(t) == Some(n)
    ensures ParseInt("-" + t) == Some(0 - n)
  {
    var s := "-" + t;
    assert s[0] == '-' && s[1..] == t;
  }

  lemma NonNegativeRoundTrip(n: nat)
    ensures ParseInt(NatToString(n)) == Some(n)
  {
    var digits := NatToString(n);
    NatToStringParses(n);
    assert IsDigit(digits[0]);
  }

  lemma IntToStringStripped(n: int)
    ensures IsStripped(IntToString(n))
  {
    var r := IntToString(n);
    var digits := NatToString(if n < 0 then -n else n);
    assert IsDigit(digits[0]) && IsDigit(digits[|digits| - 1]);
    assert r[|r| - 1] == digits[|digits| - 1];
  }

  /** Python's `a <= b` on strings: code point by code point. */
  predicate LexLe(a: string, b: string) {
    if |a| == 0 then true
    else if |b| == 0 then false
    else if a[0] != b[0] then a[0] < b[0]
    else LexLe(a[1..], b[1..])
  }

  lemma {:induction false} LexLeTotal(a: string, b: string)
    ensures LexLe(a, b) || LexLe(b, a)
  {
    if |a| > 0 && |b| > 0 && a[0] == b[0] {
      LexLeTotal(a[1..], b[1..]);
    }
  }

  lemma {:induction false} LexLeAntisymmetric(a: string, b: string)
    requires LexLe(a, b) && LexLe(b, a)
    ensures a == b
  {
    if |a| > 0 && |b| > 0 {
      LexLeAntisymmetric(a[1..], b[1..]);
    }
  }

  lemma {:induction false} LexLeTransitive(a: string, b: string, c: string)
    requires LexLe(a, b) && LexLe(b, c)
    ensures LexLe(a, c)
  {
    if |a| > 0 && |b| > 0 && |c| > 0 && a[0] == b[0] && b[0] == c[0] {
      LexLeTransitive(a[1..], b[1..], c[1..]);
    }
  }
}
