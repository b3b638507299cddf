/** Character classes and small string operations that several source files
    rely on: JavaScript's `\d`, `\s` and `trim`, the hexadecimal digits of a
    UUID, decimal rendering of a number (`toString`) and its inverse. */
module Text {

  predicate IsDigit(c: char) { '0' <= c <= '9' }

  predicate IsHexDigit(c: char) {
    IsDigit(c) || 'a' <= c <= 'f' || 'A' <= c <= 'F'
  }

  /** The characters JavaScript's `trim` removes and its regex `\s` matches:
      WhiteSpace and LineTerminator of ECMAScript (section 12.2 and 12.3 of ECMA-262). */
  predicate IsJsSpace(c: char) {
    || '\t' <= c <= '\r'
    || c == ' ' || c == '\U{A0}' || c == '\U{1680}'
    || '\U{2000}' <= c <= '\U{200A}'
    || c == '\U{2028}' || c == '\U{2029}' || c == '\U{202F}' || c == '\U{205F}'
    || c == '\U{3000}' || c == '\U{FEFF}'
  }

  predicate AllDigits(s: string) {
    forall k :: 0 <= k < |s| ==> IsDigit(s[k])
  }

  /** `s.trimStart()`: the text without its leading spaces. */
  function TrimStart(s: string): string {
    if s != [] && IsJsSpace(s[0]) then TrimStart(s[1..]) else s
  }

  /** `s.trimEnd()`: the text without its trailing spaces. */
  function TrimEnd(s: string): string {
    if s != [] && IsJsSpace(s[|s| - 1]) then TrimEnd(s[..|s| - 1]) else s
  }

  /** `trimStart` leaves the longest suffix that does not begin with a space. */
  lemma {:induction false} TrimStartSpec(s: string)
    ensures |TrimStart(s)| <= |s| && TrimStart(s) == s[|s| - |TrimStart(s)|..]
    ensures TrimStart(s) == [] || !IsJsSpace(TrimStart(s)[0])
    ensures forall k :: 0 <= k < |s| - |TrimStart(s)| ==> IsJsSpace(s[k])
  {
    if s != [] && IsJsSpace(s[0]) {
      var r := TrimStart(s[1..]);
      TrimStartSpec(s[1..]);
      assert s[1..][|s| - 1 - |r|..] == s[|s| - |r|..];
      assert forall k :: 1 <= k < |s| - |r| ==> s[k] == s[1..][k - 1];
    }
  }

  /** `trimEnd` leaves the longest prefix that does not end with a space. */
  lemma {:induction false} TrimEndSpec(s: string)
    ensures |TrimEnd(s)| <= |s| && TrimEnd(s) == s[..|TrimEnd(s)|]
    ensures TrimEnd(s) == [] || !IsJsSpace(TrimEnd(s)[|TrimEnd(s)| - 1])
    ensures forall k :: |TrimEnd(s)| <= k < |s| ==> IsJsSpace(s[k])
  {
    if s != [] && IsJsSpace(s[|s| - 1]) {
      var r := TrimEnd(s[..|s| - 1]);
      TrimEndSpec(s[..|s| - 1]);
      assert s[..|s| - 1][..|r|] == s[..|r|];
      assert forall k :: |r| <= k < |s| - 1 ==> s[k] == s[..|s| - 1][k];
    }
  }

  /** `s.trim()` */
  function Trim(s: string): string {
    TrimEnd(TrimStart(s))
  }

  /** `String(s).replace(/[^0-9]/g, '')`: the digits of `s`, in order. */
  function DigitsOf(s: string): (r: string)
    ensures AllDigits(r) && |r| <= |s|
  {
    if s == [] then []
    else if IsDigit(s[0]) then [s[0]] + DigitsOf(s[1..])
    else DigitsOf(s[1..])
  }

  lemma {:induction false} DigitsOfDigits(s: string)
    requires AllDigits(s)
    ensures DigitsOf(s) == s
  {
    if s != [] {
      DigitsOfDigits(s[1..]);
    }
  }

  /** The leading decimal digits of `s`. */
  function LeadingDigits(s: string): (r: string)
    ensures AllDigits(r) && |r| <= |s| && r == s[..|r|]
    ensures |r| < |s| ==> !IsDigit(s[|r|])
  {
    if s != [] && IsDigit(s[0]) then [s[0]] + LeadingDigits(s[1..]) else []
  }

  function DigitChar(d: nat): (c: char)
    requires d < 10
    ensures IsDigit(c)
  {
    ('0' as int + d) as char
  }

  function DigitValue(c: char): (d: nat)
    requires IsDigit(c)
    ensures d < 10 && DigitChar(d) == c
  {
    (c - '0') as nat
  }

  /** Value of a string of decimal digits (leading zeros allowed). */
  function DigitsValue(s: string): nat
    requires AllDigits(s)
  {
    if s == [] then 0 else DigitsValue(s[..|s| - 1]) * 10 + DigitValue(s[|s| - 1])
  }

  /** `n.toString()` for a non-negative integer. */
  function NatToString(n: nat): (r: string)
    ensures |r| >= 1 && AllDigits(r)
  {
    if n < 10 then [DigitChar(n)] else NatToString(n / 10) + [DigitChar(n % 10)]
  }

  lemma {:induction false} NatToStringRoundTrip(n: nat)
    ensures DigitsValue(NatToString(n)) == n
  {
    var s := NatToString(n);
    if n >= 10 {
      NatToStringRoundTrip(n / 10);
      assert s[..|s| - 1] == NatToString(n / 10);
      assert DigitValue(s[|s| - 1]) == n % 10;
    }
  }

  lemma {:induction false} FourDigitNumbers(n: nat)
    requires 1000 <= n <= 9999
    ensures |NatToString(n)| == 4 && NatToString(n)[0] != '0'
  {
    var a := n / 10;
    var b := a / 10;
    var c := b / 10;
    assert 1 <= c <= 9 && 10 <= b < 100 && 100 <= a < 1000;
    assert NatToString(c) == [DigitChar(c)];
    assert NatToString(b) == NatToString(c) + [DigitChar(b % 10)];
    assert NatToString(a) == NatToString(b) + [DigitChar(a % 10)];
    assert NatToString(n) == NatToString(a) + [DigitChar(n % 10)];
    assert DigitChar(c) != '0';
  }

  predicate AllHex(s: string) {
    forall k :: 0 <= k < |s| ==> IsHexDigit(s[k])
  }

  /** `/^[0-9a-f]{8}-[0-9a-f]{4}-[0-9a-f]{4}-[0-9a-f]{4}-[0-9a-f]{12}$/i`: the
      8-4-4-4-12 hexadecimal text layout of section 3 of RFC 4122, letters in
      either case, without any check of the version or variant digits. */
  predicate IsUuid(s: string) {
    && |s| == 36
    && forall k :: 0 <= k < 36 ==>
         if k == 8 || k == 13 || k == 18 || k == 23 then s[k] == '-' else IsHexDigit(s[k])
  }

  /** Where the pieces of `a-b-c-d-e` sit in the joined text. */
  lemma GroupPositions(a: string, b: string, c: string, d: string, e: string)
    ensures var s := a + "-" + b + "-" + c + "-" + d + "-" + e;
      var p1, p2, p3, p4 := |a|, |a| + 1 + |b|, |a| + |b| + |c| + 2, |a| + |b| + |c| + |d| + 3;
      && |s| == p4 + 1 + |e|
      && s[p1] == '-' && s[p2] == '-' && s[p3] == '-' && s[p4] == '-'
      && (forall k :: 0 <= k < p1 ==> s[k] == a[k])
      && (forall k :: p1 < k < p2 ==> s[k] == b[k - p1 - 1])
      && (forall k :: p2 < k < p3 ==> s[k] == c[k - p2 - 1])
      && (forall k :: p3 < k < p4 ==> s[k] == d[k - p3 - 1])
      && (forall k :: p4 < k < |s| ==> s[k] == e[k - p4 - 1])
  {
  }

  /** Reading the layout as five dash-separated groups of hexadecimal digits:
      such a text is a UUID exactly when the groups have 8, 4, 4, 4 and 12 digits. */
  lemma UuidGroups(a: string, b: string, c: string, d: string, e: string)
    requires AllHex(a) && AllHex(b) && AllHex(c) && AllHex(d) && AllHex(e)
    ensures IsUuid(a + "-" + b + "-" + c + "-" + d + "-" + e)
        <==> |a| == 8 && |b| == 4 && |c| == 4 && |d| == 4 && |e| == 12
  {
    GroupPositions(a, b, c, d, e);
  }
}
