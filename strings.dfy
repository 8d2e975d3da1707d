/** Text helpers standing in for the JavaScript string operations the clients use:
    `String(n)`, `padStart(2, '0')`, `toLowerCase()`, `trim()`, `startsWith` and
    the trailing-slash `replace(/\/$/, "")`. */
module Strings {

  predicate IsDigit(c: char) {
    '0' <= c <= '9'
  }

  predicate AllDigits(s: string) {
    forall i :: 0 <= i < |s| ==> IsDigit(s[i])
  }

  function DigitChar(d: nat): (c: char)
    requires d < 10
    ensures IsDigit(c) && c as int - '0' as int == d
  {
    ('0' as int + d) as char
  }

  function DigitValue(c: char): nat
    requires IsDigit(c)
  {
    c as int - '0' as int
  }

  /** Decimal text of a non-negative integer, as `String(n)` prints it. */
  function NatToString(n: nat): (s: string)
    ensures |s| >= 1 && AllDigits(s)
    ensures n < 10 <==> |s| == 1
    ensures n < 100 ==> |s| <= 2
    ensures s[0] == '0' ==> n == 0
  {
    if n < 10 then [DigitChar(n)] else NatToString(n / 10) + [DigitChar(n % 10)]
  }

  /** Value of a string of decimal digits (leading zeros allowed). */
  function ParseNat(s: string): nat
    requires AllDigits(s)
  {
    if s == [] then 0 else ParseNat(s[..|s| - 1]) * 10 + DigitValue(s[|s| - 1])
  }

  lemma {:induction false} ParseNatToString(n: nat)
    ensures ParseNat(NatToString(n)) == n
  {
    if n >= 10 {
      var s := NatToString(n);
      assert s[..|s| - 1] == NatToString(n / 10);
      ParseNatToString(n / 10);
    }
  }

  lemma {:induction false} ParseNatLeadingZero(s: string)
    requires AllDigits(s)
    ensures AllDigits("0" + s) && ParseNat("0" + s) == ParseNat(s)
  {
    if s != [] {
      assert ("0" + s)[..|"0" + s| - 1] == "0" + s[..|s| - 1];
      ParseNatLeadingZero(s[..|s| - 1]);
    }
  }

  /** `String(n).padStart(2, '0')`: at least two digits, zero-filled on the left. */
  function Pad2(n: nat): (s: string)
    ensures AllDigits(s) && |s| >= 2
    ensures n < 100 ==> |s| == 2
    ensures ParseNat(s) == n
    ensures n < 10 ==> s == "0" + NatToString(n)
    ensures n >= 10 ==> s == NatToString(n)
  {
    var t := NatToString(n);
    ParseNatToString(n);
    if |t| < 2 then ParseNatLeadingZero(t); "0" + t else t
  }

  function LowerChar(c: char): char {
    if 'A' <= c <= 'Z' then (c as int + 32) as char else c
  }

  /** `toLowerCase()` restricted to the ASCII letters. */
  function ToLowerAscii(s: string): (r: string)
    ensures |r| == |s|
    ensures forall i :: 0 <= i < |s| ==> r[i] == LowerChar(s[i])
    ensures forall i :: 0 <= i < |r| ==> !('A' <= r[i] <= 'Z')
  {
    seq(|s|, i requires 0 <= i < |s| => LowerChar(s[i]))
  }

  /** The characters JavaScript's `trim()` removes: WhiteSpace and LineTerminator. */
  predicate IsSpace(c: char) {
    c in SPACE_CHARS || '\U{2000}' <= c <= '\U{200A}'
  }

  /** The white space characters outside the range U+2000..U+200A. */
  const SPACE_CHARS: set<char> := {
    ' ', '\t', '\n', '\r', '\U{000B}', '\U{000C}', '\U{00A0}', '\U{1680}',
    '\U{2028}', '\U{2029}', '\U{202F}', '\U{205F}', '\U{3000}', '\U{FEFF}' }

  /** No white space at either end. */
  predicate IsTrimmed(s: string) {
    s == [] || (!IsSpace(s[0]) && !IsSpace(s[|s| - 1]))
  }

  /** All characters of `s` are white space. */
  predicate AllSpace(s: string) {
    forall k :: 0 <= k < |s| ==> IsSpace(s[k])
  }

  /** How many white space characters `s` starts with. */
  function LeadingSpaces(s: string): (n: nat)
    ensures n <= |s| && forall k :: 0 <= k < n ==> IsSpace(s[k])
    ensures n < |s| ==> !IsSpace(s[n])
  {
    if s != [] && IsSpace(s[0]) then 1 + LeadingSpaces(s[1..]) else 0
  }

  /** How many white space characters `s` ends with. */
  function TrailingSpaces(s: string): (n: nat)
    ensures n <= |s| && forall k :: |s| - n <= k < |s| ==> IsSpace(s[k])
    ensures n < |s| ==> !IsSpace(s[|s| - 1 - n])
  {
    if s != [] && IsSpace(s[|s| - 1]) then 1 + TrailingSpaces(s[..|s| - 1]) else 0
  }

  /** The white space run at the start of `s` is exactly `i` long. */
  lemma LeadingSpacesAt(s: string, i: nat)
    requires i <= |s| && (forall k :: 0 <= k < i ==> IsSpace(s[k])) && (i < |s| ==> !IsSpace(s[i]))
    ensures LeadingSpaces(s) == i
  {
  }

  /** The white space run at the end of `s` is exactly `j` long. */
  lemma TrailingSpacesAt(s: string, j: nat)
    requires j <= |s| && (forall k :: |s| - j <= k < |s| ==> IsSpace(s[k])) && (j < |s| ==> !IsSpace(s[|s| - 1 - j]))
    ensures TrailingSpaces(s) == j
  {
  }

  /** `r` is what is left of `s` when the white space before index `i` and after
      `r` is removed. */
  predicate SurroundedBySpace(s: string, r: string, i: int) {
    && 0 <= i <= |s| - |r| && r == s[i..i + |r|]
    && (forall k :: 0 <= k < i ==> IsSpace(s[k]))
    && (forall k :: i + |r| <= k < |s| ==> IsSpace(s[k]))
  }

  /** `trim()`: the middle part of `s` that is left once the white space at both ends
      is removed; nothing else is removed. */
  function Trim(s: string): (r: string)
    ensures IsTrimmed(r)
    ensures exists i :: SurroundedBySpace(s, r, i)
  {
    var a := LeadingSpaces(s);
    var t := s[a..];
    var b := TrailingSpaces(t);
    var r := t[..|t| - b];
    assert r != [] ==> r[0] == s[a] && r[|r| - 1] == t[|t| - 1 - b];
    assert r == s[a..a + |r|];
    assert forall k :: a + |r| <= k < |s| ==> s[k] == t[k - a];
    assert SurroundedBySpace(s, r, a);
    r
  }

  /** A trimmed string with only white space around it is what `trim()` returns. */
  lemma TrimUnique(s: string, r: string, i: int)
    requires SurroundedBySpace(s, r, i) && IsTrimmed(r)
    ensures Trim(s) == r
  {
    if r == [] {
      LeadingSpacesAt(s, |s|);
    } else {
      assert s[i] == r[0];
      LeadingSpacesAt(s, i);
      var t := s[i..];
      var j := |s| - i - |r|;
      assert forall k :: |t| - j <= k < |t| ==> t[k] == s[i + k];
      assert t[|t| - 1 - j] == r[|r| - 1];
      TrailingSpacesAt(t, j);
      assert t[..|t| - j] == r;
    }
  }

  lemma TrimOfTrimmed(s: string)
    requires IsTrimmed(s)
    ensures Trim(s) == s
  {
    assert SurroundedBySpace(s, s, 0);
    TrimUnique(s, s, 0);
  }

  lemma TrimIdempotent(s: string)
    ensures Trim(Trim(s)) == Trim(s)
  {
    TrimOfTrimmed(Trim(s));
  }

  /** Any white space around a trimmed string is exactly what `trim()` removes. */
  lemma TrimSurrounded(lead: string, r: string, trail: string)
    requires AllSpace(lead) && AllSpace(trail) && IsTrimmed(r)
    ensures Trim(lead + r + trail) == r
  {
    var s := lead + r + trail;
    assert s[|lead|..|lead| + |r|] == r;
    assert forall k :: 0 <= k < |lead| ==> s[k] == lead[k];
    assert forall k :: |lead| + |r| <= k < |s| ==> s[k] == trail[k - |lead| - |r|];
    TrimUnique(s, r, |lead|);
  }

  predicate StartsWith(s: string, prefix: string) {
    prefix <= s
  }

  /** `url.replace(/\/$/, "")`: removes one '/' at the very end, if there is one. */
  function StripTrailingSlash(url: string): (r: string)
    ensures |url| - 1 <= |r| <= |url| && r == url[..|r|]
    ensures |r| < |url| <==> (url != [] && url[|url| - 1] == '/')
  {
    if url != [] && url[|url| - 1] == '/' then url[..|url| - 1] else url
  }

  lemma StripTrailingSlashOnce(u: string)
    requires u == [] || u[|u| - 1] != '/'
    ensures StripTrailingSlash(u + "/") == u && StripTrailingSlash(u) == u
  {
    assert (u + "/")[..|u|] == u;
  }
}
