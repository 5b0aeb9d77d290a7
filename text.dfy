/**
 * The JavaScript string built-ins that the application's logic leans on,
 * over `string` (a sequence of Unicode scalar values): `includes`, the
 * ASCII part of `toLowerCase` and `toUpperCase`, `trim`, and the decimal
 * rendering of a non-negative integer inside a template literal, with the
 * parsing that undoes it.
 */
module Text {

  // ----- String.prototype.includes -----

  /** `t` occurs in `s` starting at position `i`. */
  ghost predicate OccursAt(s: string, t: string, i: int) {
    0 <= i && i + |t| <= |s| && s[i..i + |t|] == t
  }

  /** `s.includes(t)`: tries the start positions of `s` from left to right. */
  function Includes(s: string, t: string): bool
    decreases |s|
  {
    if |t| > |s| then false
    else if s[..|t|] == t then true
    else Includes(s[1..], t)
  }

  /** `Includes` answers exactly whether `t` occurs somewhere in `s`. */
  lemma {:induction false} IncludesIff(s: string, t: string)
    ensures Includes(s, t) <==> exists i :: OccursAt(s, t, i)
    decreases |s|
  {
    if |t| > |s| {
    } else if s[..|t|] == t {
      assert OccursAt(s, t, 0);
    } else {
      IncludesIff(s[1..], t);
      if Includes(s[1..], t) {
        var i :| OccursAt(s[1..], t, i);
        assert s[1..][i..i + |t|] == s[i + 1..i + 1 + |t|];
        assert OccursAt(s, t, i + 1);
      }
      if exists i :: OccursAt(s, t, i) {
        var i :| OccursAt(s, t, i);
        assert i != 0;
        assert s[1..][i - 1..i - 1 + |t|] == s[i..i + |t|];
        assert OccursAt(s[1..], t, i - 1);
      }
    }
  }

  /** A string always includes each of its infixes, the empty one among them. */
  lemma IncludesInfix(a: string, t: string, b: string)
    ensures Includes(a + t + b, t)
  {
    assert (a + t + b)[|a|..|a| + |t|] == t;
    assert OccursAt(a + t + b, t, |a|);
    IncludesIff(a + t + b, t);
  }

  // ----- toLowerCase / toUpperCase (ASCII letters) -----

  /** The lower-case form of an ASCII capital; every other character is kept. */
  function LowerChar(c: char): char {
    if 'A' <= c <= 'Z' then (c as int + 32) as char else c
  }

  /** The upper-case form of an ASCII small letter; every other character is kept. */
  function UpperChar(c: char): char {
    if 'a' <= c <= 'z' then (c as int - 32) as char else c
  }

  function ToLower(s: string): string {
    seq(|s|, i requires 0 <= i < |s| => LowerChar(s[i]))
  }

  /** Lower-casing works character by character, so it distributes over concatenation. */
  lemma ToLowerConcat(a: string, b: string)
    ensures ToLower(a + b) == ToLower(a) + ToLower(b)
  {
    assert forall i :: 0 <= i < |a| ==> (a + b)[i] == a[i];
    assert forall i :: |a| <= i < |a| + |b| ==> (a + b)[i] == b[i - |a|];
  }

  /** Lower-casing twice is lower-casing once. */
  lemma ToLowerIdempotent(s: string)
    ensures ToLower(ToLower(s)) == ToLower(s)
  {
  }

  // ----- String.prototype.trim -----

  /** ECMAScript's WhiteSpace and LineTerminator code points: what `trim` strips. */
  predicate IsWhitespace(c: char) {
    || c == '\t' || c == '\n' || c == '\U{000B}' || c == '\U{000C}' || c == '\r'
    || c == ' ' || c == '\U{00A0}' || c == '\U{1680}' || '\U{2000}' <= c <= '\U{200A}'
    || c == '\U{2028}' || c == '\U{2029}' || c == '\U{202F}' || c == '\U{205F}'
    || c == '\U{3000}' || c == '\U{FEFF}'
  }

  ghost predicate Blank(s: string) {
    forall i :: 0 <= i < |s| ==> IsWhitespace(s[i])
  }

  function TrimStart(s: string): (r: string)
    ensures r == [] || !IsWhitespace(r[0])
    ensures r == [] <==> Blank(s)
    ensures exists k :: 0 <= k <= |s| && r == s[k..] && Blank(s[..k])
  {
    if |s| > 0 && IsWhitespace(s[0]) then
      var r := TrimStart(s[1..]);
      assert Blank(s) <==> Blank(s[1..]) by {
        assert forall i :: 1 <= i < |s| ==> s[i] == s[1..][i - 1];
      }
      TrimStartStep(s, r);
      r
    else
      assert s == s[0..] && Blank(s[..0]);
      s
  }

  function TrimEnd(s: string): (r: string)
    ensures r == [] <==> Blank(s)
    ensures exists k :: 0 <= k <= |s| && r == s[..k] && Blank(s[k..])
  {
    if |s| > 0 && IsWhitespace(s[|s| - 1]) then
      var r := TrimEnd(s[..|s| - 1]);
      assert Blank(s) <==> Blank(s[..|s| - 1]) by {
        assert forall i :: 0 <= i < |s| - 1 ==> s[i] == s[..|s| - 1][i];
      }
      TrimEndStep(s, s[..|s| - 1], r);
      r
    else
      assert s == s[..|s|] && Blank(s[|s|..]);
      s
  }

  /** Trimming one more leading white-space character still trims a prefix of white space. */
  lemma TrimStartStep(s: string, r: string)
    requires |s| > 0 && IsWhitespace(s[0])
    requires exists k :: 0 <= k <= |s[1..]| && r == s[1..][k..] && Blank(s[1..][..k])
    ensures exists k :: 0 <= k <= |s| && r == s[k..] && Blank(s[..k])
  {
    var k :| 0 <= k <= |s[1..]| && r == s[1..][k..] && Blank(s[1..][..k]);
    assert s[k + 1..] == s[1..][k..];
    var pre, rest := s[..k + 1], s[1..][..k];
    forall i | 0 <= i < |pre| ensures IsWhitespace(pre[i]) {
      if i > 0 {
        assert pre[i] == rest[i - 1];
      }
    }
  }

  /** Trimming one more trailing white-space character still trims a suffix of white space. */
  lemma TrimEndStep(s: string, init: string, r: string)
    requires |s| > 0 && IsWhitespace(s[|s| - 1]) && init == s[..|s| - 1]
    requires exists k :: 0 <= k <= |init| && r == init[..k] && Blank(init[k..])
    ensures exists k :: 0 <= k <= |s| && r == s[..k] && Blank(s[k..])
  {
    var k :| 0 <= k <= |init| && r == init[..k] && Blank(init[k..]);
    assert s[..k] == init[..k];
    var post, rest := s[k..], init[k..];
    forall i | 0 <= i < |post| ensures IsWhitespace(post[i]) {
      if i < |rest| {
        assert post[i] == rest[i];
      }
    }
  }

  /** `s.trim()`. */
  function Trim(s: string): string {
    TrimEnd(TrimStart(s))
  }

  /** Trimming leaves nothing exactly when every character is white space. */
  lemma TrimEmptyIffBlank(s: string)
    ensures Trim(s) == [] <==> Blank(s)
  {
    var t := TrimStart(s);
    assert t != [] ==> !Blank(t);
  }

  // ----- decimal numerals -----

  predicate IsDigit(c: char) {
    '0' <= c <= '9'
  }

  predicate AllDigits(s: string) {
    forall i :: 0 <= i < |s| ==> IsDigit(s[i])
  }

  function DigitChar(d: nat): (c: char)
    requires d < 10
    ensures IsDigit(c) && c as int - '0' as int == d
  {
    ('0' as int + d) as char
  }

  function DigitValue(c: char): nat
    requires IsDigit(c)
  {
    c as int - '0' as int
  }

  /** The decimal numeral of `n`, as a template literal renders a non-negative integer. */
  function NatToString(n: nat): string
    decreases n
  {
    if n < 10 then [DigitChar(n)] else NatToString(n / 10) + [DigitChar(n % 10)]
  }

  /** The value of a numeral (the empty numeral reads as 0). */
  function ParseNat(s: string): nat
    requires AllDigits(s)
  {
    if s == [] then 0 else 10 * ParseNat(s[..|s| - 1]) + DigitValue(s[|s| - 1])
  }

  /** Every numeral is a non-empty string of digits that parses back to its number. */
  lemma {:induction false} NatToStringRoundTrip(n: nat)
    ensures |NatToString(n)| >= 1 && AllDigits(NatToString(n))
    ensures ParseNat(NatToString(n)) == n
    decreases n
  {
    if n >= 10 {
      NatToStringRoundTrip(n / 10);
      var s := NatToString(n);
      assert s[..|s| - 1] == NatToString(n / 10);
    }
  }

  /** Different numbers have different numerals. */
  lemma NatToStringInjective(m: nat, n: nat)
    ensures NatToString(m) == NatToString(n) ==> m == n
  {
    NatToStringRoundTrip(m);
    NatToStringRoundTrip(n);
  }

  /** The number of leading digits of `s`. */
  function DigitRun(s: string): (k: nat)
    ensures k <= |s| && AllDigits(s[..k]) && (k < |s| ==> !IsDigit(s[k]))
  {
    if s != [] && IsDigit(s[0]) then
      var k := 1 + DigitRun(s[1..]);
      assert forall i :: 1 <= i < k ==> s[..k][i] == s[1..][..k - 1][i - 1];
      k
    else 0
  }

  /** The run of leading digits of a numeral followed by a non-digit is that numeral. */
  lemma DigitRunAfterNumeral(d: string, rest: string)
    requires AllDigits(d)
    requires rest == [] || !IsDigit(rest[0])
    ensures DigitRun(d + rest) == |d|
    ensures (d + rest)[..|d|] == d
  {
    var s := d + rest;
    var k := DigitRun(s);
  }

  /** The number at the start of `s`. */
  function LeadingNat(s: string): nat {
    ParseNat(s[..DigitRun(s)])
  }

  /** The number at the start of a numeral followed by a non-digit is that numeral's number. */
  lemma LeadingNatOfNumeral(n: nat, rest: string)
    requires rest == [] || !IsDigit(rest[0])
    ensures DigitRun(NatToString(n) + rest) == |NatToString(n)|
    ensures LeadingNat(NatToString(n) + rest) == n
  {
    NatToStringRoundTrip(n);
    DigitRunAfterNumeral(NatToString(n), rest);
  }
}
