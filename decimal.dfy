/**
 * Decimal text as JavaScript produces and reads it: the `${n}` rendering of a
 * non-negative integer (used for ports and domain ids in generated names) and
 * `parseInt(s, 10) || 0` (used for the listener id header).
 */
module Decimal {

  predicate IsDigit(c: char) {
    '0' <= c <= '9'
  }

  predicate AllDigits(s: string) {
    forall i :: 0 <= i < |s| ==> IsDigit(s[i])
  }

  function DigitValue(c: char): (d: nat)
    requires IsDigit(c)
    ensures d < 10
  {
    c as int - '0' as int
  }

  function DigitChar(d: nat): (c: char)
    requires d < 10
    ensures IsDigit(c) && DigitValue(c) == d
  {
    ('0' as int + d) as char
  }

  /** The decimal rendering of `n`: non-empty, digits only, no leading zero. */
  function NatToString(n: nat): (s: string)
    ensures |s| > 0 && AllDigits(s)
    ensures s[0] == '0' ==> n == 0
    decreases n
  {
    if n < 10 then [DigitChar(n)] else NatToString(n / 10) + [DigitChar(n % 10)]
  }

  /** The number a string of digits denotes (most significant digit first). */
  function DigitsValue(s: string): nat
    requires AllDigits(s)
    decreases |s|
  {
    if s == [] then 0 else DigitsValue(s[..|s| - 1]) * 10 + DigitValue(s[|s| - 1])
  }

  lemma {:induction false} DigitsValueOfNatToString(n: nat)
    ensures DigitsValue(NatToString(n)) == n
    decreases n
  {
    if n >= 10 {
      var s := NatToString(n);
      assert s[..|s| - 1] == NatToString(n / 10);
      DigitsValueOfNatToString(n / 10);
    }
  }

  /** Different numbers render differently, so names built from them do not collide. */
  lemma NatToStringInjective(a: nat, b: nat)
    ensures NatToString(a) == NatToString(b) ==> a == b
  {
    DigitsValueOfNatToString(a);
    DigitsValueOfNatToString(b);
  }

  /** The white space `parseInt` skips before the number (the ASCII part of it). */
  predicate IsSpace(c: char) {
    c == ' ' || '\t' <= c <= '\r'
  }

  function TrimLeadingSpace(s: string): (t: string)
    ensures |t| <= |s| && t == s[|s| - |t|..]
    ensures t == [] || !IsSpace(t[0])
    ensures forall i :: 0 <= i < |s| - |t| ==> IsSpace(s[i])
  {
    if s != [] && IsSpace(s[0]) then TrimLeadingSpace(s[1..]) else s
  }

  /** The longest prefix of `s` made of digits. */
  function DigitPrefix(s: string): (p: string)
    ensures AllDigits(p) && |p| <= |s| && p == s[..|p|]
    ensures |p| == |s| || !IsDigit(s[|p|])
  {
    if s != [] && IsDigit(s[0]) then [s[0]] + DigitPrefix(s[1..]) else []
  }

  /**
   * The reading of what follows the leading white space: an optional sign and
   * then the longest run of digits; trailing text is ignored, and no digits at
   * all (NaN) gives 0.
   */
  function ParseSigned(t: string): (n: int)
    ensures n != 0 ==> exists i :: 0 <= i < |t| && IsDigit(t[i])
  {
    var negative := t != [] && t[0] == '-';
    var unsigned := if t != [] && (t[0] == '-' || t[0] == '+') then t[1..] else t;
    var digits := DigitPrefix(unsigned);
    if digits == [] then 0
    else if negative then -(DigitsValue(digits) as int)
    else DigitsValue(digits)
  }

  /** `parseInt(s, 10) || 0`: skip leading white space, then read a signed number. */
  function ParseIntOrZero(s: string): (n: int)
    ensures s == [] ==> n == 0
    ensures n != 0 ==> exists i :: 0 <= i < |s| && IsDigit(s[i])
  {
    ParseSigned(TrimLeadingSpace(s))
  }

  lemma DigitPrefixOfDigits(s: string)
    requires AllDigits(s)
    ensures DigitPrefix(s) == s
  {
  }

  /** The digit run at the start of `d + rest` is `d` when `rest` does not go on with a digit. */
  lemma {:induction false} DigitPrefixOfAppend(d: string, rest: string)
    requires AllDigits(d) && (rest == [] || !IsDigit(rest[0]))
    ensures DigitPrefix(d + rest) == d
  {
    if d != [] {
      assert (d + rest)[1..] == d[1..] + rest;
      DigitPrefixOfAppend(d[1..], rest);
    }
  }

  /** Leading white space is skipped: it does not change the reading. */
  lemma ParseSkipsSpace(c: char, s: string)
    requires IsSpace(c)
    ensures ParseIntOrZero([c] + s) == ParseIntOrZero(s)
  {
    assert ([c] + s)[1..] == s;
    assert TrimLeadingSpace([c] + s) == TrimLeadingSpace(s);
  }

  /**
   * A header whose first character is neither white space, a sign nor a digit
   * is NaN for `parseInt`, so it reads as 0 whatever digits follow.
   */
  lemma ParseNoLeadingDigit(j: char, rest: string)
    requires !IsSpace(j) && !IsDigit(j) && j != '+' && j != '-'
    ensures ParseIntOrZero([j] + rest) == 0
  {
    assert TrimLeadingSpace([j] + rest) == [j] + rest;
  }

  lemma TrimNoSpace(s: string)
    requires s != [] && !IsSpace(s[0])
    ensures TrimLeadingSpace(s) == s
  {
  }

  lemma SignedNoDigitAfterSign(t: string)
    requires t != [] && (t[0] == '+' || t[0] == '-')
    requires t[1..] == [] || !IsDigit(t[1])
    ensures ParseSigned(t) == 0
  {
    assert DigitPrefix(t[1..]) == [];
  }

  /** A sign that no digit follows is NaN for `parseInt`, so it reads as 0 whatever follows. */
  lemma ParseSignNoDigit(sign: char, rest: string)
    requires sign == '+' || sign == '-'
    requires rest == [] || !IsDigit(rest[0])
    ensures ParseIntOrZero([sign] + rest) == 0
  {
    var s := [sign] + rest;
    assert s[1..] == rest;
    TrimNoSpace(s);
    SignedNoDigitAfterSign(s);
  }

  /** A plus sign before a rendered number reads as the number itself. */
  lemma ParsePlus(n: nat)
    ensures ParseIntOrZero(['+'] + NatToString(n)) == n
  {
    var s := ['+'] + NatToString(n);
    assert TrimLeadingSpace(s) == s;
    assert s[1..] == NatToString(n);
    DigitPrefixOfDigits(NatToString(n));
    DigitsValueOfNatToString(n);
  }

  /** Text after the digits is ignored: a rendered number followed by a non-digit reads as the number. */
  lemma ParseTrailingIgnored(n: nat, rest: string)
    requires rest == [] || !IsDigit(rest[0])
    ensures ParseIntOrZero(NatToString(n) + rest) == n
  {
    var s := NatToString(n) + rest;
    assert TrimLeadingSpace(s) == s;
    assert s[0] != '-' && s[0] != '+';
    DigitPrefixOfAppend(NatToString(n), rest);
    DigitsValueOfNatToString(n);
  }

  /** A string of digits is read as the number it denotes. */
  lemma ParseDigits(s: string)
    requires s != [] && AllDigits(s)
    ensures ParseIntOrZero(s) == DigitsValue(s)
  {
    assert TrimLeadingSpace(s) == s;
    assert s[0] != '-' && s[0] != '+';
    DigitPrefixOfDigits(s);
  }

  /** Reading back a rendered number gives the number. */
  lemma ParseNatToString(n: nat)
    ensures ParseIntOrZero(NatToString(n)) == n
  {
    ParseDigits(NatToString(n));
    DigitsValueOfNatToString(n);
  }

  /** A minus sign before a rendered number reads as its negation, so for `n > 0` it is never the global id 0. */
  lemma ParseNegative(n: nat)
    ensures ParseIntOrZero(['-'] + NatToString(n)) == -(n as int)
  {
    var s := ['-'] + NatToString(n);
    assert TrimLeadingSpace(s) == s;
    assert s[1..] == NatToString(n);
    DigitPrefixOfDigits(NatToString(n));
    DigitsValueOfNatToString(n);
  }
}
