/** Decimal integers as Python's `int(text)` reads them and `str(n)` writes them.
    Only the ASCII part is modelled: whitespace around the literal, an optional sign,
    and digits that may be grouped by single underscores (`"1_000"`). */
module Decimal {
  import opened Wrappers
  import opened Strings

  /** The ASCII characters that `int()` skips before and after a literal: those
      Python counts as whitespace, including the separators U+001C to U+001F. */
  const Whitespace: set<char> := {' ', '\t', '\n', '\r', '\U{000B}', '\U{000C}',
                                  '\U{001C}', '\U{001D}', '\U{001E}', '\U{001F}'}

  predicate IsDigit(c: char) {
    '0' <= c <= '9'
  }

  function DigitValue(c: char): nat
    requires IsDigit(c)
  {
    c as int - '0' as int
  }

  function DigitChar(d: nat): (c: char)
    requires d < 10
    ensures IsDigit(c) && DigitValue(c) == d
  {
    ('0' as int + d) as char
  }

  /** Digits, where a single `_` may stand between two digits. */
  predicate Grouped(s: string)
    decreases |s|
  {
    && |s| > 0 && IsDigit(s[0])
    && (|s| == 1 || if s[1] == '_' then Grouped(s[2..]) else Grouped(s[1..]))
  }

  /** The digits of `s`, underscores dropped. */
  function WithoutUnderscores(s: string): (r: string)
    ensures |r| <= |s|
    decreases |s|
  {
    if s == [] then [] else (if s[0] == '_' then [] else [s[0]]) + WithoutUnderscores(s[1..])
  }

  /** The value of a digit string, most significant digit first. */
  function DecValue(ds: string): nat
    requires forall i :: 0 <= i < |ds| ==> IsDigit(ds[i])
    decreases |ds|
  {
    if ds == [] then 0 else DecValue(ds[..|ds| - 1]) * 10 + DigitValue(ds[|ds| - 1])
  }

  /** `int(s)`: `None` stands for the ValueError. */
  function ParseInt(s: string): (r: Option<int>)
    ensures r.Some? ==> Strip(s, Whitespace) != []
  {
    ParseLiteral(Strip(s, Whitespace))
  }

  /** An optional sign followed by grouped digits. */
  function ParseLiteral(t: string): (r: Option<int>)
    ensures r.Some? ==> t != []
  {
    if |t| > 0 && t[0] == '-' then
      match ParseDigits(t[1..])
      case Some(v) => Some(-(v as int))
      case None => None
    else if |t| > 0 && t[0] == '+' then
      match ParseDigits(t[1..])
      case Some(v) => Some(v as int)
      case None => None
    else
      match ParseDigits(t)
      case Some(v) => Some(v as int)
      case None => None
  }

  function ParseDigits(b: string): (r: Option<nat>)
    ensures r.Some? <==> Grouped(b)
  {
    if Grouped(b) then
      GroupedDigits(b);
      Some(DecValue(WithoutUnderscores(b)))
    else None
  }

  /** `str(n)` for a natural number: no leading zeros. */
  function NatToString(n: nat): (r: string)
    ensures |r| > 0 && forall i :: 0 <= i < |r| ==> IsDigit(r[i])
    decreases n
  {
    if n < 10 then [DigitChar(n)] else NatToString(n / 10) + [DigitChar(n % 10)]
  }

  /** `str(i)`. */
  function IntToString(i: int): string {
    if i < 0 then "-" + NatToString(-i) else NatToString(i)
  }

  // ---------------------------------------------------------------------------

  lemma {:induction false} GroupedDigits(s: string)
    requires Grouped(s)
    ensures forall i :: 0 <= i < |WithoutUnderscores(s)| ==> IsDigit(WithoutUnderscores(s)[i])
    ensures forall i :: 0 <= i < |s| ==> IsDigit(s[i]) || s[i] == '_'
    decreases |s|
  {
    if |s| > 1 {
      if s[1] == '_' {
        GroupedDigits(s[2..]);
        assert WithoutUnderscores(s[1..]) == WithoutUnderscores(s[2..]);
      } else {
        GroupedDigits(s[1..]);
      }
    }
  }

  lemma {:induction false} DigitsGrouped(s: string)
    requires |s| > 0 && forall i :: 0 <= i < |s| ==> IsDigit(s[i])
    ensures Grouped(s) && WithoutUnderscores(s) == s
    decreases |s|
  {
    if |s| > 1 {
      DigitsGrouped(s[1..]);
    }
  }

  lemma {:induction false} NatToStringValue(n: nat)
    ensures DecValue(NatToString(n)) == n
    decreases n
  {
    if n >= 10 {
      var r := NatToString(n);
      assert r[..|r| - 1] == NatToString(n / 10);
      NatToStringValue(n / 10);
    }
  }

  /** Reading back what `str` wrote gives the number again. */
  lemma ParseIntRoundTrip(i: int)
    ensures ParseInt(IntToString(i)) == Some(i)
  {
    var n: nat := if i < 0 then -i else i;
    NatToStringValue(n);
    if i < 0 {
      ParseSigned(NatToString(n));
    } else {
      ParseUnsigned(NatToString(n));
    }
  }

  lemma ParseUnsigned(d: string)
    requires |d| > 0 && forall i :: 0 <= i < |d| ==> IsDigit(d[i])
    ensures ParseInt(d) == Some(DecValue(d) as int)
  {
    DigitsUnstripped(d);
    ParsePlainDigits(d);
  }

  lemma ParseSigned(d: string)
    requires |d| > 0 && forall i :: 0 <= i < |d| ==> IsDigit(d[i])
    ensures ParseInt("-" + d) == Some(-(DecValue(d) as int))
  {
    var s := "-" + d;
    assert s[1..] == d;
    DigitsUnstripped(s);
    ParsePlainDigits(d);
  }

  /** Digits, possibly signed, are not whitespace: `strip` leaves them alone. */
  lemma DigitsUnstripped(s: string)
    requires |s| > 0 && IsDigit(s[|s| - 1]) && (IsDigit(s[0]) || s[0] == '-')
    ensures Strip(s, Whitespace) == s
  {
    StripUnchanged(s, Whitespace);
  }

  lemma ParsePlainDigits(d: string)
    requires |d| > 0 && forall i :: 0 <= i < |d| ==> IsDigit(d[i])
    ensures ParseLiteral(d) == Some(DecValue(d) as int)
    ensures ParseLiteral("-" + d) == Some(-(DecValue(d) as int))
  {
    DigitsValue(d);
    assert ("-" + d)[1..] == d;
  }

  lemma DigitsValue(d: string)
    requires |d| > 0 && forall i :: 0 <= i < |d| ==> IsDigit(d[i])
    ensures ParseDigits(d) == Some(DecValue(d))
  {
    DigitsGrouped(d);
  }

  /** A character that is neither whitespace, sign, digit nor `_` makes `int` fail,
      wherever it stands. */
  lemma ParseIntRejectsForeign(s: string, k: nat)
    requires k < |s| && s[k] !in Whitespace && !IsDigit(s[k]) && s[k] !in {'+', '-', '_'}
    ensures ParseInt(s).None?
  {
    var l := LStrip(s, Whitespace);
    var t := RStrip(l, Whitespace);
    var j := k - (|s| - |l|);
    assert 0 <= j < |t| && t[j] == s[k];
    if |t| > 0 && (t[0] == '-' || t[0] == '+') {
      if Grouped(t[1..]) {
        GroupedDigits(t[1..]);
      }
    } else if Grouped(t) {
      GroupedDigits(t);
    }
  }

  /** Nothing but whitespace (the empty string included) is not a number. */
  lemma ParseIntBlank(s: string)
    requires forall i :: 0 <= i < |s| ==> s[i] in Whitespace
    ensures ParseInt(s) == None
  {
    StripEmptyIff(s, Whitespace);
  }
}
