/**
 * The decimal rendering of an integer, together with the parser that inverts
 * it. For integral JavaScript numbers of magnitude below 2^53 this is what a
 * template literal such as `${n}` produces.
 */
module Decimal {
  import opened Wrappers

  predicate IsDigit(c: char)
  {
    '0' <= c <= '9'
  }

  predicate AllDigits(s: string)
  {
    forall i :: 0 <= i < |s| ==> IsDigit(s[i])
  }

  function DigitChar(d: nat): (c: char)
    requires d < 10
    ensures IsDigit(c) && c as int - '0' as int == d
  {
    ('0' as int + d) as char
  }

  function DigitValue(c: char): (d: nat)
    requires IsDigit(c)
    ensures d < 10 && DigitChar(d) == c
  {
    c as int - '0' as int
  }

  /** The digits of `n`, most significant first, without leading zeros. */
  function NatToDigits(n: nat): (s: string)
    ensures |s| >= 1 && AllDigits(s)
    ensures s[0] == '0' ==> n == 0 && s == "0"
    ensures n >= 10 <==> |s| > 1
  {
    if n < 10 then [DigitChar(n)] else NatToDigits(n / 10) + [DigitChar(n % 10)]
  }

  /** The value of a string of decimal digits, most significant first. */
  function DigitsToNat(s: string): nat
    requires AllDigits(s)
  {
    if s == [] then 0 else DigitsToNat(s[..|s| - 1]) * 10 + DigitValue(s[|s| - 1])
  }

  lemma {:induction false} DigitsRoundTrip(n: nat)
    ensures DigitsToNat(NatToDigits(n)) == n
  {
    if n >= 10 {
      var s := NatToDigits(n);
      assert s[..|s| - 1] == NatToDigits(n / 10);
      DigitsRoundTrip(n / 10);
    }
  }

  /** A digit string in canonical form: non-empty, and no leading zero unless it is "0". */
  predicate IsCanonicalDigits(s: string)
  {
    |s| >= 1 && AllDigits(s) && (s[0] == '0' ==> s == "0")
  }

  /** The canonical form of an integer's decimal text: canonical digits,
      optionally preceded by a minus sign that is never followed by "0". */
  predicate IsCanonicalInt(s: string)
  {
    || IsCanonicalDigits(s)
    || (|s| >= 2 && s[0] == '-' && IsCanonicalDigits(s[1..]) && s[1] != '0')
  }

  /** The exact decimal text of `n`: an optional minus sign, then digits. It is
      `${n}` for integral numbers of magnitude below 2^53. */
  function IntToString(n: int): (s: string)
    ensures |s| >= 1
    ensures s[0] == '-' <==> n < 0
    ensures n >= 0 ==> AllDigits(s) && (s[0] == '0' ==> s == "0")
    ensures n < 0 ==> |s| >= 2 && AllDigits(s[1..]) && s[1] != '0'
    ensures IsCanonicalInt(s)
  {
    if n < 0 then
      var s := "-" + NatToDigits(-n);
      assert s[1..] == NatToDigits(-n);
      s
    else NatToDigits(n)
  }

  /** Reads an optionally signed decimal integer; `None` for anything else. */
  function ParseInt(s: string): Option<int>
  {
    if |s| >= 2 && s[0] == '-' && AllDigits(s[1..]) then Some(0 - DigitsToNat(s[1..]) as int)
    else if |s| >= 1 && AllDigits(s) then Some(DigitsToNat(s) as int)
    else None
  }

  lemma IntToStringRoundTrip(n: int)
    ensures ParseInt(IntToString(n)) == Some(n)
  {
    var s := IntToString(n);
    if n < 0 {
      assert s[1..] == NatToDigits(-n);
      DigitsRoundTrip(-n);
    } else {
      DigitsRoundTrip(n);
    }
  }

  /** Distinct numbers render as distinct strings. */
  lemma IntToStringInjective(a: int, b: int)
    ensures IntToString(a) == IntToString(b) ==> a == b
  {
    IntToStringRoundTrip(a);
    IntToStringRoundTrip(b);
  }

  /** Digits without a leading zero denote a positive number. */
  lemma {:induction false} LeadingDigitPositive(d: string)
    requires |d| >= 1 && AllDigits(d) && d[0] != '0'
    ensures DigitsToNat(d) >= 1
  {
    if |d| > 1 {
      var prefix := d[..|d| - 1];
      assert prefix[0] == d[0];
      LeadingDigitPositive(prefix);
    }
  }

  /** Canonical digits are the only digits that render their own value. */
  lemma {:induction false} CanonicalDigitsUnique(d: string)
    requires IsCanonicalDigits(d)
    ensures NatToDigits(DigitsToNat(d)) == d
  {
    if |d| > 1 {
      var prefix := d[..|d| - 1];
      var last := d[|d| - 1];
      assert prefix[0] == d[0] && d[0] != '0';
      LeadingDigitPositive(prefix);
      CanonicalDigitsUnique(prefix);
      var m := DigitsToNat(d);
      assert m == DigitsToNat(prefix) * 10 + DigitValue(last);
      assert m / 10 == DigitsToNat(prefix) && m % 10 == DigitValue(last);
      assert d == prefix + [last];
    }
  }

  /** The rendering of an integer is the one canonical text that parses to it. */
  lemma CanonicalIntUnique(s: string, n: int)
    requires IsCanonicalInt(s) && ParseInt(s) == Some(n)
    ensures s == IntToString(n)
  {
    if s[0] == '-' {
      NegativeCanonicalUnique(s, n);
    } else {
      assert IsCanonicalDigits(s);
      assert n == DigitsToNat(s);
      CanonicalDigitsUnique(s);
    }
  }

  lemma NegativeCanonicalUnique(s: string, n: int)
    requires |s| >= 2 && s[0] == '-' && IsCanonicalDigits(s[1..]) && s[1] != '0'
    requires ParseInt(s) == Some(n)
    ensures s == IntToString(n)
  {
    var digits := s[1..];
    var m: int := DigitsToNat(digits);
    assert n == -m;
    LeadingDigitPositive(digits);
    CanonicalDigitsUnique(digits);
    assert IntToString(n) == "-" + NatToDigits(m);
    assert s == "-" + digits;
  }
}
