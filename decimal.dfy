/**
 * Go's `%d` verb on an integer: an optional '-' followed by the decimal
 * digits, most significant first, with no leading zeros. `ParseInt` is
 * the reader a monitoring supervisor applies to those digits.
 */
module Decimal {
  import opened Wrappers

  predicate IsDigit(c: char) {
    '0' <= c <= '9'
  }

  function DigitChar(d: nat): (c: char)
    requires d < 10
    ensures IsDigit(c)
  {
    ('0' as int + d) as char
  }

  function DigitValue(c: char): (d: nat)
    requires IsDigit(c)
    ensures d < 10 && DigitChar(d) == c
  {
    (c as int - '0' as int)
  }

  /** The digits of `n`, most significant first. */
  function FormatNat(n: nat): (s: string)
    ensures s != [] && IsDigit(s[0]) && (|s| > 1 ==> s[0] != '0')
  {
    if n < 10 then [DigitChar(n)] else FormatNat(n / 10) + [DigitChar(n % 10)]
  }

  /** `fmt.Sprintf("%d", x)`. */
  function FormatInt(x: int): (s: string)
    ensures s != [] && (s[0] == '-' <==> x < 0)
  {
    if x < 0 then "-" + FormatNat(-x) else FormatNat(x)
  }

  predicate AllDigits(s: string) {
    forall i :: 0 <= i < |s| ==> IsDigit(s[i])
  }

  /** The value of a non-empty run of decimal digits. */
  function ParseNat(s: string): (r: Option<nat>)
    ensures r.Some? ==> s != [] && IsDigit(s[|s| - 1])
  {
    if s == [] || !IsDigit(s[|s| - 1]) then None
    else if |s| == 1 then Some(DigitValue(s[0]))
    else
      match ParseNat(s[..|s| - 1])
      case None => None
      case Some(high) => Some(10 * high + DigitValue(s[|s| - 1]))
  }

  /** The value of an optionally '-'-prefixed run of decimal digits. */
  function ParseInt(s: string): (r: Option<int>)
    ensures r.Some? ==> s != [] && (r.value < 0 ==> s[0] == '-')
  {
    if s != [] && s[0] == '-' then
      match ParseNat(s[1..])
      case None => None
      case Some(n) => Some(0 - n as int)
    else
      match ParseNat(s)
      case None => None
      case Some(n) => Some(n)
  }

  lemma {:induction false} ParseFormatNat(n: nat)
    ensures ParseNat(FormatNat(n)) == Some(n)
  {
    if n >= 10 {
      var s := FormatNat(n);
      ParseFormatNat(n / 10);
      assert s[..|s| - 1] == FormatNat(n / 10);
      assert DigitValue(s[|s| - 1]) == n % 10;
    }
  }

  /** Reading back what `%d` printed gives the printed integer. */
  lemma ParseFormatInt(x: int)
    ensures ParseInt(FormatInt(x)) == Some(x)
  {
    if x < 0 {
      var digits := FormatNat(-x);
      ParseFormatNat(-x);
      assert FormatInt(x) == "-" + digits;
      assert ("-" + digits)[1..] == digits;
    } else {
      ParseFormatNat(x);
      assert FormatInt(x)[0] != '-';
    }
  }

  lemma {:induction false} FormatNatDigits(n: nat)
    ensures AllDigits(FormatNat(n))
  {
    if n >= 10 {
      FormatNatDigits(n / 10);
    }
  }

  /** `%d` output holds nothing but an optional leading '-' and digits. */
  lemma FormatIntChars(x: int, c: char)
    requires c in FormatInt(x)
    ensures c == '-' || IsDigit(c)
  {
    if x < 0 {
      FormatNatDigits(-x);
    } else {
      FormatNatDigits(x);
    }
  }

  /** No separator character other than '-' and the digits occurs in `%d` output. */
  lemma NoSeparator(x: int, c: char)
    requires c != '-' && !IsDigit(c)
    ensures c !in FormatInt(x)
  {
    if c in FormatInt(x) {
      FormatIntChars(x, c);
    }
  }
}
