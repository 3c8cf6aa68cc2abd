/** Python's `'%d' % n` conversion of an integer to decimal text, and the
    parser that reads such text back. The failure subject of the wrapper
    embeds a child's return code this way, and a return code is negative
    when the child was killed by a signal, so the sign matters. */
module Decimal {
  import opened Optional

  predicate IsDigit(c: char) {
    '0' <= c <= '9'
  }

  predicate AllDigits(s: string) {
    forall i :: 0 <= i < |s| ==> IsDigit(s[i])
  }

  function DigitValue(c: char): (d: nat)
    requires IsDigit(c)
    ensures d < 10
  {
    (c as int) - ('0' as int)
  }

  function DigitChar(d: nat): (c: char)
    requires d < 10
    ensures IsDigit(c) && DigitValue(c) == d
  {
    (('0' as int) + d) as char
  }

  /** Decimal text of a natural number: no sign, no leading zero. */
  function NatToDecimal(n: nat): (s: string)
    ensures |s| > 0 && AllDigits(s)
    ensures s[0] == '0' ==> n == 0 && s == "0"
    decreases n
  {
    if n < 10 then [DigitChar(n)] else NatToDecimal(n / 10) + [DigitChar(n % 10)]
  }

  /** `'%d' % n`: a minus sign in front of the magnitude when negative. */
  function FormatInt(n: int): (s: string)
    ensures |s| > 0
    ensures s[0] == '-' <==> n < 0
  {
    if n < 0 then "-" + NatToDecimal(-n) else NatToDecimal(n)
  }

  /** Value of a string of digits, most significant first. */
  function ParseNat(s: string): nat
    requires AllDigits(s)
    decreases |s|
  {
    if |s| == 0 then 0 else 10 * ParseNat(s[..|s| - 1]) + DigitValue(s[|s| - 1])
  }

  /** Reads an optionally signed decimal integer; `None` on anything else. */
  function ParseInt(s: string): Option<int> {
    if |s| > 0 && s[0] == '-' then
      if |s| > 1 && AllDigits(s[1..]) then Some(-(ParseNat(s[1..]) as int)) else None
    else if |s| > 0 && AllDigits(s) then Some(ParseNat(s))
    else None
  }

  /** The texts `'%d'` can produce: no leading zero and no negative zero. */
  predicate IsCanonical(s: string) {
    || (|s| > 0 && AllDigits(s) && (s[0] == '0' ==> |s| == 1))
    || (|s| > 1 && s[0] == '-' && AllDigits(s[1..]) && s[1] != '0')
  }

  /** The characters `'%d'` text is made of. */
  predicate IsNumeral(c: char) {
    c == '-' || IsDigit(c)
  }

  /** Where the trailing run of numeral characters of `s` begins. */
  function TrailingNumeralStart(s: string): (i: nat)
    ensures i <= |s|
    ensures forall k :: i <= k < |s| ==> IsNumeral(s[k])
    ensures i > 0 ==> !IsNumeral(s[i - 1])
    decreases |s|
  {
    if |s| == 0 || !IsNumeral(s[|s| - 1]) then |s| else TrailingNumeralStart(s[..|s| - 1])
  }

  /** A numeral run after a non-numeral character is exactly the trailing run. */
  lemma TrailingNumeralStartAt(p: string, t: string)
    requires |p| > 0 && !IsNumeral(p[|p| - 1])
    requires forall k :: 0 <= k < |t| ==> IsNumeral(t[k])
    ensures TrailingNumeralStart(p + t) == |p|
  {
    var s := p + t;
    assert s[|p| - 1] == p[|p| - 1];
  }

  lemma FormatIntIsNumeral(n: int)
    ensures forall k :: 0 <= k < |FormatInt(n)| ==> IsNumeral(FormatInt(n)[k])
  {
    if n < 0 {
      assert FormatInt(n) == "-" + NatToDecimal(-n);
    }
  }

  lemma {:induction false} ParseNatOfNatToDecimal(n: nat)
    ensures ParseNat(NatToDecimal(n)) == n
    decreases n
  {
    if n >= 10 {
      var s := NatToDecimal(n);
      var prefix := NatToDecimal(n / 10);
      assert s[..|s| - 1] == prefix;
      ParseNatOfNatToDecimal(n / 10);
    }
  }

  /** Every integer formatted with `'%d'` is read back as itself. */
  lemma FormatIntRoundTrip(n: int)
    ensures ParseInt(FormatInt(n)) == Some(n)
  {
    if n < 0 {
      assert FormatInt(n)[1..] == NatToDecimal(-n);
      ParseNatOfNatToDecimal(-n);
    } else {
      ParseNatOfNatToDecimal(n);
    }
  }

  /** Distinct return codes give distinct texts. */
  lemma FormatIntInjective(a: int, b: int)
    ensures FormatInt(a) == FormatInt(b) <==> a == b
  {
    if FormatInt(a) == FormatInt(b) {
      FormatIntRoundTrip(a);
      FormatIntRoundTrip(b);
    }
  }

  lemma FormatIntIsCanonical(n: int)
    ensures IsCanonical(FormatInt(n))
  {
  }

  /** A string of digits whose first digit is not zero denotes a positive number. */
  lemma {:induction false} ParseNatPositive(s: string)
    requires |s| > 0 && AllDigits(s) && s[0] != '0'
    ensures ParseNat(s) > 0
    decreases |s|
  {
    if |s| > 1 {
      ParseNatPositive(s[..|s| - 1]);
    } else {
      assert DigitValue(s[0]) != 0;
    }
  }

  lemma {:induction false} NatToDecimalOfParseNat(s: string)
    requires |s| > 0 && AllDigits(s) && (s[0] == '0' ==> |s| == 1)
    ensures NatToDecimal(ParseNat(s)) == s
    decreases |s|
  {
    var c := s[|s| - 1];
    var init := s[..|s| - 1];
    if |s| == 1 {
      assert DigitChar(DigitValue(c)) == c;
      assert s == [c];
    } else {
      ParseNatPositive(init);
      NatToDecimalOfParseNat(init);
      var n := ParseNat(s);
      assert n / 10 == ParseNat(init) && n % 10 == DigitValue(c);
      assert DigitChar(DigitValue(c)) == c;
      assert s == init + [c];
    }
  }

  /** Every canonical decimal text is the `'%d'` form of the number it denotes. */
  lemma ParseIntCanonical(s: string)
    requires IsCanonical(s)
    ensures ParseInt(s).Some? && FormatInt(ParseInt(s).value) == s
  {
    if |s| > 0 && s[0] == '-' {
      var digits := s[1..];
      NatToDecimalOfParseNat(digits);
      ParseNatPositive(digits);
      assert s == "-" + digits;
    } else {
      NatToDecimalOfParseNat(s);
    }
  }
}
