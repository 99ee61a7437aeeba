/**
 * How Python's str() writes the two kinds of value the entities' display
 * strings embed: a Decimal read back from a column with two decimal places
 * ("4.01", "100.00", "-0.50") and a time of day without microseconds
 * ("11:36:59"). Each rendering comes with its parser and a round-trip lemma,
 * so a displayed value always determines the stored one.
 */
module Render {

  const SecondsPerDay: nat := 86_400

  function DigitChar(d: nat): (c: char)
    requires d < 10
    ensures '0' <= c <= '9' && c as int - '0' as int == d
  {
    (d + '0' as int) as char
  }

  function DigitValue(c: char): int
  {
    c as int - '0' as int
  }

  predicate IsDigits(s: string)
  {
    forall i :: 0 <= i < |s| ==> '0' <= s[i] <= '9'
  }

  /** The decimal numeral of n, most significant digit first, without leading zeros. */
  function NatText(n: nat): (s: string)
    ensures 1 <= |s| && IsDigits(s)
    ensures |s| == 1 <==> n < 10
    ensures |s| > 1 ==> s[0] != '0'
  {
    if n < 10 then [DigitChar(n)] else NatText(n / 10) + [DigitChar(n % 10)]
  }

  /** Reads a numeral most significant digit first. */
  function ParseNat(s: string): int
  {
    if s == [] then 0 else ParseNat(s[..|s| - 1]) * 10 + DigitValue(s[|s| - 1])
  }

  lemma {:induction false} ParseNatText(n: nat)
    ensures ParseNat(NatText(n)) == n
  {
    if n >= 10 {
      var s := NatText(n);
      assert s[..|s| - 1] == NatText(n / 10);
      ParseNatText(n / 10);
    }
  }

  /** Two numerals are equal only when the numbers are. */
  lemma NatTextInjective(a: nat, b: nat)
    requires NatText(a) == NatText(b)
    ensures a == b
  {
    ParseNatText(a);
    ParseNatText(b);
  }

  function TwoDigits(n: nat): (s: string)
    requires n < 100
    ensures |s| == 2 && IsDigits(s)
  {
    [DigitChar(n / 10), DigitChar(n % 10)]
  }

  lemma ParseTwoDigits(n: nat)
    requires n < 100
    ensures ParseNat(TwoDigits(n)) == n
  {
    var s := TwoDigits(n);
    assert s[..1][..0] == [];
    assert ParseNat(s[..1]) == n / 10;
    assert ParseNat(s) == n / 10 * 10 + n % 10;
  }

  /**
   * str() of a Decimal holding h hundredths, as a two-place column returns
   * it: an optional minus sign, the integer part, a point and exactly two
   * fractional digits.
   */
  function DecimalText(h: int): (s: string)
    ensures |s| >= 4 && s[|s| - 3] == '.'
    ensures s[0] == '-' <==> h < 0
  {
    var m := if h < 0 then -h else h;
    (if h < 0 then "-" else "") + NatText(m / 100) + "." + TwoDigits(m % 100)
  }

  /** Reads "I.FF" as hundredths: the integer part, then the two digits after the point. */
  function Units(body: string): int
    requires |body| >= 3
  {
    ParseNat(body[..|body| - 3]) * 100 + ParseNat(body[|body| - 2..])
  }

  function ParseDecimal(s: string): int
  {
    if |s| < 4 then 0
    else if s[0] == '-' then -Units(s[1..])
    else Units(s)
  }

  /** The unsigned part of a decimal's text reads back as its value in hundredths. */
  lemma UnsignedDecimalRoundTrip(m: nat)
    ensures var body := NatText(m / 100) + "." + TwoDigits(m % 100);
      && |body| >= 4 && body[0] != '-' && Units(body) == m
  {
    var body := NatText(m / 100) + "." + TwoDigits(m % 100);
    assert body[..|body| - 3] == NatText(m / 100);
    assert body[|body| - 2..] == TwoDigits(m % 100);
    assert body[0] == NatText(m / 100)[0];
    ParseNatText(m / 100);
    ParseTwoDigits(m % 100);
  }

  lemma DecimalTextRoundTrip(h: int)
    ensures ParseDecimal(DecimalText(h)) == h
  {
    var m := if h < 0 then -h else h;
    var body := NatText(m / 100) + "." + TwoDigits(m % 100);
    UnsignedDecimalRoundTrip(m);
    if h < 0 {
      var s := "-" + body;
      assert DecimalText(h) == s;
      assert s[1..] == body;
    } else {
      assert DecimalText(h) == body;
    }
  }

  /** str() of a time of day given in seconds since midnight: "HH:MM:SS". */
  function TimeText(t: nat): (s: string)
    requires t < SecondsPerDay
    ensures |s| == 8 && s[2] == ':' && s[5] == ':'
  {
    TwoDigits(t / 3600) + ":" + TwoDigits(t / 60 % 60) + ":" + TwoDigits(t % 60)
  }

  function ParseTime(s: string): int
  {
    if |s| != 8 then 0
    else ParseNat(s[0..2]) * 3600 + ParseNat(s[3..5]) * 60 + ParseNat(s[6..8])
  }

  lemma TimeTextRoundTrip(t: nat)
    requires t < SecondsPerDay
    ensures ParseTime(TimeText(t)) == t
  {
    var s := TimeText(t);
    assert s[0..2] == TwoDigits(t / 3600);
    assert s[3..5] == TwoDigits(t / 60 % 60);
    assert s[6..8] == TwoDigits(t % 60);
    ParseTwoDigits(t / 3600);
    ParseTwoDigits(t / 60 % 60);
    ParseTwoDigits(t % 60);
    assert t / 3600 * 3600 + t / 60 % 60 * 60 + t % 60 == t;
  }
}
