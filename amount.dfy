/**
 * Money amounts as the exporter prints them: amount.toFixed(2) with the
 * decimal point replaced by a comma, modelled over integer cents.
 */
module Amount {
  import opened Wrappers

  predicate IsDigit(c: char) { '0' <= c <= '9' }

  predicate AllDigits(s: string) { forall i :: 0 <= i < |s| ==> IsDigit(s[i]) }

  function DigitChar(d: nat): (c: char)
    requires d < 10
    ensures IsDigit(c) && c as int - '0' as int == d
  {
    ('0' as int + d) as char
  }

  /** Decimal digits of n, most significant first, without leading zeros. */
  function NatDigits(n: nat): (r: string)
    ensures |r| >= 1 && AllDigits(r)
    ensures |r| == 1 || r[0] != '0'
  {
    if n < 10 then [DigitChar(n)] else NatDigits(n / 10) + [DigitChar(n % 10)]
  }

  /** The value of a string of decimal digits. */
  function DigitsValue(s: string): nat
    requires AllDigits(s)
  {
    if s == [] then 0 else DigitsValue(s[..|s| - 1]) * 10 + (s[|s| - 1] as int - '0' as int)
  }

  lemma {:induction false} DigitsRoundTrip(n: nat)
    ensures DigitsValue(NatDigits(n)) == n
  {
    if n >= 10 {
      var r := NatDigits(n);
      assert r[..|r| - 1] == NatDigits(n / 10);
      DigitsRoundTrip(n / 10);
    }
  }

  /**
   * Sign, integer part, ',' and exactly two fractional digits; no '.',
   * no thousands separator.
   */
  function FormatAmount(cents: int): string
  {
    var m := if cents < 0 then -cents else cents;
    (if cents < 0 then "-" else "") + NatDigits(m / 100) + [','] + Cents(m % 100)
  }

  /** Two fractional digits for a value below 100. */
  function Cents(m: nat): (r: string)
    requires m < 100
    ensures |r| == 2 && AllDigits(r) && DigitsValue(r) == m
  {
    var r := [DigitChar(m / 10), DigitChar(m % 10)];
    assert r[..1] == [r[0]] && [r[0]][..0] == [];
    assert DigitsValue([r[0]]) == m / 10;
    r
  }

  /** Reads back an unsigned amount: digits, ',' and two digits. */
  function ParseUnsigned(u: string): Option<nat>
  {
    if |u| >= 4 && u[|u| - 3] == ',' && AllDigits(u[..|u| - 3]) && AllDigits(u[|u| - 2..]) then
      Some(DigitsValue(u[..|u| - 3]) * 100 + DigitsValue(u[|u| - 2..]))
    else
      None
  }

  /** Reads back the format above: optional '-', then an unsigned amount. */
  function ParseAmount(s: string): Option<int>
  {
    if |s| > 0 && s[0] == '-' then
      var v :- ParseUnsigned(s[1..]);
      Some(-(v as int))
    else
      var v :- ParseUnsigned(s);
      Some(v)
  }

  lemma UnsignedRoundTrip(m: nat)
    ensures ParseUnsigned(NatDigits(m / 100) + [','] + Cents(m % 100)) == Some(m)
  {
    ParseUnsignedOf(NatDigits(m / 100), Cents(m % 100));
    DigitsRoundTrip(m / 100);
  }

  /** An integer part, ',' and two digits read back as their value in cents. */
  lemma ParseUnsignedOf(d: string, c: string)
    requires |d| >= 1 && AllDigits(d) && |c| == 2 && AllDigits(c)
    ensures ParseUnsigned(d + [','] + c) == Some(DigitsValue(d) * 100 + DigitsValue(c))
  {
    var u := d + [','] + c;
    assert u[..|u| - 3] == d;
    assert u[|u| - 2..] == c;
  }

  /** The printed amount determines the amount. */
  lemma AmountRoundTrip(cents: int)
    ensures ParseAmount(FormatAmount(cents)) == Some(cents)
  {
    var m := if cents < 0 then -cents else cents;
    var u := NatDigits(m / 100) + [','] + Cents(m % 100);
    UnsignedRoundTrip(m);
    if cents < 0 {
      assert FormatAmount(cents) == "-" + u;
      assert ("-" + u)[1..] == u;
    } else {
      assert FormatAmount(cents) == u;
    }
  }

  /**
   * The printed form: at least one integer digit, a single ',' third from
   * the end, two digits after it, and a leading '-' exactly for negative
   * amounts; every other character is a digit.
   */
  lemma FormatAmountShape(cents: int)
    ensures var r := FormatAmount(cents);
      && |r| >= 4 && r[|r| - 3] == ','
      && ((r[0] == '-') <==> cents < 0)
      && (forall i :: 0 <= i < |r| && i != |r| - 3 && !(i == 0 && cents < 0) ==> IsDigit(r[i]))
      && (cents < 0 ==> |r| >= 5 && IsDigit(r[1]))
  {
  }

  /** The exporter's printing never emits the characters that carry structure in the file. */
  lemma AmountHasNoSeparators(cents: int)
    ensures '.' !in FormatAmount(cents) && '|' !in FormatAmount(cents)
    ensures '\n' !in FormatAmount(cents) && '"' !in FormatAmount(cents)
  {
    FormatAmountShape(cents);
  }

  lemma AmountExampleNegative()
    ensures FormatAmount(-123450) == "-1234,50"
  {
    assert NatDigits(1234) == "1234" by {
      assert NatDigits(12) == "12";
      assert NatDigits(123) == "123";
    }
    assert Cents(50) == "50";
  }

  lemma AmountExampleZero()
    ensures FormatAmount(0) == "0,00"
  {
    assert Cents(0) == "00";
  }

  lemma AmountExampleLarge()
    ensures FormatAmount(-5000000) == "-50000,00"
  {
    assert NatDigits(50000) == "50000" by {
      assert NatDigits(50) == "50";
      assert NatDigits(500) == "500";
      assert NatDigits(5000) == "5000";
    }
    assert Cents(0) == "00";
  }

  lemma AmountExampleBalance()
    ensures FormatAmount(15000000) == "150000,00"
  {
    assert NatDigits(150000) == "150000" by {
      assert NatDigits(15) == "15";
      assert NatDigits(150) == "150";
      assert NatDigits(1500) == "1500";
      assert NatDigits(15000) == "15000";
    }
    assert Cents(0) == "00";
  }
}
