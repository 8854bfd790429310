/**
 * Java's 64-bit and 32-bit integers as far as the upload services use them:
 * `Long.parseLong` (how a file id arriving as text is read back),
 * `String.valueOf(long)` (how a file id is handed out as text) and the
 * narrowing cast `(int)` from `long`.
 */
module JavaLong {
  import opened Wrappers

  const LONG_MIN: int := -0x8000_0000_0000_0000
  const LONG_MAX: int := 0x7fff_ffff_ffff_ffff
  const INT_MIN: int := -0x8000_0000
  const INT_MAX: int := 0x7fff_ffff

  /** A value of Java type `long`. */
  type Long = x: int | LONG_MIN <= x <= LONG_MAX

  /** A value of Java type `int`. */
  type Int = x: int | INT_MIN <= x <= INT_MAX

  predicate IsDigit(c: char) {
    '0' <= c <= '9'
  }

  predicate AllDigits(s: string) {
    forall i :: 0 <= i < |s| ==> IsDigit(s[i])
  }

  function DigitValue(c: char): (d: nat)
    requires IsDigit(c)
    ensures d < 10
  {
    c as int - '0' as int
  }

  function DigitChar(d: nat): (c: char)
    requires d < 10
    ensures IsDigit(c) && DigitValue(c) == d
  {
    ('0' as int + d) as char
  }

  /** The number a string of decimal digits denotes, most significant digit first. */
  function DigitsValue(s: string): nat
    requires AllDigits(s)
  {
    if s == [] then 0 else DigitsValue(s[..|s| - 1]) * 10 + DigitValue(s[|s| - 1])
  }

  /** The decimal digits of a natural number, without leading zeros. */
  function NatToDecimal(n: nat): (s: string)
    ensures |s| > 0 && AllDigits(s)
    decreases n
  {
    if n < 10 then [DigitChar(n)] else NatToDecimal(n / 10) + [DigitChar(n % 10)]
  }

  /** `String.valueOf(long)`: an optional minus sign followed by the decimal digits. */
  function LongToString(v: Long): (s: string)
    ensures |s| > 0
    ensures v < 0 <==> s[0] == '-'
  {
    var m: int := v;
    if m < 0 then "-" + NatToDecimal(-m) else NatToDecimal(m)
  }

  /** The text after an optional leading '+' or '-'. */
  function Unsigned(s: string): (d: string)
    requires |s| > 0
    ensures |d| == |s| || |d| == |s| - 1
  {
    if s[0] == '-' || s[0] == '+' then s[1..] else s
  }

  /** An optional sign followed by one or more decimal digits. */
  predicate IsDecimalLiteral(s: string) {
    |s| > 0 && |Unsigned(s)| > 0 && AllDigits(Unsigned(s))
  }

  /** The number a decimal literal denotes: its digits, negated after a '-'. */
  function LiteralValue(s: string): int
    requires IsDecimalLiteral(s)
  {
    var magnitude: int := DigitsValue(Unsigned(s));
    if s[0] == '-' then -magnitude else magnitude
  }

  /**
   * `Long.parseLong(s)`: an optional '+' or '-' followed by at least one
   * decimal digit, whose value must lie in the range of `long`; anything
   * else (the empty string, a lone sign, a non-digit anywhere, an
   * overflow) throws NumberFormatException, modelled as None.
   */
  function ParseLong(s: string): (r: Option<Long>)
    ensures r.Some? <==> IsDecimalLiteral(s) && LONG_MIN <= LiteralValue(s) <= LONG_MAX
    ensures r.Some? ==> r.value == LiteralValue(s)
    ensures r.Some? ==> |s| > 0 && (IsDigit(s[0]) || s[0] == '+' || s[0] == '-')
    ensures r.Some? && r.value < 0 ==> s[0] == '-'
  {
    if |s| == 0 then None
    else
      var negative := s[0] == '-';
      var digits := if s[0] == '-' || s[0] == '+' then s[1..] else s;
      if |digits| == 0 || !AllDigits(digits) then None
      else
        var magnitude: int := DigitsValue(digits);
        var v: int := if negative then -magnitude else magnitude;
        if LONG_MIN <= v <= LONG_MAX then Some(v) else None
  }

  lemma {:induction false} DecimalRoundTrip(n: nat)
    ensures DigitsValue(NatToDecimal(n)) == n
    decreases n
  {
    if n >= 10 {
      var s := NatToDecimal(n / 10) + [DigitChar(n % 10)];
      assert s[..|s| - 1] == NatToDecimal(n / 10);
      DecimalRoundTrip(n / 10);
    }
  }

  /** Leading zeros do not change the value of a digit string. */
  lemma {:induction false} LeadingZeroIgnored(d: string)
    requires AllDigits(d)
    ensures AllDigits("0" + d) && DigitsValue("0" + d) == DigitsValue(d)
    decreases |d|
  {
    var z := "0" + d;
    assert AllDigits(z) by {
      forall i | 0 <= i < |z|
        ensures IsDigit(z[i])
      {
        if i > 0 {
          assert z[i] == d[i - 1];
        }
      }
    }
    if d != [] {
      var init := d[..|d| - 1];
      assert z[..|z| - 1] == "0" + init;
      assert z[|z| - 1] == d[|d| - 1];
      LeadingZeroIgnored(init);
    }
  }

  /**
   * What `Long.parseLong` makes of a few representative inputs: a sign or
   * leading zeros are accepted, a trailing letter, a lone sign or a decimal
   * point is not.
   */
  lemma ParseLongSamples()
    ensures ParseLong("") == None && ParseLong("+") == None && ParseLong("-") == None
    ensures ParseLong("12a") == None && ParseLong("1.5") == None
    ensures ParseLong("+7") == Some(7) && ParseLong("-7") == Some(-7)
    ensures ParseLong("007") == Some(7)
  {
    assert !IsDigit("12a"[2]);
    assert !IsDigit("1.5"[1]);
    assert Unsigned("+7") == "7";
    assert DigitsValue("7") == 7 by {
      assert "7"[..0] == [];
    }
    assert Unsigned("-7") == "7";
    LeadingZeroIgnored("07");
    LeadingZeroIgnored("7");
    assert "0" + "07" == "007" && "0" + "7" == "07";
  }

  /** Every id handed out with `String.valueOf` is read back unchanged by `Long.parseLong`. */
  lemma {:induction false} ParseLongOfLongToString(v: Long)
    ensures ParseLong(LongToString(v)) == Some(v)
  {
    var m: int := v;
    var s := LongToString(v);
    if m < 0 {
      var d := NatToDecimal(-m);
      assert s == "-" + d;
      assert s[1..] == d;
      DecimalRoundTrip(-m);
      assert DigitsValue(d) == -m;
    } else {
      DecimalRoundTrip(m);
      assert IsDigit(s[0]);
      assert DigitsValue(s) == m;
    }
  }

  /**
   * The Java narrowing cast `(int) x` from `long`: keeps the low 32 bits,
   * read as a two's-complement number.
   */
  function NarrowToInt(x: Long): (r: Int)
    ensures INT_MIN <= x <= INT_MAX ==> r == x
    ensures (x - r) % 0x1_0000_0000 == 0
  {
    (x - INT_MIN) % 0x1_0000_0000 + INT_MIN
  }
}
