/**
 * Python's `int(s)` on a string, base 10, over a decimal subset of its grammar:
 * optional surrounding whitespace, an optional `+` or `-` sign, then one or
 * more ASCII digits. `Decimal` is the reverse direction, Python's `str(n)`.
 */
module PyInt {
  import opened Wrappers
  import opened Text

  predicate IsDigit(c: char)
  {
    '0' <= c <= '9'
  }

  predicate AllDigits(d: string)
  {
    forall k :: 0 <= k < |d| ==> IsDigit(d[k])
  }

  function DigitValue(c: char): (v: nat)
    requires IsDigit(c)
    ensures v < 10
  {
    c as int - '0' as int
  }

  function DigitChar(v: nat): (c: char)
    requires v < 10
    ensures IsDigit(c) && DigitValue(c) == v
  {
    ('0' as int + v) as char
  }

  /** The value of a run of decimal digits, most significant first; leading
      zeros are allowed, as `int("007")` is 7. */
  function DigitsValue(d: string): nat
    requires AllDigits(d)
    decreases |d|
  {
    if d == [] then 0 else DigitsValue(d[..|d| - 1]) * 10 + DigitValue(d[|d| - 1])
  }

  /** `int(s)`: `None` stands for the `ValueError` Python raises. Whitespace
      around the number is skipped. */
  function ParseInt(s: string): (r: Option<int>)
    // accepted exactly when, once stripped, it is digits, or a sign and digits
    ensures var t := Strip(s);
              r.Some? <==> (|t| > 0 && AllDigits(t)) || (|t| > 1 && (t[0] == '+' || t[0] == '-') && AllDigits(t[1..]))
    // the value: the digits in base 10, leading zeros included, negated after a minus sign
    ensures var t := Strip(s);
              r.Some? ==> r.value == if t[0] == '-' then -(DigitsValue(t[1..]) as int)
                                     else if t[0] == '+' then DigitsValue(t[1..])
                                     else DigitsValue(t)
    ensures r.Some? ==> !AllSpace(s)
    // a character other than whitespace, a digit or a sign anywhere makes it raise
    ensures r.Some? ==> forall k :: 0 <= k < |s| ==> IsSpace(s[k]) || IsDigit(s[k]) || s[k] == '+' || s[k] == '-'
  {
    StripBoundaries(s);
    ParseSigned(Strip(s))
  }

  /** An optional sign followed by at least one digit, and nothing else. */
  function ParseSigned(t: string): (r: Option<int>)
    ensures r.Some? <==> (|t| > 0 && AllDigits(t)) || (|t| > 1 && (t[0] == '+' || t[0] == '-') && AllDigits(t[1..]))
    ensures r.Some? ==> IsDigit(t[|t| - 1])
    ensures r.Some? ==> r.value == if t[0] == '-' then -(DigitsValue(t[1..]) as int)
                                   else if t[0] == '+' then DigitsValue(t[1..])
                                   else DigitsValue(t)
  {
    if |t| > 0 && (t[0] == '+' || t[0] == '-') then
      if |t| > 1 && AllDigits(t[1..]) then
        var v: int := DigitsValue(t[1..]);
        assert t[|t| - 1] == t[1..][|t| - 2];
        Some(if t[0] == '-' then -v else v)
      else None
    else if |t| > 0 && AllDigits(t) then Some(DigitsValue(t))
    else None
  }

  /** The text of the `ValueError` raised by `int(s)`. Python quotes `s` with
      `repr`; here it is put between single quotes as it is. */
  function InvalidLiteral(s: string): (m: string)
    // the fixed prefix, then `s` between single quotes
    ensures |m| == |InvalidLiteralPrefix| + |s| + 2
    ensures m[..|InvalidLiteralPrefix|] == InvalidLiteralPrefix
    ensures m[|InvalidLiteralPrefix|] == '\'' && m[|m| - 1] == '\''
    ensures m[|InvalidLiteralPrefix| + 1..|m| - 1] == s
  {
    InvalidLiteralPrefix + "'" + s + "'"
  }

  const InvalidLiteralPrefix := "invalid literal for int() with base 10: "

  /** The message names the string that failed: two strings that raise the
      same message are the same string. */
  lemma InvalidLiteralInjective(s: string, s': string)
    requires InvalidLiteral(s) == InvalidLiteral(s')
    ensures s == s'
  {
  }

  /** `str(n)` for a non-negative `n`: its digits without leading zeros. */
  function NatDecimal(n: nat): (d: string)
    ensures |d| > 0 && AllDigits(d)
    ensures d[0] != '0' || n == 0
    decreases n
  {
    if n < 10 then [DigitChar(n)] else NatDecimal(n / 10) + [DigitChar(n % 10)]
  }

  /** `str(n)`: a minus sign before the digits of a negative number. */
  function Decimal(n: int): (d: string)
    ensures |d| > 0 && (n < 0 <==> d[0] == '-')
  {
    if n < 0 then "-" + NatDecimal(-n) else NatDecimal(n)
  }

  /** The digits `NatDecimal` writes read back as the number they came from. */
  lemma {:induction false} DigitsValueOfNatDecimal(n: nat)
    ensures DigitsValue(NatDecimal(n)) == n
    decreases n
  {
    var d := NatDecimal(n);
    if n >= 10 {
      assert d[..|d| - 1] == NatDecimal(n / 10);
      DigitsValueOfNatDecimal(n / 10);
    }
  }

  /** Python's `str(n)` is already stripped: it starts with a digit or a sign
      and ends with a digit. */
  lemma DecimalStripped(n: int)
    ensures Strip(Decimal(n)) == Decimal(n)
  {
  }

  /** Round trip: `int(str(n)) == n`, and whitespace around the text changes nothing. */
  lemma ParseIntDecimal(pre: string, n: int, post: string)
    requires AllSpace(pre) && AllSpace(post)
    ensures ParseInt(pre + Decimal(n) + post) == Some(n)
  {
    StripSurrounding(pre, Decimal(n), post);
    DecimalStripped(n);
    ParseSignedDecimal(n);
  }

  lemma ParseSignedDecimal(n: int)
    ensures ParseSigned(Decimal(n)) == Some(n)
  {
    var d := Decimal(n);
    if n < 0 {
      assert d[1..] == NatDecimal(-n);
      DigitsValueOfNatDecimal(-n);
    } else {
      DigitsValueOfNatDecimal(n);
    }
  }

  /** The height query of the `/results` scenarios: `"600000"` is 600000. */
  lemma ParseIntOfHeightQuery()
    ensures ParseInt("600000") == Some(600000)
  {
    assert Decimal(600000) == "600000";
    ParseIntDecimal("", 600000, "");
    assert "" + "600000" + "" == "600000";
  }

  /** `"600000x"` and the empty query are not numbers. */
  lemma ParseIntOfInvalidQueries()
    ensures ParseInt("600000x") == None
    ensures ParseInt("") == None
  {
  }

  /** Numerals other than `str(n)`: leading zeros, a plus sign, whitespace
      around the number. */
  lemma ParseIntOfNoncanonical()
    ensures ParseInt("007") == Some(7)
    ensures ParseInt(" +5\n") == Some(5)
    ensures ParseInt("-5") == Some(-5)
  {
    ParseIntLeadingZeros("00", 7);
    assert "00" + Decimal(7) == "007";
    StripUnique(" +5\n", 1, 3);
    assert " +5\n"[1..3] == "+5";
    assert "+5"[1..] == "5";
  }

  /** A sign must be followed by digits only, and whitespace may not sit inside the number. */
  lemma ParseIntOfMisplacedSigns()
    ensures ParseInt("1 2") == None
    ensures ParseInt("--5") == None
    ensures ParseInt("- 5") == None
    ensures ParseInt("+") == None
  {
    StripUnique("--5", 0, 3);
    assert "--5"[0..3] == "--5" && "--5"[1..][0] == '-';
    StripUnique("- 5", 0, 3);
    assert "- 5"[0..3] == "- 5";
    assert "- 5"[1..][0] == ' ';
  }

  /** Zeros written before the digits of a number do not change its value. */
  lemma {:induction false} DigitsValueLeadingZeros(z: string, d: string)
    requires forall k :: 0 <= k < |z| ==> z[k] == '0'
    requires AllDigits(d)
    ensures AllDigits(z + d) && DigitsValue(z + d) == DigitsValue(d)
    decreases |d|
  {
    if d == [] {
      assert z + d == z;
      ZerosValue(z);
    } else {
      assert (z + d)[..|z + d| - 1] == z + d[..|d| - 1];
      DigitsValueLeadingZeros(z, d[..|d| - 1]);
    }
  }

  lemma {:induction false} ZerosValue(z: string)
    requires forall k :: 0 <= k < |z| ==> z[k] == '0'
    ensures AllDigits(z) && DigitsValue(z) == 0
    decreases |z|
  {
    if z != [] {
      ZerosValue(z[..|z| - 1]);
    }
  }

  /** `int()` of `str(n)` with zeros written before it, for a non-negative `n`, is `n`. */
  lemma ParseIntLeadingZeros(z: string, n: nat)
    requires forall k :: 0 <= k < |z| ==> z[k] == '0'
    ensures ParseInt(z + Decimal(n)) == Some(n)
  {
    DigitsValueLeadingZeros(z, NatDecimal(n));
    DigitsValueOfNatDecimal(n);
    var t := z + Decimal(n);
    assert !IsSpace(t[0]) && !IsSpace(t[|t| - 1]);
    StripUnique(t, 0, |t|);
    assert t[0..|t|] == t;
  }
}
