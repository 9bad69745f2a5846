/**
 * The text handling of the forms: Swift's `Int(String)` (an optional sign and decimal digits,
 * nothing else, within the 64-bit range), its inverse `"\(n)"`, and the comma-to-point
 * rewrite the budget form applies before parsing an amount.
 */
module NumberText {
  import opened Wrappers

  const IntMin: int := -0x8000_0000_0000_0000
  const IntMax: int := 0x7FFF_FFFF_FFFF_FFFF

  predicate IsDigit(c: char) {
    '0' <= c <= '9'
  }

  predicate AllDigits(s: string) {
    forall i :: 0 <= i < |s| ==> IsDigit(s[i])
  }

  function DigitValue(c: char): (d: int)
    requires IsDigit(c)
    ensures 0 <= d < 10
  {
    c as int - '0' as int
  }

  function DigitChar(d: int): (c: char)
    requires 0 <= d < 10
    ensures IsDigit(c) && DigitValue(c) == d
  {
    ('0' as int + d) as char
  }

  /** The value of a string of decimal digits, most significant first. */
  function DigitsValue(s: string): nat
    requires AllDigits(s)
  {
    if s == [] then 0 else DigitsValue(s[..|s| - 1]) * 10 + DigitValue(s[|s| - 1])
  }

  /** `Int(text)`: nil for an empty string, a lone sign, any other character, or overflow. */
  function ParseInt(text: string): (r: Option<int>)
    ensures r.Some? ==> IntMin <= r.value <= IntMax
    ensures r.Some? ==> text != "" && text != "-" && text != "+"
    ensures (exists i :: 0 < i < |text| && !IsDigit(text[i])) ==> r == None
    ensures |text| > 0 && !IsDigit(text[0]) && text[0] != '-' && text[0] != '+' ==> r == None
  {
    var negative := |text| > 0 && text[0] == '-';
    var digits := if |text| > 0 && (text[0] == '-' || text[0] == '+') then text[1..] else text;
    if digits == [] || !AllDigits(digits) then None
    else
      var magnitude: int := DigitsValue(digits);
      var v := if negative then -magnitude else magnitude;
      if IntMin <= v <= IntMax then Some(v) else None
  }

  /**
   * What `Int(_:)` reads from a run of digits, bare or behind a sign: the digits' value,
   * negated after '-', and nil outside the 64-bit range. With the rejections in `ParseInt`'s
   * contract this covers every text.
   */
  lemma ParseDigits(digits: string)
    requires digits != [] && AllDigits(digits)
    ensures ParseInt(digits) == (if DigitsValue(digits) <= IntMax then Some(DigitsValue(digits)) else None)
    ensures ParseInt("+" + digits) == (if DigitsValue(digits) <= IntMax then Some(DigitsValue(digits)) else None)
    ensures ParseInt("-" + digits) == (if DigitsValue(digits) <= -IntMin then Some(-(DigitsValue(digits) as int)) else None)
  {
    assert IsDigit(digits[0]);
    assert ("+" + digits)[1..] == digits;
    assert ("-" + digits)[1..] == digits;
  }

  /** Leading zeros are accepted. */
  lemma ParseIntLeadingZeros()
    ensures ParseInt("007") == Some(7)
  {
    assert DigitsValue("00") == 0 by {
      assert "00"[..1] == "0";
      assert "0"[..0] == "";
    }
    assert DigitsValue("007") == 7 by {
      assert "007"[..2] == "00";
    }
    ParseDigits("007");
  }

  /** A '+' is accepted, and "-0" is zero. */
  lemma ParseIntSigns()
    ensures ParseInt("+5") == Some(5)
    ensures ParseInt("-0") == Some(0)
  {
    assert DigitsValue("5") == 5 by {
      assert "5"[..0] == "";
    }
    assert DigitsValue("0") == 0 by {
      assert "0"[..0] == "";
    }
    ParseDigits("5");
    ParseDigits("0");
    assert "+5" == "+" + "5";
    assert "-0" == "-" + "0";
  }

  /** A leading space or letter is not. */
  lemma ParseIntRejects()
    ensures ParseInt("a5") == None
    ensures ParseInt(" 5") == None
  {
  }

  function NatToString(n: nat): (s: string)
    ensures s != [] && AllDigits(s)
  {
    if n < 10 then [DigitChar(n)] else NatToString(n / 10) + [DigitChar(n % 10)]
  }

  /** String interpolation `"\(n)"`. */
  function IntToString(n: int): (s: string)
    ensures s != []
  {
    if n < 0 then "-" + NatToString(-n) else NatToString(n)
  }

  lemma {:induction false} NatToStringValue(n: nat)
    ensures DigitsValue(NatToString(n)) == n
  {
    if n >= 10 {
      NatToStringValue(n / 10);
      var s := NatToString(n);
      assert s[..|s| - 1] == NatToString(n / 10);
    }
  }

  /** Reading back what was shown gives the number again. */
  lemma ParseIntToString(n: int)
    requires IntMin <= n <= IntMax
    ensures ParseInt(IntToString(n)) == Some(n)
  {
    var text := IntToString(n);
    if n < 0 {
      var digits := NatToString(-n);
      NatToStringValue(-n);
      assert text[0] == '-' && text[1..] == digits;
    } else {
      NatToStringValue(n);
      assert IsDigit(text[0]);
    }
  }

  /** `replacingOccurrences(of: ",", with: ".")`. */
  function ReplaceCommas(s: string): (r: string)
    ensures |r| == |s|
    ensures forall i :: 0 <= i < |s| ==> r[i] == (if s[i] == ',' then '.' else s[i])
    ensures ',' !in r
  {
    if s == [] then [] else [if s[0] == ',' then '.' else s[0]] + ReplaceCommas(s[1..])
  }
}
