/** Decimal rendering of integers: Python's `str(int)` and the `f"{n:02}"` format. */
module Formatting {

  predicate IsDigit(c: char) {
    '0' <= c <= '9'
  }

  predicate IsDigits(s: string) {
    forall k :: 0 <= k < |s| ==> IsDigit(s[k])
  }

  function DigitChar(d: nat): (c: char)
    requires d < 10
    ensures IsDigit(c) && DigitValue(c) == d
  {
    ('0' as int + d) as char
  }

  function DigitValue(c: char): nat
    requires IsDigit(c)
  {
    c as int - '0' as int
  }

  /** The value of a string of decimal digits, most significant first. */
  function DecimalValue(s: string): nat
    requires IsDigits(s)
    decreases |s|
  {
    if s == [] then 0 else DecimalValue(s[..|s| - 1]) * 10 + DigitValue(s[|s| - 1])
  }

  /** The decimal form of a natural number: digits only, and no leading zero unless the number is zero. */
  function NatToDecimal(n: nat): (s: string)
    ensures |s| >= 1 && IsDigits(s)
    ensures s[0] != '0' || s == "0"
    ensures s == "0" <==> n == 0
    decreases n
  {
    if n < 10 then [DigitChar(n)] else NatToDecimal(n / 10) + [DigitChar(n % 10)]
  }

  lemma {:induction false} NatToDecimalValue(n: nat)
    ensures DecimalValue(NatToDecimal(n)) == n
    decreases n
  {
    if n >= 10 {
      NatToDecimalValue(n / 10);
      var s := NatToDecimal(n);
      assert s[..|s| - 1] == NatToDecimal(n / 10);
    }
  }

  /** Python's `str()` of an integer. */
  function IntToDecimal(i: int): (s: string)
    ensures |s| >= 1 && (s[0] == '-' <==> i < 0)
    ensures forall k :: 1 <= k < |s| ==> IsDigit(s[k])
  {
    if i < 0 then "-" + NatToDecimal(-i) else NatToDecimal(i)
  }

  /** Reads back a string written by `IntToDecimal`. */
  function SignedValue(s: string): int
    requires |s| >= 1
    requires s[0] == '-' ==> IsDigits(s[1..])
    requires s[0] != '-' ==> IsDigits(s)
  {
    if s[0] == '-' then -(DecimalValue(s[1..]) as int) else DecimalValue(s)
  }

  /** `str(i)` is a sign only for negative numbers, followed by the canonical digits, and reads back as `i`. */
  lemma IntToDecimalRoundTrip(i: int)
    ensures var s := IntToDecimal(i);
      |s| >= 1 && (s[0] == '-' <==> i < 0)
      && (s[0] == '-' ==> IsDigits(s[1..]) && s[1] != '0')
      && (s[0] != '-' ==> IsDigits(s) && (s[0] != '0' || s == "0"))
      && SignedValue(s) == i
  {
    var s := IntToDecimal(i);
    if i < 0 {
      assert s[1..] == NatToDecimal(-i);
      NatToDecimalValue(-i);
    } else {
      NatToDecimalValue(i);
    }
  }

  function Zeros(k: nat): (z: string)
    ensures |z| == k && forall j :: 0 <= j < k ==> z[j] == '0'
  {
    if k == 0 then "" else "0" + Zeros(k - 1)
  }

  lemma {:induction false} LeadingZerosValue(k: nat, s: string)
    requires IsDigits(s)
    ensures IsDigits(Zeros(k) + s) && DecimalValue(Zeros(k) + s) == DecimalValue(s)
    decreases |s|
  {
    var t := Zeros(k) + s;
    if s == [] {
      assert t == Zeros(k);
      ZerosValue(k);
    } else {
      LeadingZerosValue(k, s[..|s| - 1]);
      assert t[..|t| - 1] == Zeros(k) + s[..|s| - 1];
    }
  }

  lemma {:induction false} ZerosValue(k: nat)
    ensures IsDigits(Zeros(k)) && DecimalValue(Zeros(k)) == 0
    decreases k
  {
    if k > 0 {
      ZerosValue(k - 1);
      assert Zeros(k)[..k - 1] == Zeros(k - 1);
    }
  }

  /** Left-pads `s` with zeros to at least `width` characters, as the format spec `0<width>` does for a non-negative integer. */
  function ZeroPad(s: string, width: nat): string
  {
    if |s| >= width then s else Zeros(width - |s|) + s
  }

  /** The padded form is `s` itself, preceded by just enough zeros to reach `width`. */
  lemma ZeroPadLayout(s: string, width: nat)
    ensures var p := ZeroPad(s, width);
      |p| == (if |s| >= width then |s| else width)
      && (forall j :: 0 <= j < |p| - |s| ==> p[j] == '0')
      && (forall k :: 0 <= k < |s| ==> p[|p| - |s| + k] == s[k])
  {
  }

  /**
   * The county code of the sheet at `sheetIndex` (counting from 0): `f"{sheetIndex + 1:02}"`.
   * It is the decimal form of `sheetIndex + 1`, with one leading zero when that form has a single digit.
   */
  function CountyCode(sheetIndex: nat): (r: string)
    ensures IsDigits(r) && DecimalValue(r) == sheetIndex + 1
    ensures |r| == if sheetIndex + 1 < 10 then 2 else |NatToDecimal(sheetIndex + 1)|
    ensures sheetIndex + 1 < 10 ==> r[0] == '0'
    ensures sheetIndex + 1 >= 10 ==> r == NatToDecimal(sheetIndex + 1)
  {
    var digits := NatToDecimal(sheetIndex + 1);
    NatToDecimalValue(sheetIndex + 1);
    LeadingZerosValue(if |digits| < 2 then 2 - |digits| else 0, digits);
    ZeroPad(digits, 2)
  }

  lemma CountyCodeExamples()
    ensures CountyCode(0) == "01" && CountyCode(2) == "03" && CountyCode(11) == "12" && CountyCode(19) == "20"
  {
  }
}
