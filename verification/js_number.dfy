/** The JavaScript number operations the client code uses: `parseInt` with
    radix 10 or 16 (NaN as `None`) and `Math.max(lo, Math.min(hi, x))`. */
module JsNumber {
  import opened Util

  predicate IsHexLetter(c: char) {
    ('a' <= c <= 'f') || ('A' <= c <= 'F')
  }

  /** `c` is a digit of the given radix (10 or 16). */
  predicate IsRadixDigit(c: char, radix: nat) {
    IsDigit(c) || (radix == 16 && IsHexLetter(c))
  }

  function RadixDigitValue(c: char, radix: nat): (d: nat)
    requires IsRadixDigit(c, radix)
    ensures d < radix || (radix != 16 && d < 10)
  {
    if IsDigit(c) then DigitValue(c)
    else if 'a' <= c <= 'f' then (c as int) - ('a' as int) + 10
    else (c as int) - ('A' as int) + 10
  }

  /** Length of the longest prefix of radix digits. */
  function DigitRun(s: string, radix: nat): (n: nat)
    ensures n <= |s|
    ensures forall i | 0 <= i < n :: IsRadixDigit(s[i], radix)
    ensures n < |s| ==> !IsRadixDigit(s[n], radix)
  {
    if |s| > 0 && IsRadixDigit(s[0], radix) then 1 + DigitRun(s[1..], radix) else 0
  }

  /** The longest prefix of radix digits. */
  function LeadingDigits(s: string, radix: nat): (d: string)
    ensures d == s[..DigitRun(s, radix)]
    ensures forall i | 0 <= i < |d| :: IsRadixDigit(d[i], radix)
  {
    var n := DigitRun(s, radix);
    assert forall i | 0 <= i < n :: s[..n][i] == s[i];
    s[..n]
  }

  /** Positional value of a string of radix digits, most significant first. */
  function RadixValue(s: string, radix: nat): nat
    requires forall i | 0 <= i < |s| :: IsRadixDigit(s[i], radix)
  {
    if |s| == 0 then 0
    else RadixValue(s[..|s| - 1], radix) * radix + RadixDigitValue(s[|s| - 1], radix)
  }

  function SkipJsSpace(s: string): (r: string)
    ensures |r| <= |s| && r == s[|s| - |r|..]
    ensures |r| > 0 ==> !IsJsSpace(r[0])
  {
    if |s| > 0 && IsJsSpace(s[0]) then SkipJsSpace(s[1..]) else s
  }

  /** `parseInt(s, radix)` for radix 10 or 16; `None` stands for NaN. A result of
      -0 is reported as 0. */
  function ParseInt(s: string, radix: nat): (r: Option<int>)
    requires radix == 10 || radix == 16
  {
    var t := SkipJsSpace(s);
    var negative := |t| > 0 && t[0] == '-';
    var unsigned := if |t| > 0 && (t[0] == '-' || t[0] == '+') then t[1..] else t;
    var body :=
      if radix == 16 && |unsigned| >= 2 && unsigned[0] == '0' && (unsigned[1] == 'x' || unsigned[1] == 'X')
      then unsigned[2..] else unsigned;
    var digits := LeadingDigits(body, radix);
    if |digits| == 0 then None
    else
      var v: int := RadixValue(digits, radix);
      Some(if negative then -v else v)
  }

  lemma {:induction false} RadixValueDecimal(s: string)
    requires forall i | 0 <= i < |s| :: IsDigit(s[i])
    ensures RadixValue(s, 10) == DigitsValue(s)
  {
    if |s| > 0 {
      RadixValueDecimal(s[..|s| - 1]);
    }
  }

  lemma DigitRunAllDigits(s: string, radix: nat)
    requires forall i | 0 <= i < |s| :: IsRadixDigit(s[i], radix)
    ensures DigitRun(s, radix) == |s|
  {
  }

  /** `parseInt(String(n), 10) === n` for every non-negative integer. */
  lemma ParseIntNatToString(n: nat)
    ensures ParseInt(NatToString(n), 10) == Some(n)
  {
    var s := NatToString(n);
    assert !IsJsSpace(s[0]) && s[0] != '-' && s[0] != '+';
    DigitRunAllDigits(s, 10);
    assert s[..|s|] == s;
    RadixValueDecimal(s);
    NatToStringValue(n);
  }

  /** `parseInt("-" + String(m), 10) === -m` for every positive integer. */
  lemma ParseIntNegative(m: nat)
    ensures ParseInt("-" + NatToString(m), 10) == Some(-(m as int))
  {
    var d := NatToString(m);
    var s := "-" + d;
    assert s[0] == '-' && !IsJsSpace(s[0]);
    assert SkipJsSpace(s) == s;
    assert s[1..] == d;
    DigitRunAllDigits(d, 10);
    assert d[..|d|] == d;
    RadixValueDecimal(d);
    NatToStringValue(m);
  }

  /** `parseInt(String(i), 10) === i` for every integer. */
  lemma ParseIntIntToString(i: int)
    ensures ParseInt(IntToString(i), 10) == Some(i)
  {
    if i < 0 {
      var m: nat := -i;
      assert IntToString(i) == "-" + NatToString(m);
      ParseIntNegative(m);
      assert -(m as int) == i;
    } else {
      assert IntToString(i) == NatToString(i);
      ParseIntNatToString(i);
    }
  }

  /** No digit is white space. */
  lemma RadixDigitNotSpace(c: char, radix: nat)
    requires IsRadixDigit(c, radix)
    ensures !IsJsSpace(c)
  {
    assert '0' <= c <= 'f';
  }

  /** The value of two hexadecimal digits, most significant first. */
  function HexByte(a: char, b: char): (v: nat)
    requires IsRadixDigit(a, 16) && IsRadixDigit(b, 16)
    ensures v <= 255
  {
    16 * RadixDigitValue(a, 16) + RadixDigitValue(b, 16)
  }

  /** Two hexadecimal digits parse to their positional value. */
  lemma ParseIntTwoHexDigits(a: char, b: char)
    requires IsRadixDigit(a, 16) && IsRadixDigit(b, 16)
    ensures ParseInt([a, b], 16) == Some(HexByte(a, b))
  {
    var s := [a, b];
    RadixDigitNotSpace(a, 16);
    assert b != 'x' && b != 'X';
    assert SkipJsSpace(s) == s;
    assert DigitRun(s[1..], 16) == 1;
    assert DigitRun(s, 16) == 2;
    assert s[..2] == s;
    assert s[..1] == [a];
    assert RadixValue([a], 16) == RadixDigitValue(a, 16);
    assert RadixValue(s, 16) == HexByte(a, b);
  }

  /** A text with no digit after the optional sign gives NaN. */
  lemma ParseIntNoDigits(s: string)
    requires |s| == 0 || (!IsDigit(s[0]) && !IsJsSpace(s[0]) && s[0] != '-' && s[0] != '+')
    ensures ParseInt(s, 10).None?
  {
  }

  /** `Math.max(lo, Math.min(hi, x))`. */
  function Clamp(lo: real, hi: real, x: real): (r: real)
    requires lo <= hi
    ensures lo <= r <= hi
    ensures lo <= x <= hi ==> r == x
    ensures x < lo ==> r == lo
    ensures x > hi ==> r == hi
  {
    if x > hi then hi else if x < lo then lo else x
  }
}
