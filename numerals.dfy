/**
 * Decimal digits: the digit fold the parser applies to a digit run, the
 * fractional fold it applies after a dot, and the decimal text that
 * `Display` writes for an integer.
 */
module Numerals {

  /** The characters `'0'..='9'` and `char::is_ascii_digit` accept: the ten ASCII digits. */
  predicate IsDigit(c: char) {
    '0' <= c <= '9'
  }

  /** The digits are exactly the ten ASCII digit characters. */
  lemma DigitCharacters(c: char)
    ensures IsDigit(c) <==> c in "0123456789"
  {
  }

  predicate AllDigits(s: string) {
    forall i :: 0 <= i < |s| ==> IsDigit(s[i])
  }

  /** The value of one digit character, as `char::to_digit(10)` gives it. */
  function Digit(c: char): (d: nat)
    requires IsDigit(c)
    ensures d < 10
  {
    c as int - '0' as int
  }

  /** The digit character whose value is `d`. */
  function DigitChar(d: nat): (c: char)
    requires d < 10
    ensures IsDigit(c) && Digit(c) == d
  {
    ('0' as int + d) as char
  }

  function Pow10(n: nat): (p: nat)
    ensures p >= 1
  {
    if n == 0 then 1 else 10 * Pow10(n - 1)
  }

  /**
   * The most-significant-first fold `acc * 10 + digit` over a digit run,
   * starting from 0. A run of k digits denotes a value below 10^k.
   */
  function DigitsValue(s: string): (v: nat)
    requires AllDigits(s)
    ensures v < Pow10(|s|)
    decreases |s|
  {
    if s == [] then 0 else DigitsValue(s[..|s| - 1]) * 10 + Digit(s[|s| - 1])
  }

  /**
   * The fold over the fractional digits d_1 d_2 ... d_k: the running sum
   * `acc + d_i * 10^(-i)`, with i counted from 1, starting from 0. It equals
   * the digits' integer value over 10^k, so it lies in [0, 1).
   */
  function Fraction(s: string): (f: real)
    requires AllDigits(s)
    ensures f == (DigitsValue(s) as real) / (Pow10(|s|) as real)
    ensures 0.0 <= f < 1.0
    decreases |s|
  {
    if s == [] then 0.0
    else
      var p, d := s[..|s| - 1], Digit(s[|s| - 1]);
      ShiftedSum(DigitsValue(p) as real, d as real, Pow10(|p|) as real);
      UnitInterval(DigitsValue(s) as real, Pow10(|s|) as real);
      Fraction(p) + (d as real) / (Pow10(|s|) as real)
  }

  lemma ShiftedSum(a: real, d: real, q: real)
    requires q > 0.0
    ensures a / q + d / (10.0 * q) == (10.0 * a + d) / (10.0 * q)
  {
    var x := a / q;
    var y := d / (10.0 * q);
    assert x * q == a;
    assert y * (10.0 * q) == d;
    assert (x + y) * (10.0 * q) == 10.0 * a + d;
  }

  lemma UnitInterval(v: real, w: real)
    requires 0.0 <= v < w
    ensures 0.0 <= v / w < 1.0
  {
    var x := v / w;
    assert x * w == v;
  }

  /**
   * The decimal text of a natural number, most significant digit first,
   * with no leading zero except for 0 itself; folding it back with
   * `DigitsValue` gives the number.
   */
  function Decimal(n: nat): (s: string)
    ensures s != [] && AllDigits(s)
    ensures DigitsValue(s) == n
    ensures s[0] == '0' ==> s == "0"
    decreases n
  {
    if n < 10 then [DigitChar(n)]
    else
      var p := Decimal(n / 10);
      var s := p + [DigitChar(n % 10)];
      assert s[..|s| - 1] == p;
      s
  }

  /**
   * `s` is the decimal text of the integer `n`: its digits with no leading
   * zero, after a minus sign when `n` is negative.
   */
  predicate IsDecimalOf(s: string, n: int) {
    if n >= 0 then
      s != [] && AllDigits(s) && DigitsValue(s) == n && (s[0] == '0' ==> s == "0")
    else
      |s| >= 2 && s[0] == '-' && AllDigits(s[1..]) && DigitsValue(s[1..]) == -n && s[1] != '0'
  }
}
