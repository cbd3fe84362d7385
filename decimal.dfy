/**
 * Exact decimal arithmetic for the monetary amounts: Python's `float()` on decimal text,
 * `round(x, 2)` and the rendering of integers with `str(int)`. Amounts are exact reals, so
 * binary floating-point error is not part of this model.
 */
module Decimal {
  import opened Wrappers
  import opened Text

  function DigitValue(c: char): (d: nat)
    requires IsDigit(c)
    ensures d <= 9
  {
    c as int - '0' as int
  }

  /** The natural number written by a string of decimal digits (0 for the empty string). */
  function DigitsValue(s: string): nat
    requires AllDigits(s)
    decreases |s|
  {
    if s == [] then 0 else DigitsValue(s[..|s| - 1]) * 10 + DigitValue(s[|s| - 1])
  }

  function Pow10(n: nat): (p: nat)
    ensures p >= 1
  {
    if n == 0 then 1 else 10 * Pow10(n - 1)
  }

  /** The first position of `c` in `s`. */
  function IndexOf(s: string, c: char): (i: nat)
    requires c in s
    ensures i < |s| && s[i] == c
  {
    if s[0] == c then 0 else 1 + IndexOf(s[1..], c)
  }

  /** Nothing before the first position of `c` is `c`. */
  lemma {:induction false} IndexOfFirst(s: string, c: char, k: nat)
    requires k < |s| && s[k] == c
    ensures IndexOf(s, c) <= k
  {
    if s[0] != c {
      IndexOfFirst(s[1..], c, k - 1);
    }
  }

  /** Unsigned decimal text `ddd`, `ddd.ddd`, `ddd.` or `.ddd`, as `float()` reads it. */
  function UnsignedValue(t: string): Option<real>
  {
    if '.' in t then
      var i := IndexOf(t, '.');
      FractionValue(t[..i], t[i + 1..])
    else if t != [] && AllDigits(t) then Some(DecimalValue(t, ""))
    else None
  }

  /** The number the decimal numeral `whole.frac` denotes. */
  function DecimalValue(whole: string, frac: string): real
    requires AllDigits(whole) && AllDigits(frac)
  {
    DigitsValue(whole) as real + DigitsValue(frac) as real / Pow10(|frac|) as real
  }

  /** The value of `whole.frac`, when both parts are digits and not both empty. */
  function FractionValue(whole: string, frac: string): Option<real>
  {
    if AllDigits(whole) && AllDigits(frac) && |whole| + |frac| > 0
    then Some(DecimalValue(whole, frac))
    else None
  }

  /**
   * Python's `float(s)` on decimal text: surrounding whitespace, an optional sign, then
   * unsigned decimal text. `None` stands for the `ValueError` that `float()` raises.
   */
  function PyFloat(s: string): Option<real>
  {
    var t := Strip(s);
    if t != [] && (t[0] == '-' || t[0] == '+') then
      match UnsignedValue(t[1..])
      case Some(u) => Some(if t[0] == '-' then -u else u)
      case None => None
    else UnsignedValue(t)
  }

  lemma UnsignedFraction(whole: string, frac: string)
    requires AllDigits(whole) && AllDigits(frac) && |whole| + |frac| > 0
    ensures UnsignedValue(whole + "." + frac) == FractionValue(whole, frac)
  {
    var t := whole + "." + frac;
    assert t[|whole|] == '.';
    assert t[..|whole|] == whole;
    IndexOfFirst(t, '.', |whole|);
    assert forall m | 0 <= m < |whole| :: t[m] == whole[m] && t[m] != '.';
    assert t[|whole| + 1..] == frac;
  }

  lemma PyFloatFraction(whole: string, frac: string)
    requires AllDigits(whole) && AllDigits(frac) && |whole| + |frac| > 0
    ensures PyFloat(whole + "." + frac) == Some(DecimalValue(whole, frac))
  {
    var t := whole + "." + frac;
    var first := if whole != [] then whole[0] else '.';
    var last := if frac != [] then frac[|frac| - 1] else '.';
    assert t[0] == first && t[|t| - 1] == last;
    assert !IsSpace(first) && !IsSpace(last) && first != '-' && first != '+';
    StripUnchanged(t);
    assert PyFloat(t) == UnsignedValue(t);
    UnsignedFraction(whole, frac);
  }

  /** Two decimal places are hundredths. */
  lemma DecimalValueCents(whole: string, d: string)
    requires AllDigits(whole) && AllDigits(d) && |d| == 2
    ensures DecimalValue(whole, d) == DigitsValue(whole) as real + DigitsValue(d) as real / 100.0
  {
    assert Pow10(|d|) == 100;
  }

  lemma DecimalValueWhole(whole: string)
    requires AllDigits(whole)
    ensures DecimalValue(whole, "") == DigitsValue(whole) as real
  {
  }

  lemma PyFloatWhole(whole: string)
    requires AllDigits(whole) && whole != []
    ensures PyFloat(whole) == Some(DecimalValue(whole, ""))
  {
    assert IsDigit(whole[0]) && IsDigit(whole[|whole| - 1]);
    StripUnchanged(whole);
    assert '.' !in whole;
  }

  /** A whole number of cents. */
  predicate IsCents(x: real)
  {
    (x * 100.0).Floor as real == x * 100.0
  }

  /** `round(x, 2)`: the nearest whole number of cents, ties to the even cent. */
  function Round2(x: real): real
  {
    RoundHalfEven(x * 100.0) as real / 100.0
  }

  /** The whole number nearest to `scaled`, ties to the even one. */
  function RoundHalfEven(scaled: real): int
  {
    var n := scaled.Floor;
    var frac := scaled - n as real;
    if frac < 0.5 then n else if frac > 0.5 then n + 1 else if n % 2 == 0 then n else n + 1
  }

  /** The rounded value is a whole number of cents, at most half a cent away. */
  lemma Round2Near(x: real)
    ensures IsCents(Round2(x))
    ensures -0.005 <= Round2(x) - x <= 0.005
  {
    Round2IsCents(x);
    Round2Bound(x);
  }

  lemma Round2IsCents(x: real)
    ensures IsCents(Round2(x))
  {
    IntCents(RoundHalfEven(x * 100.0));
  }

  /** A whole number divided by 100 is a whole number of cents. */
  lemma IntCents(m: int)
    ensures IsCents(m as real / 100.0)
  {
    assert (m as real / 100.0) * 100.0 == m as real;
  }

  lemma Round2Bound(x: real)
    ensures -0.005 <= Round2(x) - x <= 0.005
  {
    var y := x * 100.0;
    var m := RoundHalfEven(y);
    RoundHalfEvenNear(y);
    assert Round2(x) - x == (m as real - y) / 100.0;
  }

  /** The chosen whole number is at most one half away from `scaled`. */
  lemma RoundHalfEvenNear(scaled: real)
    ensures -0.5 <= RoundHalfEven(scaled) as real - scaled <= 0.5
  {
  }

  lemma {:induction false} Round2Cents(x: real)
    requires IsCents(x)
    ensures Round2(x) == x
  {
    var n := (x * 100.0).Floor;
    assert x * 100.0 - n as real == 0.0;
  }

  lemma Round2Idempotent(x: real)
    ensures Round2(Round2(x)) == Round2(x)
  {
    Round2Near(x);
    Round2Cents(Round2(x));
  }

  /** `str(n)` for a natural number. */
  function NatToString(n: nat): (s: string)
    ensures s != [] && AllDigits(s)
  {
    var d := ['0' + (n % 10) as char];
    if n < 10 then d else NatToString(n / 10) + d
  }

  /** `str(n)` for an integer. */
  function IntToString(n: int): string
  {
    if n < 0 then "-" + NatToString(-n) else NatToString(n)
  }

  lemma {:induction false} NatToStringValue(n: nat)
    ensures DigitsValue(NatToString(n)) == n
  {
    var s := NatToString(n);
    if n >= 10 {
      NatToStringValue(n / 10);
      assert s[..|s| - 1] == NatToString(n / 10);
    }
  }

  /** The digits of a literal numeral, read through `str(n)`. */
  lemma DigitsValueOf(n: nat, s: string)
    requires s == NatToString(n)
    ensures AllDigits(s) && DigitsValue(s) == n
  {
    NatToStringValue(n);
  }
}
