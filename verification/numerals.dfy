/** Decimal numerals: what `int()` and `float()` read from a captured digit
    string, and what `str()` writes for a natural number. */
module Numerals {
  import opened Options
  import opened Chars

  function DigitValue(c: char): nat {
    if IsDigit(c) then c as int - '0' as int else 0
  }

  function DigitChar(d: nat): (c: char)
    requires d < 10
    ensures IsDigit(c) && DigitValue(c) == d
  {
    ('0' as int + d) as char
  }

  /** `int(t)` for a string of decimal digits, most significant first. */
  function DigitsValue(t: string): nat
    decreases |t|
  {
    if |t| == 0 then 0 else DigitsValue(t[..|t| - 1]) * 10 + DigitValue(t[|t| - 1])
  }

  /** `str(n)` for a natural number: no sign, no leading zero. */
  function NatText(n: nat): (t: string)
    ensures |t| > 0 && All(t, IsDigit)
    ensures |t| > 1 ==> t[0] != '0'
    decreases n
  {
    if n < 10 then [DigitChar(n)] else NatText(n / 10) + [DigitChar(n % 10)]
  }

  /** Reading back what `str()` wrote gives the number again. */
  lemma {:induction false} NatTextRoundTrip(n: nat)
    ensures DigitsValue(NatText(n)) == n
    decreases n
  {
    if n >= 10 {
      NatTextRoundTrip(n / 10);
      var t := NatText(n);
      assert t[..|t| - 1] == NatText(n / 10);
    }
  }

  function Pow10(n: nat): (p: nat)
    ensures p > 0
  {
    if n == 0 then 1 else 10 * Pow10(n - 1)
  }

  /** CPython's limit on the number of digits `int()` converts from decimal
      text (`sys.int_info.default_max_str_digits`, in force since 3.11 and
      the 3.7.14 to 3.10.7 security releases): longer text raises
      `ValueError`. */
  const MaxStrDigits: nat := 4300

  /** `int(t)` for a run of decimal digits, `None` where it raises `ValueError`. */
  function ParseDigits(t: string): (r: Option<nat>)
    ensures r.Some? <==> |t| <= MaxStrDigits
    ensures r.Some? ==> r.value == DigitsValue(t)
  {
    if |t| > MaxStrDigits then None else Some(DigitsValue(t))
  }

  /** `n // 10 < p` exactly when `n < 10 * p`. */
  lemma DivTenBelow(n: nat, p: nat)
    ensures n / 10 < p <==> n < 10 * p
  {
  }

  /** `str(n)` has at most `k` digits exactly when `n < 10^k`. */
  lemma {:induction false} NatTextLength(n: nat, k: nat)
    requires k > 0
    ensures |NatText(n)| <= k <==> n < Pow10(k)
    decreases n
  {
    if n >= 10 {
      assert |NatText(n)| == |NatText(n / 10)| + 1;
      if k > 1 {
        NatTextLength(n / 10, k - 1);
        DivTenBelow(n, Pow10(k - 1));
      }
    } else {
      assert Pow10(k) == 10 * Pow10(k - 1);
    }
  }

  /** The numeral shape `\d+(?:\.\d+)?` captured for thresholds. */
  predicate IsDecimal(t: string) {
    var d := RunEnd(t, 0, IsDigit);
    0 < d && (d == |t| || (t[d] == '.' && d + 1 < |t| && RunEnd(t, d + 1, IsDigit) == |t|))
  }

  /** `float(t)` for a decimal numeral, as an exact real. */
  function DecimalValue(t: string): real {
    var d := RunEnd(t, 0, IsDigit);
    var whole := DigitsValue(t[..d]) as real;
    if d < |t| then whole + (DigitsValue(t[d + 1..]) as real) / (Pow10(|t| - d - 1) as real)
    else whole
  }

  /** A decimal numeral is made of digits and at most a point. */
  lemma DecimalChars(u: string)
    requires IsDecimal(u)
    ensures forall k :: 0 <= k < |u| ==> IsDigit(u[k]) || u[k] == '.'
  {
    var d := RunEnd(u, 0, IsDigit);
    forall k | 0 <= k < |u| ensures IsDigit(u[k]) || u[k] == '.' {
      assert k < d || k == d || k > d;
    }
  }

  /** A whole-number numeral is a decimal whose value is the number itself. */
  lemma WholeNumeral(n: nat)
    ensures IsDecimal(NatText(n))
    ensures DecimalValue(NatText(n)) == n as real
  {
    var t := NatText(n);
    assert RunEnd(t, 0, IsDigit) == |t|;
    assert t[..|t|] == t;
    NatTextRoundTrip(n);
  }
}
