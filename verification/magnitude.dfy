/** Threshold values: `process_tvl_value` and how a stored threshold is read
    back with `float()` (pages/1_AI_Agent.py:43-51, 230-234). */
module Magnitude {
  import opened Options
  import opened Chars
  import opened Numerals

  /** A stored `tvl_min` or `apy_min`. The source stores text: either the
      numeral exactly as captured, or `str()` of the float a `k`/`m` suffix
      produced, whose rendering is not modelled and is kept as its value. */
  datatype Amount = Verbatim(text: string) | Scaled(value: real)

  /** `float(stored)`. */
  function AmountValue(a: Amount): real {
    match a
    case Verbatim(t) => DecimalValue(t)
    case Scaled(v) => v
  }

  /** Python truthiness of a stored threshold: an empty string is false and
      `str()` of a float never is. */
  predicate AmountSet(o: Option<Amount>) {
    match o
    case None => false
    case Some(Verbatim(t)) => |t| > 0
    case Some(Scaled(_)) => true
  }

  /** The text ends with a `k` or `m` scale suffix. */
  predicate HasScale(t: string) {
    |t| > 0 && (t[|t| - 1] == 'k' || t[|t| - 1] == 'm')
  }

  /** The numeral shape of a TVL capture, `\d+(?:\.\d+)?(?:[km])?`. */
  predicate IsMagnitude(t: string) {
    IsDecimal(t) || (HasScale(t) && IsDecimal(t[..|t| - 1]))
  }

  function StripEnd(t: string): (r: string)
    ensures |r| <= |t| && r == t[..|r|]
    ensures |r| == 0 || !IsSpace(r[|r| - 1])
  {
    if |t| > 0 && IsSpace(t[|t| - 1]) then StripEnd(t[..|t| - 1]) else t
  }

  /** `str.strip()`: leading and trailing whitespace removed. */
  function Strip(t: string): string {
    StripEnd(t[RunEnd(t, 0, IsSpace)..])
  }

  /** `process_tvl_value`: a `k` suffix multiplies by one thousand, an `m`
      suffix by one million, anything else is returned as it is. The
      source's `float()` must accept the text before a suffix. */
  function ProcessTvlValue(valueStr: string): (r: Amount)
    requires HasScale(Lower(Strip(valueStr))) ==> IsDecimal(Lower(Strip(valueStr))[..|Lower(Strip(valueStr))| - 1])
    ensures var t := Lower(Strip(valueStr));
            && (!HasScale(t) ==> r == Verbatim(t))
            && (HasScale(t) && t[|t| - 1] == 'k' ==> r.Scaled? && AmountValue(r) == DecimalValue(t[..|t| - 1]) * 1000.0)
            && (HasScale(t) && t[|t| - 1] == 'm' ==> r.Scaled? && AmountValue(r) == DecimalValue(t[..|t| - 1]) * 1000000.0)
  {
    var t := Lower(Strip(valueStr));
    if !HasScale(t) then Verbatim(t)
    else
      var stem := DecimalValue(t[..|t| - 1]);
      if t[|t| - 1] == 'k' then Scaled(stem * 1000.0) else Scaled(stem * 1000000.0)
  }

  /** On text that is already stripped and lower-case, the suffix alone
      decides what `process_tvl_value` returns. */
  lemma ProcessCanonical(t: string)
    requires Lower(Strip(t)) == t
    requires HasScale(t) ==> IsDecimal(t[..|t| - 1])
    ensures HasScale(t) ==> ProcessTvlValue(t) == Scaled(DecimalValue(t[..|t| - 1]) * (if t[|t| - 1] == 'k' then 1000.0 else 1000000.0))
    ensures !HasScale(t) ==> ProcessTvlValue(t) == Verbatim(t)
  {
  }

  /** Text without whitespace or upper-case letters is left as it is by
      stripping and lower-casing. */
  lemma Canonical(t: string)
    requires forall k :: 0 <= k < |t| ==> !IsSpace(t[k]) && LowerChar(t[k]) == t[k]
    ensures Lower(Strip(t)) == t
  {
    assert RunEnd(t, 0, IsSpace) == 0;
    assert t[0..] == t;
    assert StripEnd(t) == t;
    assert Lower(t) == t;
  }

  /** A captured numeral is already stripped and lower-case, so the no-suffix
      case returns the capture itself. */
  lemma CaptureUnchanged(t: string)
    requires IsDecimal(t)
    ensures ProcessTvlValue(t) == Verbatim(t)
  {
    DecimalChars(t);
    Canonical(t);
    assert !HasScale(t);
    ProcessCanonical(t);
  }

  /** "1.5" is the decimal one and a half. */
  lemma OneAndAHalf(stem: string)
    requires stem == "1.5"
    ensures IsDecimal(stem) && DecimalValue(stem) == 1.5
  {
    assert RunEnd(stem, 0, IsDigit) == 1;
    assert RunEnd(stem, 2, IsDigit) == 3;
    assert stem[..1] == "1" && stem[2..] == "5";
    assert DigitsValue("1") == 1 && DigitsValue("5") == 5 && Pow10(1) == 10;
  }

  /** "1.5k" is read as 1500. */
  lemma ThousandsExample(t: string)
    requires t == "1.5k"
    ensures AmountValue(ProcessTvlValue(t)) == 1500.0
  {
    assert t[0] == '1' && t[1] == '.' && t[2] == '5' && t[3] == 'k';
    Canonical(t);
    OneAndAHalf(t[..3]);
    ProcessCanonical(t);
  }

  /** "2M" is read as two million: the text is lower-cased first. */
  lemma MillionsExample(t: string)
    requires t == "2M"
    ensures AmountValue(ProcessTvlValue(t)) == 2000000.0
  {
    assert Strip(t) == t by {
      assert RunEnd(t, 0, IsSpace) == 0;
      assert t[0..] == t;
    }
    var u := Lower(t);
    assert u[0] == '2' && u[1] == 'm' && |u| == 2;
    assert u[..1] == "2";
    assert DecimalValue(u[..1]) == 2.0 by {
      assert RunEnd("2", 0, IsDigit) == 1;
      assert "2"[..1] == "2";
    }
  }

  /** "500" has no suffix and is kept as the text "500", worth 500. */
  lemma PlainExample()
    ensures ProcessTvlValue("500") == Verbatim("500")
    ensures AmountValue(ProcessTvlValue("500")) == 500.0
  {
    assert NatText(500) == "500";
    WholeNumeral(500);
    CaptureUnchanged("500");
  }
}
