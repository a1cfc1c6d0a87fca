/** Worked requests for the position parser (pages/1_AI_Agent.py:166-196). */
module PositionRequests {
  import opened Options
  import opened Chars
  import opened Numerals
  import opened Scan
  import opened Position

  /** The index asked for is read from the digits the patterns captured,
      and there is none when `int()` refuses them as too long. */
  lemma DetectedFrom(query: string, d: string)
    requires PositionDigits(Cleaned(query)) == Some(d)
    ensures |d| <= MaxStrDigits ==> DetectPositionRequest(query) == Some(DigitsValue(d) - 1)
    ensures |d| > MaxStrDigits ==> DetectPositionRequest(query) == None
  {
    var r := DetectPositionRequest(query);
    if |d| <= MaxStrDigits {
      assert r.Some?;
      assert r.value == DigitsValue(d) - 1;
    }
  }

  /** "info " followed by digits is left as it is by lower-casing and cleaning. */
  lemma InfoCleaned(t: string)
    requires IsDigitText(t)
    ensures Cleaned("info " + t) == "info " + t
  {
    var c := "info " + t;
    forall k | 0 <= k < |c| ensures LowerChar(c[k]) == c[k] && !Removed(c[k]) {
      if k >= 5 { assert c[k] == t[k - 5]; }
    }
    assert Lower(c) == c;
  }

  /** `MoreInfo` needs an "m" where it starts. */
  lemma MoreInfoNeedsM(s: string, i: nat)
    requires i < |s| ==> s[i] != 'm'
    ensures MoreInfo(s, i).None?
  {
    NotStartsAt(s, i, "mas");
    NotStartsAt(s, i, "más");
  }

  /** The first position pattern is `MoreInfo`. */
  lemma FirstPattern(c: string, i: nat)
    ensures PositionPatterns[0](c, i) == MoreInfo(c, i)
  {
    assert PositionPatterns[0] == MoreInfo;
  }

  /** A text without an "m" is never matched by the first pattern. */
  lemma NoMoreInfoWithoutM(c: string)
    requires forall i :: 0 <= i < |c| ==> c[i] != 'm'
    ensures Search(c, PositionPatterns[0]).None?
  {
    forall i: nat | i <= |c| ensures PositionPatterns[0](c, i).None? {
      MoreInfoNeedsM(c, i);
      FirstPattern(c, i);
    }
  }

  /** "info " followed by digits contains no "m", so the first pattern never matches. */
  lemma InfoNotMoreInfo(t: string)
    requires IsDigitText(t)
    ensures Search("info " + t, PositionPatterns[0]).None?
  {
    var c := "info " + t;
    forall i | 0 <= i < |c| ensures c[i] != 'm' {
      if i >= 5 { assert c[i] == t[i - 5]; }
    }
    NoMoreInfoWithoutM(c);
  }

  /** The second pattern matches "info " followed by digits at its start and captures the digits. */
  lemma InfoCaptures(t: string)
    requires IsDigitText(t)
    ensures Info("info " + t, 0) == Some(t)
  {
    var c := "info " + t;
    assert forall k :: 5 <= k < |c| ==> c[k] == t[k - 5];
    assert c[..4] == "info" && c[4] == ' ';
    assert Lit(c, 0, "info") == Some(4);
    NotStartsAt(c, 4, "rmacion");
    NotStartsAt(c, 4, "rmación");
    assert IsDigit(c[5]);
    RunEndAt(c, 4, 5, IsSpace);
    RunEndAt(c, 5, 5, IsSpace);
    NotStartsAt(c, 5, "de");
    NotStartsAt(c, 5, "sobre");
    NotStartsAt(c, 5, "la");
    NotStartsAt(c, 5, "posicion");
    NotStartsAt(c, 5, "posición");
    RunEndAt(c, 5, |c|, IsDigit);
    assert c[5..|c|] == t;
    assert Number(c, 5) == Some(t);
    OptionalAbsent(c, 5, ["posicion", "posición"], Number);
    assert PositionNumber(c, 5) == Some(t);
    OptionalAbsent(c, 5, ["la"], PositionNumber);
    assert LaPositionNumber(c, 5) == Some(t);
    OptionalAbsent(c, 5, ["de", "sobre"], LaPositionNumber);
    assert AboutPositionNumber(c, 4) == Some(t);
    OptionalAbsent(c, 4, ["rmacion", "rmación"], AboutPositionNumber);
  }

  /** The second position pattern is `Info`. */
  lemma SecondPattern(c: string, i: nat)
    ensures PositionPatterns[1](c, i) == Info(c, i)
  {
    assert PositionPatterns[1] == Info;
  }

  /** The second pattern, searched in "info " followed by digits, finds the digits. */
  lemma InfoSearch(t: string)
    requires IsDigitText(t)
    ensures Search("info " + t, PositionPatterns[1]) == Some(t)
  {
    var c := "info " + t;
    InfoCaptures(t);
    SecondPattern(c, 0);
    assert Leftmost(c, PositionPatterns[1], 0) == Some(0);
  }

  /** "info " followed by digits: the second pattern captures the digits. */
  lemma InfoDigits(t: string)
    requires IsDigitText(t)
    ensures PositionDigits("info " + t) == Some(t)
  {
    var c := "info " + t;
    InfoNotMoreInfo(t);
    InfoSearch(t);
    var r := PositionDigits(c);
    assert r.Some? by {
      SecondPattern(c, 0);
      InfoCaptures(t);
    }
    var j :| 0 <= j < |PositionPatterns| && Search(c, PositionPatterns[j]) == r
             && forall k :: 0 <= k < j ==> Search(c, PositionPatterns[k]).None?;
    assert j == 1;
  }

  /** "info " followed by digits asks for one less than the number written,
      unless the number is too long for `int()`. */
  lemma InfoIndex(t: string)
    requires IsDigitText(t)
    ensures |t| <= MaxStrDigits ==> DetectPositionRequest("info " + t) == Some(DigitsValue(t) - 1)
    ensures |t| > MaxStrDigits ==> DetectPositionRequest("info " + t) == None
  {
    InfoCleaned(t);
    InfoDigits(t);
    DetectedFrom("info " + t, t);
  }

  /** A request written "info N", with N the number shown in a listing, is
      found by the second pattern and asks for index N - 1, as long as N
      has no more digits than `int()` converts. */
  lemma {:induction false} InfoRequest(n: nat)
    ensures n + 1 < Pow10(MaxStrDigits) ==> DetectPositionRequest("info " + NatText(n + 1)) == Some(n)
    ensures n + 1 >= Pow10(MaxStrDigits) ==> DetectPositionRequest("info " + NatText(n + 1)) == None
  {
    var t := NatText(n + 1);
    InfoIndex(t);
    NatTextRoundTrip(n + 1);
    NatTextLength(n + 1, MaxStrDigits);
  }

  /** Cleaning "info (3)" leaves "info 3". */
  lemma ParenthesesDropped()
    ensures Cleaned("info (3)") == "info " + "3"
  {
    assert Lower("info (3)") == "info (3)";
    assert "info (3)" == "info " + "(" + "3" + ")";
    ParenthesesRemoved("info ", "3");
  }

  /** Parentheses around a number are dropped. */
  lemma ParenthesesRemoved(p: string, t: string)
    requires forall k :: 0 <= k < |p| ==> !Removed(p[k])
    requires forall k :: 0 <= k < |t| ==> !Removed(t[k])
    ensures Clean(p + "(" + t + ")") == p + t
  {
    var open, close: string := "(", ")";
    assert Clean(open) == [] && Clean(close) == [];
    assert Clean(p) == p && Clean(t) == t;
    CleanConcat(p, open);
    assert Clean(p + open) == p;
    CleanConcat(p + open, t);
    assert Clean(p + open + t) == p + t;
    CleanConcat(p + open + t, close);
    assert Clean(p + open + t + close) == p + t + [];
    assert p + t + [] == p + t;
  }

  /** "info (3)": the parentheses are dropped and index 2 is asked for. */
  lemma InfoParenthesesExample()
    ensures DetectPositionRequest("info (3)") == Some(2)
  {
    ParenthesesDropped();
    assert IsDigitText("3");
    InfoDigits("3");
    assert DigitsValue("3") == 3 && |"3"| <= MaxStrDigits;
    DetectedFrom("info (3)", "3");
  }
}
