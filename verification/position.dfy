/** `detect_position_request` and `get_position_details`
    (pages/1_AI_Agent.py:166-196, 269-294): the user asks for one of the
    pools of the last listing by its 1-based position. */
module Position {
  import opened Options
  import opened Chars
  import opened Numerals
  import opened Scan
  import opened Pools

  /** The characters removed before the position patterns run (line 171). */
  predicate Removed(c: char) {
    c == '\'' || c == '"' || c == '(' || c == ')'
  }

  /** `re.sub(r'[\'"\(\)]', '', s)`: quotes and parentheses dropped, every
      other character kept in order. */
  function Clean(s: string): (r: string)
    ensures forall k :: 0 <= k < |r| ==> !Removed(r[k])
    ensures (forall k :: 0 <= k < |s| ==> !Removed(s[k])) ==> r == s
    ensures |r| <= |s|
  {
    if |s| == 0 then []
    else
      var rest := Clean(s[1..]);
      if Removed(s[0]) then rest
      else
        assert s == [s[0]] + s[1..];
        [s[0]] + rest
  }

  /** Cleaning keeps exactly the characters that are not removed. */
  lemma {:induction false} CleanKeeps(s: string)
    ensures forall c :: c in Clean(s) <==> c in s && !Removed(c)
    decreases |s|
  {
    if |s| > 0 {
      CleanKeeps(s[1..]);
      assert s == [s[0]] + s[1..];
    }
  }

  /** Cleaning works piece by piece. */
  lemma {:induction false} CleanConcat(a: string, b: string)
    ensures Clean(a + b) == Clean(a) + Clean(b)
    decreases |a|
  {
    if |a| > 0 {
      assert (a + b)[0] == a[0];
      assert (a + b)[1..] == a[1..] + b;
      CleanConcat(a[1..], b);
      if !Removed(a[0]) {
        assert Clean(a + b) == [a[0]] + Clean(a[1..] + b);
        assert Clean(a) == [a[0]] + Clean(a[1..]);
      }
    } else {
      assert a + b == b;
    }
  }

  /** A non-empty run of ASCII digits: what `(\d+)` captures. */
  predicate IsDigitText(t: string) {
    |t| > 0 && All(t, IsDigit)
  }

  // Every `\s*` below is followed by a letter, a digit or another `\s*`,
  // so the longest whitespace run is the only one that can lead to a match;
  // and since no piece before `(\d+)` consumes a digit, every way of
  // matching from one index captures the same run of digits.

  /** `\s*(\d+)` */
  function Number(s: string, i: nat): (r: Option<string>)
    ensures r.Some? ==> IsDigitText(r.value)
  {
    RunCapture(s, Spaces0(s, i), IsDigit)
  }

  /** `\s*(?:posicion|posición)?\s*(\d+)` */
  function PositionNumber(s: string, i: nat): (r: Option<string>)
    ensures r.Some? ==> IsDigitText(r.value)
  {
    Optionally(s, Spaces0(s, i), ["posicion", "posición"], Number)
  }

  /** `\s*(?:la)?\s*(?:posicion|posición)?\s*(\d+)` */
  function LaPositionNumber(s: string, i: nat): (r: Option<string>)
    ensures r.Some? ==> IsDigitText(r.value)
  {
    Optionally(s, Spaces0(s, i), ["la"], PositionNumber)
  }

  /** `\s*(?:de|sobre)?\s*(?:la)?\s*(?:posicion|posición)?\s*(\d+)` */
  function AboutPositionNumber(s: string, i: nat): (r: Option<string>)
    ensures r.Some? ==> IsDigitText(r.value)
  {
    Optionally(s, Spaces0(s, i), ["de", "sobre"], LaPositionNumber)
  }

  /** `info(?:rmacion|rmación)?\s*(?:de|sobre)?...(\d+)`, the second pattern
      and the tail of the first. */
  function Info(s: string, i: nat): (r: Option<string>)
    ensures r.Some? ==> IsDigitText(r.value)
  {
    var j :- Lit(s, i, "info");
    Optionally(s, j, ["rmacion", "rmación"], AboutPositionNumber)
  }

  /** `(?:mas|más)\s*info...(\d+)` */
  function MoreInfo(s: string, i: nat): (r: Option<string>)
    ensures r.Some? ==> IsDigitText(r.value)
  {
    Alternatives(s, i, ["mas", "más"], (s': string, j: nat) => Info(s', Spaces0(s', j)))
  }

  /** `detalle(?:s)?\s*(?:de|sobre)?...(\d+)` */
  function Detail(s: string, i: nat): (r: Option<string>)
    ensures r.Some? ==> IsDigitText(r.value)
  {
    var j :- Lit(s, i, "detalle");
    Optionally(s, j, ["s"], AboutPositionNumber)
  }

  /** `dame\s*(?:mas|más)?\s*(?:de|sobre)?...(\d+)` */
  function GiveMe(s: string, i: nat): (r: Option<string>)
    ensures r.Some? ==> IsDigitText(r.value)
  {
    var j :- Lit(s, i, "dame");
    Optionally(s, Spaces0(s, j), ["mas", "más"], AboutPositionNumber)
  }

  /** `ver\s*(?:la)?\s*(?:posicion|posición)?\s*(\d+)` */
  function See(s: string, i: nat): (r: Option<string>)
    ensures r.Some? ==> IsDigitText(r.value)
  {
    var j :- Lit(s, i, "ver");
    LaPositionNumber(s, j)
  }

  /** `mostrar\s*(?:la)?\s*(?:posicion|posición)?\s*(\d+)` */
  function Show(s: string, i: nat): (r: Option<string>)
    ensures r.Some? ==> IsDigitText(r.value)
  {
    var j :- Lit(s, i, "mostrar");
    LaPositionNumber(s, j)
  }

  /** `detalles\s*(?:del|de la|de)?\s*(\d+)` */
  function DetailsOf(s: string, i: nat): (r: Option<string>)
    ensures r.Some? ==> IsDigitText(r.value)
  {
    var j :- Lit(s, i, "detalles");
    Optionally(s, Spaces0(s, j), ["del", "de la", "de"], Number)
  }

  /** `mas\s*sobre\s*(?:el|la)?\s*(\d+)` */
  function MoreAbout(s: string, i: nat): (r: Option<string>)
    ensures r.Some? ==> IsDigitText(r.value)
  {
    var j :- Lit(s, i, "mas");
    var k :- Lit(s, Spaces0(s, j), "sobre");
    Optionally(s, Spaces0(s, k), ["el", "la"], Number)
  }

  /** `informacion\s*(?:del|de la)?\s*(\d+)` */
  function Information(s: string, i: nat): (r: Option<string>)
    ensures r.Some? ==> IsDigitText(r.value)
  {
    var j :- Lit(s, i, "informacion");
    Optionally(s, Spaces0(s, j), ["del", "de la"], Number)
  }

  /** `position_patterns`, in source order. */
  const PositionPatterns: seq<Matcher<string>> :=
    [MoreInfo, Info, Detail, GiveMe, See, Show, DetailsOf, MoreAbout, Information]

  /** Every position pattern captures a run of digits. */
  lemma PatternsCaptureDigits(s: string)
    ensures forall j, i: nat :: 0 <= j < |PositionPatterns| && PositionPatterns[j](s, i).Some?
                                ==> IsDigitText(PositionPatterns[j](s, i).value)
  {
    forall j, i: nat | 0 <= j < |PositionPatterns| && PositionPatterns[j](s, i).Some?
      ensures IsDigitText(PositionPatterns[j](s, i).value)
    {
      if j == 0 { assert MoreInfo(s, i).Some?; }
      else if j == 1 { assert Info(s, i).Some?; }
      else if j == 2 { assert Detail(s, i).Some?; }
      else if j == 3 { assert GiveMe(s, i).Some?; }
      else if j == 4 { assert See(s, i).Some?; }
      else if j == 5 { assert Show(s, i).Some?; }
      else if j == 6 { assert DetailsOf(s, i).Some?; }
      else if j == 7 { assert MoreAbout(s, i).Some?; }
      else { assert Information(s, i).Some?; }
    }
  }

  /** The text the position patterns run on. */
  function Cleaned(query: string): string {
    Clean(Lower(query))
  }

  /** The digits of the first position pattern, in order, that matches `c`. */
  function PositionDigits(c: string): (r: Option<string>)
    ensures r.Some? <==> exists j, i: nat :: 0 <= j < |PositionPatterns| && i <= |c| && PositionPatterns[j](c, i).Some?
    ensures r.Some? ==> IsDigitText(r.value)
    ensures r.Some? ==> exists j :: 0 <= j < |PositionPatterns| && Search(c, PositionPatterns[j]) == r
                                   && forall k :: 0 <= k < j ==> Search(c, PositionPatterns[k]).None?
  {
    var always := (d: string) => true;
    PatternsCaptureDigits(c);
    var r := FirstAccepted(c, PositionPatterns, always);
    if r.Some? then
      var j :| 0 <= j < |PositionPatterns| && Search(c, PositionPatterns[j]) == r
               && forall k :: 0 <= k < j ==> Declined(c, PositionPatterns[k], always);
      var i: nat :| i <= |c| && PositionPatterns[j](c, i) == r;
      assert forall k :: 0 <= k < j ==> Search(c, PositionPatterns[k]).None?;
      r
    else
      assert forall j :: 0 <= j < |PositionPatterns| ==> Search(c, PositionPatterns[j]).None?;
      r
  }

  /** `detect_position_request`: one less than the number captured by the
      first pattern that matches the cleaned query (so possibly -1), or
      `None` when no pattern matches. A capture too long for `int()` takes
      the `ValueError` branch, which returns `None` without trying the
      later patterns. */
  function DetectPositionRequest(query: string): (r: Option<int>)
    ensures r.Some? <==> PositionDigits(Cleaned(query)).Some? && |PositionDigits(Cleaned(query)).value| <= MaxStrDigits
    ensures r.Some? ==> r.value == DigitsValue(PositionDigits(Cleaned(query)).value) - 1
    ensures r.Some? ==> r.value >= -1
  {
    match PositionDigits(Cleaned(query))
    case Some(d) =>
      (match ParseDigits(d)
       case Some(position) => Some(position - 1)
       case None => None)
    case None => None
  }

  /** The error `get_position_details` reports (line 272). */
  const NotAvailable := "Posicion no disponible. Por favor, primero busca oportunidades."

  /** `get_position_details`, without the display formatting of the record:
      the pool at `index` of the last listing, or the "not available" error
      when there is no such position. */
  function GetPositionDetails(last: seq<Pool>, index: int): (r: Result<Pool, string>)
    ensures r.Ok? <==> 0 <= index < |last|
    ensures r.Ok? ==> r.value == last[index]
    ensures r.Err? ==> r.error == NotAvailable
  {
    if |last| == 0 || index < 0 || index >= |last| then Err(NotAvailable)
    else Ok(last[index])
  }
}
