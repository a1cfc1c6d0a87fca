/** The regular expressions of `detect_all_variables`
    (pages/1_AI_Agent.py:60-134), each written as a matcher anchored at an
    index of the lower-cased query. Blockchain patterns yield the end of the
    match; the others yield their capture group. */
module SlotPatterns {
  import opened Options
  import opened Chars
  import opened Numerals
  import opened Scan
  import opened Magnitude

  // ---------------------------------------------------------------- shared

  /** `\s+REST` */
  function Spaced<T>(s: string, i: nat, rest: Matcher<T>): Option<T> {
    match Spaces1(s, i)
    case Some(j) => rest(s, j)
    case None => None
  }

  /** `(?:W\s+)?REST`: the optional word is taken when `rest` then matches. */
  function SpacedOptional<T(==)>(s: string, i: nat, w: string, rest: Matcher<T>): (r: Option<T>)
    ensures r.Some? ==> exists j: nat :: r == rest(s, j)
  {
    OrElse(if StartsAt(s, i, w) then Spaced(s, i + |w|, rest) else None, rest(s, i))
  }

  /** A non-empty run of word characters: what every `(\w+)` captures. */
  predicate IsWordText(t: string) {
    |t| > 0 && All(t, IsWordChar)
  }

  /** `(\w+)` closing a pattern. */
  function Word(s: string, i: nat): (r: Option<string>)
    ensures r.Some? ==> IsWordText(r.value)
  {
    RunCapture(s, i, IsWordChar)
  }

  /** `(?:de\s+)?(\w+)` closing the token and protocol patterns: "de" is
      skipped when a word follows it, and is itself the capture otherwise. */
  function DeWord(s: string, i: nat): (r: Option<string>)
    ensures r.Some? ==> IsWordText(r.value)
  {
    SpacedOptional(s, i, "de", Word)
  }

  /** `(\w+)\s+KW`: the word just before a keyword. */
  function WordBefore(s: string, i: nat, kw: string): (r: Option<string>)
    ensures r.Some? ==> IsWordText(r.value)
  {
    var e := RunEnd(s, i, IsWordChar);
    if e == i then None
    else
      var k :- Spaces1(s, e);
      if StartsAt(s, k, kw) then Some(s[i..e]) else None
  }

  /** `selecciona(?:r)?\s+(?:ART\s+)?REST` */
  function Selecciona<T(==)>(s: string, i: nat, article: string, rest: Matcher<T>): Option<T> {
    var j :- Lit(s, i, "selecciona");
    Optionally(s, j, ["r"], (s': string, e: nat) => Spaced(s', e, (s'': string, k: nat) => SpacedOptional(s'', k, article, rest)))
  }

  // ------------------------------------------------ blockchain (lines 60-68)

  /** `(?:blockchain|cadena|red)` */
  const Media: seq<string> := ["blockchain", "cadena", "red"]

  /** `(?:de\s+)?KEY` */
  function DeKey(s: string, i: nat, key: string): (r: Option<nat>)
    ensures r.Some? ==> Occurs(s, key)
  {
    var r := SpacedOptional(s, i, "de", (s': string, j: nat) => Lit(s', j, key));
    if r.Some? then
      var j: nat :| r == Lit(s, j, key);
      assert StartsAt(s, j, key);
      r
    else r
  }

  /** `\s+(?:de\s+)?KEY` */
  function SpacedDeKey(s: string, i: nat, key: string): (r: Option<nat>)
    ensures r.Some? ==> Occurs(s, key)
  {
    Spaced(s, i, (s': string, k: nat) => DeKey(s', k, key))
  }

  /** `(?:blockchain|cadena|red)\s+(?:de\s+)?KEY` */
  function MediumKey(s: string, i: nat, key: string): (r: Option<nat>)
    ensures r.Some? ==> Occurs(s, key)
  {
    Alternatives(s, i, Media, (s': string, j: nat) => SpacedDeKey(s', j, key))
  }

  /** `blockchain\s+(?:de\s+)?KEY` */
  function ChainBlockchainDe(s: string, i: nat, key: string): (r: Option<nat>)
    ensures r.Some? ==> Occurs(s, key)
  {
    var j :- Lit(s, i, "blockchain");
    Spaced(s, j, (s': string, k: nat) => DeKey(s', k, key))
  }

  /** `en\s+KEY` */
  function ChainEn(s: string, i: nat, key: string): (r: Option<nat>)
    ensures r.Some? ==> Occurs(s, key)
  {
    var j :- Lit(s, i, "en");
    var k :- Spaces1(s, j);
    Lit(s, k, key)
  }

  /** `de\s+(?:la\s+)?(?:blockchain|cadena|red)\s+(?:de\s+)?KEY` */
  function ChainDeMedium(s: string, i: nat, key: string): (r: Option<nat>)
    ensures r.Some? ==> Occurs(s, key)
  {
    var j :- Lit(s, i, "de");
    var k :- Spaces1(s, j);
    SpacedOptional(s, k, "la", (s': string, e: nat) => MediumKey(s', e, key))
  }

  /** `KEY\s+(?:blockchain|cadena|red)` */
  function ChainKeyMedium(s: string, i: nat, key: string): (r: Option<nat>)
    ensures r.Some? ==> Occurs(s, key)
  {
    var j :- Lit(s, i, key);
    var k :- Spaces1(s, j);
    Alternatives(s, k, Media, (s': string, e: nat) => Some(e))
  }

  /** `selecciona(?:r)?\s+(?:la\s+)?(?:blockchain|cadena|red)\s+(?:de\s+)?KEY` */
  function ChainSelecciona(s: string, i: nat, key: string): (r: Option<nat>)
    ensures r.Some? ==> Occurs(s, key)
  {
    Selecciona(s, i, "la", (s': string, e: nat) => MediumKey(s', e, key))
  }

  /** `select\s+KEY` */
  function ChainSelect(s: string, i: nat, key: string): (r: Option<nat>)
    ensures r.Some? ==> Occurs(s, key)
  {
    var j :- Lit(s, i, "select");
    var k :- Spaces1(s, j);
    Lit(s, k, key)
  }

  /** `\bKEY\b` */
  function ChainWord(s: string, i: nat, key: string): (r: Option<nat>)
    ensures r.Some? ==> Occurs(s, key)
  {
    if Boundary(s, i) && StartsAt(s, i, key) && Boundary(s, i + |key|) then Some(i + |key|) else None
  }

  /** `blockchain_patterns` for one key, in source order. */
  function ChainPatterns(key: string): seq<Matcher<nat>> {
    [ (s: string, i: nat) => ChainBlockchainDe(s, i, key),
      (s: string, i: nat) => ChainEn(s, i, key),
      (s: string, i: nat) => ChainDeMedium(s, i, key),
      (s: string, i: nat) => ChainKeyMedium(s, i, key),
      (s: string, i: nat) => ChainSelecciona(s, i, key),
      (s: string, i: nat) => ChainSelect(s, i, key),
      (s: string, i: nat) => ChainWord(s, i, key) ]
  }

  // ----------------------------------------------------- token (lines 79-84)

  /** `KW\s+(?:de\s+)?(\w+)` */
  function KeywordWord(s: string, i: nat, kw: string): (r: Option<string>)
    ensures r.Some? ==> IsWordText(r.value)
  {
    var j :- Lit(s, i, kw);
    var k :- Spaces1(s, j);
    DeWord(s, k)
  }

  /** `token\s+(?:de\s+)?(\w+)` */
  function TokenWord(s: string, i: nat): (r: Option<string>)
    ensures r.Some? ==> IsWordText(r.value)
  {
    KeywordWord(s, i, "token")
  }

  /** `el\s+token\s+(?:de\s+)?(\w+)` */
  function ElTokenWord(s: string, i: nat): (r: Option<string>)
    ensures r.Some? ==> IsWordText(r.value)
  {
    var j :- Lit(s, i, "el");
    var k :- Spaces1(s, j);
    KeywordWord(s, k, "token")
  }

  /** `(\w+)\s+token` */
  function WordToken(s: string, i: nat): (r: Option<string>)
    ensures r.Some? ==> IsWordText(r.value)
  {
    WordBefore(s, i, "token")
  }

  /** `selecciona(?:r)?\s+(?:el\s+)?token\s+(?:de\s+)?(\w+)` */
  function SeleccionaToken(s: string, i: nat): (r: Option<string>)
    ensures r.Some? ==> IsWordText(r.value)
  {
    Selecciona(s, i, "el", TokenWord)
  }

  /** `token_patterns`, in source order. */
  const TokenPatterns: seq<Matcher<string>> := [TokenWord, ElTokenWord, WordToken, SeleccionaToken]

  // -------------------------------------------------- protocol (lines 95-101)

  /** `protocol(?:o)?\s+(?:de\s+)?(\w+)` */
  function ProtocolWord(s: string, i: nat): (r: Option<string>)
    ensures r.Some? ==> IsWordText(r.value)
  {
    var j :- Lit(s, i, "protocol");
    Optionally(s, j, ["o"], (s': string, e: nat) => Spaced(s', e, DeWord))
  }

  /** `(?:en|del|con)\s+protocol(?:o)?\s+(?:de\s+)?(\w+)` */
  function PrepositionProtocol(s: string, i: nat): (r: Option<string>)
    ensures r.Some? ==> IsWordText(r.value)
  {
    Alternatives(s, i, ["en", "del", "con"], (s': string, e: nat) => Spaced(s', e, ProtocolWord))
  }

  /** `(?:el|del)\s+protocol(?:o)?\s+(?:de\s+)?(\w+)` */
  function ArticleProtocol(s: string, i: nat): (r: Option<string>)
    ensures r.Some? ==> IsWordText(r.value)
  {
    Alternatives(s, i, ["el", "del"], (s': string, e: nat) => Spaced(s', e, ProtocolWord))
  }

  /** `(\w+)\s+protocol(?:o)?`: the optional "o" never decides whether it matches. */
  function WordProtocol(s: string, i: nat): (r: Option<string>)
    ensures r.Some? ==> IsWordText(r.value)
  {
    WordBefore(s, i, "protocol")
  }

  /** `selecciona(?:r)?\s+(?:el\s+)?protocol(?:o)?\s+(?:de\s+)?(\w+)` */
  function SeleccionaProtocol(s: string, i: nat): (r: Option<string>)
    ensures r.Some? ==> IsWordText(r.value)
  {
    Selecciona(s, i, "el", ProtocolWord)
  }

  /** `protocol_patterns`, in source order. */
  const ProtocolPatterns: seq<Matcher<string>> :=
    [ProtocolWord, PrepositionProtocol, ArticleProtocol, WordProtocol, SeleccionaProtocol]

  // --------------------------------------------- thresholds (lines 112-134)

  /** The shape of a threshold capture: with the `[km]` suffix for TVL. */
  predicate NumeralShape(t: string, scaled: bool) {
    if scaled then IsMagnitude(t) else IsDecimal(t)
  }

  /** `(\d+(?:\.\d+)?)`, followed by `(?:[km])?` inside the group when `scaled`. */
  function Numeral(s: string, i: nat, scaled: bool): (r: Option<string>)
    ensures r.Some? ==> NumeralShape(r.value, scaled)
  {
    var d := RunEnd(s, i, IsDigit);
    if d == i then None
    else
      var f := if d < |s| && s[d] == '.' && RunEnd(s, d + 1, IsDigit) > d + 1 then RunEnd(s, d + 1, IsDigit) else d;
      var e := if scaled && f < |s| && (s[f] == 'k' || s[f] == 'm') then f + 1 else f;
      NumeralShaped(s, i, d, f, e, scaled);
      Some(s[i..e])
  }

  /** A numeral capture, with its optional suffix, has the numeral shape. */
  lemma NumeralShaped(s: string, i: nat, d: nat, f: nat, e: nat, scaled: bool)
    requires i < d == RunEnd(s, i, IsDigit) <= |s|
    requires f == (if d < |s| && s[d] == '.' && RunEnd(s, d + 1, IsDigit) > d + 1 then RunEnd(s, d + 1, IsDigit) else d)
    requires e == (if scaled && f < |s| && (s[f] == 'k' || s[f] == 'm') then f + 1 else f)
    ensures i <= e <= |s| && NumeralShape(s[i..e], scaled)
  {
    NumeralIsDecimal(s, i, d, f);
    if e > f {
      var t := s[i..e];
      assert t[..|t| - 1] == s[i..f];
      assert HasScale(t);
    }
  }

  /** The digits-and-fraction part of a numeral capture is a decimal. */
  lemma NumeralIsDecimal(s: string, i: nat, d: nat, f: nat)
    requires i < d == RunEnd(s, i, IsDigit) <= |s|
    requires f == (if d < |s| && s[d] == '.' && RunEnd(s, d + 1, IsDigit) > d + 1 then RunEnd(s, d + 1, IsDigit) else d)
    ensures f <= |s| && IsDecimal(s[i..f])
  {
    var t := s[i..f];
    RunEndInSlice(s, i, f, i, IsDigit);
    assert RunEnd(t, 0, IsDigit) == d - i;
    if f > d {
      RunEndInSlice(s, i, f, d + 1, IsDigit);
      assert t[d - i] == s[d];
    }
  }

  /** `\s*(NUM)` */
  function GapNumeral(s: string, i: nat, scaled: bool): (r: Option<string>)
    ensures r.Some? ==> NumeralShape(r.value, scaled)
  {
    Numeral(s, Spaces0(s, i), scaled)
  }

  /** `\s+(NUM)` */
  function SpacedNumeral(s: string, i: nat, scaled: bool): (r: Option<string>)
    ensures r.Some? ==> NumeralShape(r.value, scaled)
  {
    var j :- Spaces1(s, i);
    Numeral(s, j, scaled)
  }

  /** `\s+(?:a|de)?\s*(NUM)` */
  function ComparedNumeral(s: string, i: nat, scaled: bool): (r: Option<string>)
    ensures r.Some? ==> NumeralShape(r.value, scaled)
  {
    var j :- Spaces1(s, i);
    Optionally(s, j, ["a", "de"], (s': string, k: nat) => GapNumeral(s', k, scaled))
  }

  /** `KW\s+(?:min(?:imo)?|mayor|superior)\s+(?:a|de)?\s*(NUM)` */
  function KeywordComparison(s: string, i: nat, kw: string, scaled: bool): (r: Option<string>)
    ensures r.Some? ==> NumeralShape(r.value, scaled)
  {
    var j :- Lit(s, i, kw);
    var k :- Spaces1(s, j);
    Alternatives(s, k, ["minimo", "min", "mayor", "superior"], (s': string, e: nat) => ComparedNumeral(s', e, scaled))
  }

  /** `KW\s+de\s+(NUM)` */
  function KeywordDe(s: string, i: nat, kw: string, scaled: bool): (r: Option<string>)
    ensures r.Some? ==> NumeralShape(r.value, scaled)
  {
    var j :- Lit(s, i, kw);
    var k :- Spaces1(s, j);
    var e :- Lit(s, k, "de");
    SpacedNumeral(s, e, scaled)
  }

  /** `KW\s+minimo\s+de\s+(NUM)` */
  function KeywordMinimoDe(s: string, i: nat, kw: string, scaled: bool): (r: Option<string>)
    ensures r.Some? ==> NumeralShape(r.value, scaled)
  {
    var j :- Lit(s, i, kw);
    var k :- Spaces1(s, j);
    var m :- Lit(s, k, "minimo");
    var n :- Spaces1(s, m);
    var e :- Lit(s, n, "de");
    SpacedNumeral(s, e, scaled)
  }

  /** `KW\s+(?:de\s+)?(NUM)`, the tail of the "minimo ... KW" pattern. */
  function KeywordOptionalDe(s: string, i: nat, kw: string, scaled: bool): (r: Option<string>)
    ensures r.Some? ==> NumeralShape(r.value, scaled)
  {
    var j :- Lit(s, i, kw);
    var k :- Spaces1(s, j);
    SpacedOptional(s, k, "de", (s': string, e: nat) => Numeral(s', e, scaled))
  }

  /** `minimo\s+(?:de\s+)?KW\s+(?:de\s+)?(NUM)` */
  function MinimoKeyword(s: string, i: nat, kw: string, scaled: bool): (r: Option<string>)
    ensures r.Some? ==> NumeralShape(r.value, scaled)
  {
    var j :- Lit(s, i, "minimo");
    var k :- Spaces1(s, j);
    SpacedOptional(s, k, "de", (s': string, e: nat) => KeywordOptionalDe(s', e, kw, scaled))
  }

  /** `KW\s+min(?:imo)?\s+(NUM)` */
  function KeywordMin(s: string, i: nat, kw: string, scaled: bool): (r: Option<string>)
    ensures r.Some? ==> NumeralShape(r.value, scaled)
  {
    var j :- Lit(s, i, kw);
    var k :- Spaces1(s, j);
    Alternatives(s, k, ["minimo", "min"], (s': string, e: nat) => SpacedNumeral(s', e, scaled))
  }

  /** `tvl_patterns` (kw "tvl", scaled) and `apy_patterns` (kw "apy"), in source order. */
  function ThresholdPatterns(kw: string, scaled: bool): seq<Matcher<string>> {
    [ (s: string, i: nat) => KeywordComparison(s, i, kw, scaled),
      (s: string, i: nat) => KeywordDe(s, i, kw, scaled),
      (s: string, i: nat) => KeywordMinimoDe(s, i, kw, scaled),
      (s: string, i: nat) => MinimoKeyword(s, i, kw, scaled),
      (s: string, i: nat) => KeywordMin(s, i, kw, scaled) ]
  }
}
