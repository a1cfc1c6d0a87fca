/** `detect_all_variables` (pages/1_AI_Agent.py:53-142): every detection
    group runs on the lower-cased query, independently of the others. */
module Extract {
  import opened Options
  import opened Chars
  import opened Numerals
  import opened Scan
  import opened Lexicon
  import opened Magnitude
  import opened SlotPatterns
  import opened FilterState

  /** A capture that is not a stopword (lines 90 and 107). */
  predicate NotStopword(c: string) {
    c !in Stopwords
  }

  /** Reference meaning of "the query names this chain": one of the key's
      blockchain patterns matches at some index. */
  ghost predicate Mentions(q: string, key: string) {
    exists p: nat, i: nat :: p < |ChainPatterns(key)| && i <= |q| && ChainPatterns(key)[p](q, i).Some?
  }

  /** The pattern loop for one chain key (lines 70-73): any match stops it. */
  predicate ChainMatched(q: string, key: string) {
    FirstAccepted(q, ChainPatterns(key), (e: nat) => true).Some?
  }

  /** The pattern loop reports a chain exactly when the chain is mentioned. */
  lemma ChainMatchedMeansMentioned(q: string, key: string)
    ensures ChainMatched(q, key) <==> Mentions(q, key)
  {
    var pats := ChainPatterns(key);
    var always := (e: nat) => true;
    if ChainMatched(q, key) {
      var j :| 0 <= j < |pats| && Search(q, pats[j]) == FirstAccepted(q, pats, always);
      var i: nat :| i <= |q| && pats[j](q, i) == Search(q, pats[j]);
    } else {
      forall p: nat, i: nat | p < |pats| && i <= |q|
        ensures pats[p](q, i).None?
      {
        assert Declined(q, pats[p], always);
      }
    }
  }

  /** Every blockchain pattern contains its key literally. */
  lemma MentionNeedsKey(q: string, key: string)
    requires Mentions(q, key)
    ensures Occurs(q, key)
  {
    var p: nat, i: nat :| p < |ChainPatterns(key)| && i <= |q| && ChainPatterns(key)[p](q, i).Some?;
    if p == 0 { assert ChainBlockchainDe(q, i, key).Some?; }
    else if p == 1 { assert ChainEn(q, i, key).Some?; }
    else if p == 2 { assert ChainDeMedium(q, i, key).Some?; }
    else if p == 3 { assert ChainKeyMedium(q, i, key).Some?; }
    else if p == 4 { assert ChainSelecciona(q, i, key).Some?; }
    else if p == 5 { assert ChainSelect(q, i, key).Some?; }
    else { assert ChainWord(q, i, key).Some?; }
  }

  /** Blockchain detection (lines 59-76): the first key of `chain_mapping`
      that the query mentions, whatever the order of words in the query. The
      stored value is the lower-case key, not the dataset's chain name. */
  function DetectChain(q: string): (r: Option<string>)
    ensures r.Some? ==> exists j :: 0 <= j < |ChainKeys()| && ChainKeys()[j] == r.value && Mentions(q, r.value)
                                   && forall k :: 0 <= k < j ==> !Mentions(q, ChainKeys()[k])
    ensures r.None? <==> forall j :: 0 <= j < |ChainKeys()| ==> !Mentions(q, ChainKeys()[j])
    ensures r.Some? ==> Occurs(q, r.value)
  {
    var r := FirstHit(ChainKeys(), (key: string) => ChainMatched(q, key));
    forall key | true ensures ChainMatched(q, key) <==> Mentions(q, key) {
      ChainMatchedMeansMentioned(q, key);
    }
    if r.Some? then MentionNeedsKey(q, r.value); r else r
  }

  /** The key that comes first in `chain_mapping` among those the query
      mentions is the one detected, wherever the others appear in the query. */
  lemma ChainPriority(q: string, j: nat)
    requires j < |ChainKeys()| && Mentions(q, ChainKeys()[j])
    requires forall k :: 0 <= k < j ==> !Mentions(q, ChainKeys()[k])
    ensures DetectChain(q) == Some(ChainKeys()[j])
  {
    var r := DetectChain(q);
    var i :| 0 <= i < |ChainKeys()| && ChainKeys()[i] == r.value && Mentions(q, r.value)
             && forall k :: 0 <= k < i ==> !Mentions(q, ChainKeys()[k]);
  }

  /** A query that mentions Ethereum sets the chain to "ethereum", whatever
      other chains it mentions. */
  lemma EthereumFirst(q: string)
    requires Mentions(q, "ethereum")
    ensures DetectChain(q) == Some("ethereum")
  {
    assert ChainKeys()[0] == "ethereum";
    ChainPriority(q, 0);
  }

  /** A property every capture of every pattern of a group has holds of
      what the group's first-match-wins loop returns. */
  lemma FirstAcceptedKeeps<T>(s: string, pats: seq<Matcher<T>>, accept: T -> bool, prop: T -> bool)
    requires forall j, i: nat :: 0 <= j < |pats| && pats[j](s, i).Some? ==> prop(pats[j](s, i).value)
    ensures FirstAccepted(s, pats, accept).Some? ==> prop(FirstAccepted(s, pats, accept).value)
  {
    var r := FirstAccepted(s, pats, accept);
    if r.Some? {
      var j :| 0 <= j < |pats| && Search(s, pats[j]) == r;
      var i: nat :| i <= |s| && pats[j](s, i) == r;
    }
  }

  /** Token detection (lines 79-92): the first token pattern whose capture
      is not a stopword; a stopword capture falls through to the next
      pattern, and when every capture is a stopword the slot is left alone. */
  function DetectToken(q: string): (r: Option<string>)
    ensures r.Some? ==> IsWordText(r.value) && r.value !in Stopwords
    ensures r.Some? ==> exists j :: 0 <= j < |TokenPatterns| && Search(q, TokenPatterns[j]) == r
                                   && forall k :: 0 <= k < j ==> Declined(q, TokenPatterns[k], NotStopword)
    ensures r.None? <==> forall j :: 0 <= j < |TokenPatterns| ==> Declined(q, TokenPatterns[j], NotStopword)
  {
    forall j, i: nat | 0 <= j < |TokenPatterns| && TokenPatterns[j](q, i).Some?
      ensures IsWordText(TokenPatterns[j](q, i).value)
    {
      if j == 0 { assert TokenWord(q, i).Some?; }
      else if j == 1 { assert ElTokenWord(q, i).Some?; }
      else if j == 2 { assert WordToken(q, i).Some?; }
      else { assert SeleccionaToken(q, i).Some?; }
    }
    FirstAcceptedKeeps(q, TokenPatterns, NotStopword, IsWordText);
    FirstAccepted(q, TokenPatterns, NotStopword)
  }

  /** Protocol detection (lines 95-109), with the same stopword fall-through. */
  function DetectProtocol(q: string): (r: Option<string>)
    ensures r.Some? ==> IsWordText(r.value) && r.value !in Stopwords
    ensures r.Some? ==> exists j :: 0 <= j < |ProtocolPatterns| && Search(q, ProtocolPatterns[j]) == r
                                   && forall k :: 0 <= k < j ==> Declined(q, ProtocolPatterns[k], NotStopword)
    ensures r.None? <==> forall j :: 0 <= j < |ProtocolPatterns| ==> Declined(q, ProtocolPatterns[j], NotStopword)
  {
    forall j, i: nat | 0 <= j < |ProtocolPatterns| && ProtocolPatterns[j](q, i).Some?
      ensures IsWordText(ProtocolPatterns[j](q, i).value)
    {
      if j == 0 { assert ProtocolWord(q, i).Some?; }
      else if j == 1 { assert PrepositionProtocol(q, i).Some?; }
      else if j == 2 { assert ArticleProtocol(q, i).Some?; }
      else if j == 3 { assert WordProtocol(q, i).Some?; }
      else { assert SeleccionaProtocol(q, i).Some?; }
    }
    FirstAcceptedKeeps(q, ProtocolPatterns, NotStopword, IsWordText);
    FirstAccepted(q, ProtocolPatterns, NotStopword)
  }

  /** A threshold group (lines 112-125, 128-140): the first pattern that
      matches wins, whatever it captured. */
  function DetectThreshold(q: string, kw: string, scaled: bool): (r: Option<string>)
    ensures r.Some? ==> NumeralShape(r.value, scaled)
    ensures r.Some? ==> exists j :: 0 <= j < 5 && Search(q, ThresholdPatterns(kw, scaled)[j]) == r
                                   && forall k :: 0 <= k < j ==> Search(q, ThresholdPatterns(kw, scaled)[k]).None?
    ensures r.None? <==> forall j :: 0 <= j < 5 ==> Search(q, ThresholdPatterns(kw, scaled)[j]).None?
  {
    var pats := ThresholdPatterns(kw, scaled);
    var always := (t: string) => true;
    forall j, i: nat | 0 <= j < |pats| && pats[j](q, i).Some?
      ensures NumeralShape(pats[j](q, i).value, scaled)
    {
      if j == 0 { assert KeywordComparison(q, i, kw, scaled).Some?; }
      else if j == 1 { assert KeywordDe(q, i, kw, scaled).Some?; }
      else if j == 2 { assert KeywordMinimoDe(q, i, kw, scaled).Some?; }
      else if j == 3 { assert MinimoKeyword(q, i, kw, scaled).Some?; }
      else { assert KeywordMin(q, i, kw, scaled).Some?; }
    }
    FirstAcceptedKeeps(q, pats, always, (t: string) => NumeralShape(t, scaled));
    var r := FirstAccepted(q, pats, always);
    assert forall k :: 0 <= k < 5 ==> (Declined(q, pats[k], always) <==> Search(q, pats[k]).None?);
    r
  }

  /** What `float()` reads from a TVL capture once its suffix is applied. */
  function MagnitudeValue(t: string): real {
    if HasScale(t) then DecimalValue(t[..|t| - 1]) * (if t[|t| - 1] == 'k' then 1000.0 else 1000000.0)
    else DecimalValue(t)
  }

  /** A TVL capture holds no whitespace and no upper-case letter. */
  lemma MagnitudeChars(t: string)
    requires IsMagnitude(t)
    ensures forall k :: 0 <= k < |t| ==> !IsSpace(t[k]) && LowerChar(t[k]) == t[k]
  {
    if IsDecimal(t) {
      DecimalChars(t);
    } else {
      var u := t[..|t| - 1];
      DecimalChars(u);
      assert forall k :: 0 <= k < |u| ==> u[k] == t[k];
    }
  }

  /** A TVL capture is already stripped and lower-case. */
  lemma MagnitudeCanonical(t: string)
    requires IsMagnitude(t)
    ensures Lower(Strip(t)) == t
  {
    MagnitudeChars(t);
    Canonical(t);
  }

  /** `process_tvl_value` on a TVL capture yields the capture's value, and
      the capture itself when it has no suffix. */
  lemma ProcessedMagnitude(t: string)
    requires IsMagnitude(t)
    ensures HasScale(Lower(Strip(t))) ==> IsDecimal(Lower(Strip(t))[..|Lower(Strip(t))| - 1])
    ensures AmountValue(ProcessTvlValue(t)) == MagnitudeValue(t)
    ensures !HasScale(t) ==> ProcessTvlValue(t) == Verbatim(t)
    ensures AmountSet(Some(ProcessTvlValue(t)))
    ensures ProcessTvlValue(t).Verbatim? ==> IsDecimal(ProcessTvlValue(t).text)
  {
    MagnitudeCanonical(t);
    ProcessCanonical(t);
    if HasScale(t) {
      assert ProcessTvlValue(t) == Scaled(MagnitudeValue(t));
    } else {
      assert IsDecimal(t) && ProcessTvlValue(t) == Verbatim(t);
    }
  }

  /** TVL detection: the captured numeral goes through `process_tvl_value`. */
  function DetectTvl(q: string): (r: Option<Amount>)
    ensures r.Some? <==> DetectThreshold(q, "tvl", true).Some?
    ensures r.Some? ==> AmountSet(r) && AmountValue(r.value) == MagnitudeValue(DetectThreshold(q, "tvl", true).value)
    ensures r.Some? && !HasScale(DetectThreshold(q, "tvl", true).value) ==> r.value == Verbatim(DetectThreshold(q, "tvl", true).value)
    ensures r.Some? && r.value.Verbatim? ==> IsDecimal(r.value.text)
  {
    match DetectThreshold(q, "tvl", true)
    case Some(t) =>
      ProcessedMagnitude(t);
      Some(ProcessTvlValue(t))
    case None => None
  }

  /** APY detection: the capture is stored as it is (line 139). */
  function DetectApy(q: string): (r: Option<Amount>)
    ensures r.Some? <==> DetectThreshold(q, "apy", false).Some?
    ensures r.Some? ==> r.value.Verbatim? && IsDecimal(r.value.text) && AmountSet(r)
  {
    match DetectThreshold(q, "apy", false)
    case Some(t) => Some(Verbatim(t))
    case None => None
  }

  /** `detect_all_variables`: the updates found in one query. */
  function DetectAllVariables(query: string): (u: Slots)
    ensures u.blockchain.Some? ==> u.blockchain.value in ChainKeys() && Occurs(Lower(query), u.blockchain.value)
    ensures u.token.Some? ==> IsWordText(u.token.value) && u.token.value !in Stopwords
    ensures u.protocol.Some? ==> IsWordText(u.protocol.value) && u.protocol.value !in Stopwords
    ensures u.tvlMin.Some? ==> AmountSet(u.tvlMin)
    ensures u.apyMin.Some? ==> AmountSet(u.apyMin) && u.apyMin.value.Verbatim? && IsDecimal(u.apyMin.value.text)
    ensures Readable(u)
  {
    var q := Lower(query);
    Slots(DetectChain(q), DetectToken(q), DetectProtocol(q), DetectTvl(q), DetectApy(q))
  }
}
