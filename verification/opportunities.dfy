/** `search_defi_opportunities` (pages/1_AI_Agent.py:198-267): the pools
    dataset is filtered by the agent's slots, sorted by apy and cut to five.
    The HTTP request is replaced by its outcome, a `Response` parameter. */
module Opportunities {
  import opened Options
  import opened Chars
  import opened Numerals
  import opened Lexicon
  import opened Magnitude
  import opened FilterState
  import opened Pools

  // ------------------------------------------------------------ filtering

  /** Python truthiness of a text slot: set and not empty. */
  predicate Truthy(o: Option<string>) {
    o.Some? && |o.value| > 0
  }

  /** `frame[mask]`: the pools `keep` accepts, in their order. */
  function Where(ps: seq<Pool>, keep: Pool -> bool): (r: seq<Pool>)
    ensures forall p :: multiset(r)[p] == if keep(p) then multiset(ps)[p] else 0
    ensures forall k :: 0 <= k < |r| ==> keep(r[k])
  {
    if |ps| == 0 then []
    else
      var rest := Where(ps[1..], keep);
      assert ps == [ps[0]] + ps[1..];
      if keep(ps[0]) then [ps[0]] + rest else rest
  }

  /** One `if slot: frame = frame[mask]` step. */
  function Stage(ps: seq<Pool>, active: bool, keep: Pool -> bool): (r: seq<Pool>)
    ensures forall p :: multiset(r)[p] == if !active || keep(p) then multiset(ps)[p] else 0
  {
    if active then Where(ps, keep) else ps
  }

  /** Line 220: the pool's chain equals the mapped chain name, ignoring case. */
  predicate OnChain(s: Slots, p: Pool) {
    s.blockchain.Some? && Lower(p.chain) == Lower(ChainName(s.blockchain.value))
  }

  /** Line 223: the pool's project equals the protocol, ignoring case. */
  predicate OfProtocol(s: Slots, p: Pool) {
    s.protocol.Some? && Lower(p.project) == Lower(s.protocol.value)
  }

  /** Line 227: the pool's symbol contains the token, ignoring case. */
  predicate HasToken(s: Slots, p: Pool) {
    s.token.Some? && Contains(Lower(p.symbol), Lower(s.token.value))
  }

  /** `column >= bound`, false for a missing value. */
  predicate AtLeast(x: Option<real>, bound: real) {
    x.Some? && x.value >= bound
  }

  /** Line 231: the pool's TVL reaches the stored minimum. */
  predicate TvlEnough(s: Slots, p: Pool) {
    s.tvlMin.Some? && AtLeast(p.tvlUsd, AmountValue(s.tvlMin.value))
  }

  /** Line 234: the pool's apy reaches the stored minimum. */
  predicate ApyEnough(s: Slots, p: Pool) {
    s.apyMin.Some? && AtLeast(p.apy, AmountValue(s.apyMin.value))
  }

  /** Reference meaning of the filters: a pool is kept when it satisfies
      every criterion whose slot is set. */
  predicate Passes(s: Slots, p: Pool) {
    && (Truthy(s.blockchain) ==> OnChain(s, p))
    && (Truthy(s.protocol) ==> OfProtocol(s, p))
    && (Truthy(s.token) ==> HasToken(s, p))
    && (AmountSet(s.tvlMin) ==> TvlEnough(s, p))
    && (AmountSet(s.apyMin) ==> ApyEnough(s, p))
  }

  /** Lines 216-234: the five filters, applied one after the other. */
  function Filtered(s: Slots, ps: seq<Pool>): seq<Pool> {
    var byChain := Stage(ps, Truthy(s.blockchain), p => OnChain(s, p));
    var byProtocol := Stage(byChain, Truthy(s.protocol), p => OfProtocol(s, p));
    var byToken := Stage(byProtocol, Truthy(s.token), p => HasToken(s, p));
    var byTvl := Stage(byToken, AmountSet(s.tvlMin), p => TvlEnough(s, p));
    Stage(byTvl, AmountSet(s.apyMin), p => ApyEnough(s, p))
  }

  /** The successive filters keep exactly the pools that pass every set
      criterion, each as often as it occurs in the dataset. */
  lemma FilteredMeansPasses(s: Slots, ps: seq<Pool>)
    ensures forall p :: multiset(Filtered(s, ps))[p] == if Passes(s, p) then multiset(ps)[p] else 0
  {
  }

  /** Lines 236-240: the passing pools sorted by apy and cut to five. */
  function Select(s: Slots, ps: seq<Pool>): (r: seq<Pool>)
    ensures forall p :: p in r ==> p in ps && Passes(s, p)
    ensures ByApy(r)
    ensures multiset(r) <= multiset(ps)
    ensures |r| == if |Filtered(s, ps)| < TopCount then |Filtered(s, ps)| else TopCount
    ensures |r| == 0 <==> forall p :: p in ps ==> !Passes(s, p)
    ensures forall x, y :: x in multiset(Filtered(s, ps)) - multiset(r) && y in r ==> RanksAtLeast(y, x)
  {
    var f := Filtered(s, ps);
    FilteredMeansPasses(s, ps);
    EmptyWhenNonePasses(s, ps);
    var r := TopByApy(f);
    assert forall p :: p in r ==> multiset(f)[p] > 0;
    assert multiset(f) <= multiset(ps);
    r
  }

  /** No pool is left after filtering exactly when none passes. */
  lemma EmptyWhenNonePasses(s: Slots, ps: seq<Pool>)
    ensures |Filtered(s, ps)| == 0 <==> forall p :: p in ps ==> !Passes(s, p)
  {
    var f := Filtered(s, ps);
    FilteredMeansPasses(s, ps);
    if |f| == 0 {
      forall p | p in ps ensures !Passes(s, p) {
        assert multiset(f)[p] == 0;
      }
    } else {
      assert multiset(f)[f[0]] > 0;
    }
  }

  // ------------------------------------------------------------- the call

  /** The decoded JSON body of the pools endpoint: its `status` and `data`
      keys, either of which may be missing. */
  datatype Body = Body(status: Option<string>, data: Option<seq<Pool>>)

  /** What `requests.get(...)` and `response.json()` gave: an HTTP status
      with a decoded body, or an exception (whose `str()` is `reason`). */
  datatype Response = Answered(statusCode: nat, body: Body) | Raised(reason: string)

  const HttpErrorPrefix := "Error al consultar la API de DeFiLlama: "
  const BadResponse := "Error en la respuesta de la API de DeFiLlama"
  const SearchErrorPrefix := "Error al buscar oportunidades DeFi: "
  const NoMatchMessage := "No se encontraron oportunidades que cumplan con los criterios actuales."

  /** `str(KeyError(key))`. */
  function KeyErrorText(key: string): string {
    "'" + key + "'"
  }

  /** An empty `data` list makes a frame without columns, so the first
      column read raises `KeyError`: the column of the first set filter,
      or `apy` when the sort is the first to read one. */
  function MissingColumn(s: Slots): string {
    if Truthy(s.blockchain) then "chain"
    else if Truthy(s.protocol) then "project"
    else if Truthy(s.token) then "symbol"
    else if AmountSet(s.tvlMin) then "tvlUsd"
    else "apy"
  }

  /** The body reports success and carries a `data` list. */
  predicate Usable(resp: Response) {
    resp.Answered? && resp.statusCode == 200 && resp.body.status == Some("success") && resp.body.data.Some?
  }

  /** What a search yields once its outcome is told apart from its message:
      the pools shown, no match, or a failure with its message. */
  datatype Outcome = Found(top: seq<Pool>) | NoneFound | Failed(message: string)

  /** The search with every failure reported as a `Failed` outcome. */
  function SearchOpportunities(s: Slots, resp: Response): (o: Outcome)
    requires Readable(s)
    ensures resp.Raised? ==> o == Failed(SearchErrorPrefix + resp.reason)
    ensures resp.Answered? && resp.statusCode != 200 ==> o == Failed(HttpErrorPrefix + NatText(resp.statusCode))
    ensures resp.Answered? && resp.statusCode == 200 && resp.body.status.None? ==> o == Failed(SearchErrorPrefix + KeyErrorText("status"))
    ensures resp.Answered? && resp.statusCode == 200 && resp.body.status.Some? && !Usable(resp) ==> o == Failed(BadResponse)
    ensures Usable(resp) && resp.body.data.value == [] ==> o == Failed(SearchErrorPrefix + KeyErrorText(MissingColumn(s)))
    ensures Usable(resp) && resp.body.data.value != [] ==> !o.Failed?
    ensures o.NoneFound? <==> Usable(resp) && resp.body.data.value != [] && forall p :: p in resp.body.data.value ==> !Passes(s, p)
    ensures o.Found? ==> Usable(resp) && o.top == Select(s, resp.body.data.value) && 0 < |o.top| <= TopCount
  {
    match resp
    case Raised(reason) => Failed(SearchErrorPrefix + reason)
    case Answered(code, body) =>
      if code != 200 then Failed(HttpErrorPrefix + NatText(code))
      else if body.status.None? then Failed(SearchErrorPrefix + KeyErrorText("status"))
      else if body.status.value != "success" || body.data.None? then Failed(BadResponse)
      else if body.data.value == [] then Failed(SearchErrorPrefix + KeyErrorText(MissingColumn(s)))
      else
        var top := Select(s, body.data.value);
        if |top| == 0 then NoneFound else Found(top)
  }

  // ------------------------------------------------------ the code as written

  /** One row of `results` (lines 252-261), without the display formatting
      of `tvlUsd` and `apy`: its 1-based position and the pool. */
  datatype Row = Row(posicion: nat, pool: Pool)

  /** The rows shown for a listing. */
  function Rows(top: seq<Pool>): (r: seq<Row>)
    ensures |r| == |top|
    ensures forall i :: 0 <= i < |top| ==> r[i] == Row(i + 1, top[i])
  {
    seq(|top|, i requires 0 <= i < |top| => Row(i + 1, top[i]))
  }

  /** What `search_defi_opportunities` returns as written: a bare string on
      lines 205 and 210, a `(results, error)` pair everywhere else. */
  datatype Returned = Text(text: string) | Pair(results: Option<seq<Row>>, error: Option<string>)

  function SearchAsWritten(s: Slots, resp: Response): (v: Returned)
    requires Readable(s)
    ensures v.Text? <==> resp.Answered? && (resp.statusCode != 200 || (resp.body.status.Some? && !Usable(resp)))
  {
    match resp
    case Raised(reason) => Pair(None, Some(SearchErrorPrefix + reason))
    case Answered(code, body) =>
      if code != 200 then Text(HttpErrorPrefix + NatText(code))
      else if body.status.None? then Pair(None, Some(SearchErrorPrefix + KeyErrorText("status")))
      else if body.status.value != "success" || body.data.None? then Text(BadResponse)
      else if body.data.value == [] then Pair(None, Some(SearchErrorPrefix + KeyErrorText(MissingColumn(s))))
      else
        var top := Select(s, body.data.value);
        if |top| == 0 then Pair(None, Some(NoMatchMessage)) else Pair(Some(Rows(top)), None)
  }

  /** `results, error = value` (line 320): a pair unpacks; a string unpacks
      only when it has exactly two characters, and otherwise raises
      `ValueError`, which nothing catches. For a two-character string Python
      binds its first character to `results`, which is not a list of rows and
      is represented by `None`; the turn's outcome is the same, since the
      second character makes `error` truthy. No string the search returns
      has two characters (`HttpErrorCrashes`, `BadResponseCrashes`). */
  function UnpackPair(v: Returned): (r: Result<(Option<seq<Row>>, Option<string>), string>)
    ensures v.Pair? ==> r == Ok((v.results, v.error))
    ensures v.Text? ==> (r.Ok? <==> |v.text| == 2)
  {
    match v
    case Pair(results, error) => Ok((results, error))
    case Text(t) => if |t| == 2 then Ok((None, Some(t[1..]))) else Err("ValueError")
  }

  /** Every bare string the search returns is far longer than two
      characters, so an HTTP error status crashes the turn instead of
      being reported. */
  lemma HttpErrorCrashes(s: Slots, code: nat, body: Body)
    requires Readable(s) && code != 200
    ensures SearchAsWritten(s, Answered(code, body)).Text?
    ensures UnpackPair(SearchAsWritten(s, Answered(code, body))).Err?
  {
    assert |HttpErrorPrefix + NatText(code)| > 2;
  }

  /** The same for a body whose `status` is not "success". */
  lemma BadResponseCrashes(s: Slots, status: string, data: Option<seq<Pool>>)
    requires Readable(s) && status != "success"
    ensures UnpackPair(SearchAsWritten(s, Answered(200, Body(Some(status), data)))).Err?
  {
  }

  /** Concrete instance: a 503 from the pools endpoint. */
  lemma ServiceUnavailableExample()
    ensures UnpackPair(SearchAsWritten(NoFilters, Answered(503, Body(None, None)))).Err?
    ensures SearchOpportunities(NoFilters, Answered(503, Body(None, None))) == Failed(HttpErrorPrefix + "503")
  {
    HttpErrorCrashes(NoFilters, 503, Body(None, None));
    assert NatText(503) == "503";
  }

  /** Wherever the code as written does not crash, it agrees with the
      corrected search; where it returns a bare string, the corrected search
      reports that string as its failure. */
  lemma CorrectedAgrees(s: Slots, resp: Response)
    requires Readable(s)
    ensures SearchAsWritten(s, resp).Text? ==> SearchOpportunities(s, resp) == Failed(SearchAsWritten(s, resp).text)
    ensures SearchAsWritten(s, resp).Pair? && SearchAsWritten(s, resp).error.None?
            ==> SearchOpportunities(s, resp).Found?
                && SearchAsWritten(s, resp).results == Some(Rows(SearchOpportunities(s, resp).top))
    ensures SearchAsWritten(s, resp).Pair? && SearchAsWritten(s, resp).error.Some?
            ==> SearchOpportunities(s, resp) == Failed(SearchAsWritten(s, resp).error.value)
                || (SearchOpportunities(s, resp).NoneFound? && SearchAsWritten(s, resp).error.value == NoMatchMessage)
  {
  }
}
