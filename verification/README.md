# DeFi opportunities agent: a Dafny model

This project models the rule-based conversational agent of the Streamlit
crypto dashboard, together with the dashboard's token classifier.

**The agent.** The agent is `CryptoAgent` in `pages/1_AI_Agent.py`. It
remembers five search criteria ("slots"):

- a blockchain;
- a token;
- a protocol;
- a minimum TVL;
- a minimum APY.

It also remembers the pools of its last listing. Each user turn is one of
three things:

- **A reset.** A reset word anywhere in the lower-cased query clears the
  slots and the listing.
- **A position request.** For example, "info 3" or "detalles de la
  posición 2" shows one pool of the last listing.
- **A search.** Regular-expression patterns detect new slot values and
  store them. The DeFiLlama pools dataset is then filtered by the slots,
  sorted by APY (highest first, missing values last) and cut to five
  pools.

**The classifier.** This is `classify_token` from `app.py`. It sorts a
token symbol into Stablecoin, Bluechip or Altcoin with case-sensitive
substring tests, stablecoins first. The dashboard applies it to the five
hard-coded holdings.

**Modules**, in the program's order:

- `Options`, `Chars`, `Numerals`: option/result types, Python's
  character classes and `str.lower()`, and what `int()`/`float()` read
  from digit text.
- `Scan`: Python's `re.search`. A pattern is an anchored matcher tried at
  every index from the left. A group of patterns is tried in order, and
  a capture that is refused falls through to the next pattern.
- `Lexicon`: `chain_mapping`, the stopwords and the reset words.
- `Magnitude`: `process_tvl_value` and stored thresholds.
- `SlotPatterns`, `Extract`: the detection patterns and
  `detect_all_variables`.
- `FilterState`: the slots and `update_state`.
- `Pools`, `Opportunities`: pool records, ranking, filtering and
  `search_defi_opportunities`.
- `Position`, `PositionRequests`: `detect_position_request` and
  `get_position_details`.
- `CryptoAgent`, `AgentProperties`: `process_query`, `reset_state`, and
  properties of whole turns.
- `Portfolio`, `PortfolioExamples`: `classify_token` and the
  hard-coded portfolio.

**Parameters instead of effects.** The HTTP request to DeFiLlama is a
parameter of type `Opportunities.Response`, which is either the status
code with the decoded JSON body or the exception raised. The Streamlit
page and chat history are not modelled.

**Behaviour worth knowing.** The model follows what the code does:

- An unsupported chain is not an error. It is used as a filter value as
  it is.
- The chain is detected before the token.
- Thresholds are stored as text.
- An empty `data` list makes the first column read raise `KeyError`. It
  does not report "no match".
- A position number too long for `int()` ends the position detection
  with `None`. The rest of the position patterns are not tried, and the
  turn becomes a search.

## Model

| member | source | states |
|---|---|---|
| Magnitude.ProcessTvlValue | pages/1_AI_Agent.py:43-51 | after stripping and lower-casing, a trailing `k` multiplies the number before it by 1000, a trailing `m` by 1000000, and any other text is kept verbatim |
| Magnitude.ProcessCanonical | pages/1_AI_Agent.py:43-51 | on text that is already stripped and lower-case, only the suffix decides the result |
| Magnitude.CaptureUnchanged | pages/1_AI_Agent.py:43-51 | a plain decimal numeral comes back unchanged |
| Magnitude.ThousandsExample | pages/1_AI_Agent.py:46-47 | example: "1.5k" is read as 1500 |
| Magnitude.MillionsExample | pages/1_AI_Agent.py:45-49 | example: "2M" is lower-cased and read as two million |
| Magnitude.PlainExample | pages/1_AI_Agent.py:50-51 | example: "500" is kept as the text "500", worth 500 |
| Lexicon.ChainName | pages/1_AI_Agent.py:30-41 | a stored chain key maps to its dataset name through `chain_mapping`; an unknown one is used as it is (the `.get` default of line 219) |
| Extract.ChainMatchedMeansMentioned | pages/1_AI_Agent.py:59-76 | the pattern loop for one chain key stops with a match exactly when the query mentions that chain in one of the accepted phrasings |
| Extract.MentionNeedsKey | pages/1_AI_Agent.py:61-69 | every blockchain pattern contains the key literally, so a mentioned chain occurs in the query |
| Extract.DetectChain | pages/1_AI_Agent.py:59-76 | the result is a `chain_mapping` key the query mentions, with no earlier key mentioned; `None` exactly when no key is mentioned |
| Extract.ChainPriority | pages/1_AI_Agent.py:59-76 | the first mentioned key in `chain_mapping` order is the one detected |
| Extract.EthereumFirst | pages/1_AI_Agent.py:30-31 | a query that mentions Ethereum sets the chain to "ethereum", whatever other chains it names |
| Extract.DetectToken | pages/1_AI_Agent.py:79-92 | the token is the capture of the first pattern whose leftmost capture is not a stopword; it is word text; `None` exactly when every pattern is declined |
| Extract.DetectProtocol | pages/1_AI_Agent.py:95-109 | the same first-accepted rule for the protocol patterns, with the same stopword refusal |
| Extract.DetectThreshold | pages/1_AI_Agent.py:112-140 | the capture of the first of the five threshold patterns that matches, a numeral (with an optional k/m suffix for TVL); `None` exactly when none matches |
| Extract.MagnitudeCanonical | pages/1_AI_Agent.py:45 | a TVL capture is already stripped and lower-case |
| Extract.ProcessedMagnitude | pages/1_AI_Agent.py:43-51 | `process_tvl_value` on a TVL capture yields the value of the numeral times its suffix, and a truthy threshold |
| Extract.DetectTvl | pages/1_AI_Agent.py:112-125 | a TVL threshold is found exactly when a TVL pattern matches, and it stores the scaled value of the capture |
| Extract.DetectApy | pages/1_AI_Agent.py:128-140 | an APY threshold is found exactly when an APY pattern matches, and it is stored as the captured decimal text |
| Extract.DetectAllVariables | pages/1_AI_Agent.py:53-142 | each detected slot is well-formed: a chain key occurring in the query, non-stopword word text for token and protocol, and readable truthy thresholds |
| FilterState.UpdateState | pages/1_AI_Agent.py:144-164 | each slot given in the updates replaces the stored one and every other slot is kept; the announcement is absent exactly when there was nothing to update |
| FilterState.UpdateIdempotent | pages/1_AI_Agent.py:144-164 | applying the same updates twice leaves the slots as applying them once |
| FilterState.UpdatesCompose | pages/1_AI_Agent.py:144-164 | two successive updates act like one merged update whose later values win |
| Pools.RankTotal | pages/1_AI_Agent.py:237 | the APY order (missing last) is total and transitive |
| Pools.SortByApy | pages/1_AI_Agent.py:237 | the result is a permutation of the pools, ordered by APY, highest first, missing values last |
| Pools.TopByApy | pages/1_AI_Agent.py:237-240 | at most five pools, ordered, taken from the input, and every pool left out ranks no higher than every pool kept |
| Opportunities.FilteredMeansPasses | pages/1_AI_Agent.py:215-234 | the successive filters keep exactly the pools that meet every set criterion, each as often as it occurs |
| Opportunities.EmptyWhenNonePasses | pages/1_AI_Agent.py:215-244 | nothing survives the filters exactly when no pool meets the criteria |
| Opportunities.Select | pages/1_AI_Agent.py:215-240 | the shown pools meet every set criterion, are ordered by APY, number min(5, matches), and outrank every matching pool left out |
| Opportunities.Rows | pages/1_AI_Agent.py:250-262 | one row per shown pool, numbered from 1 in order |
| Opportunities.SearchOpportunities | pages/1_AI_Agent.py:198-267 | each failure (exception, HTTP status, missing `status` key, bad response, empty data) gives its message; "no match" exactly when no pool passes; otherwise the selected top pools |
| Opportunities.SearchAsWritten | pages/1_AI_Agent.py:198-267 | the search returns a bare string exactly for a non-200 status or a non-success body, and a pair otherwise |
| Opportunities.UnpackPair | pages/1_AI_Agent.py:320 | unpacking into two names succeeds for a pair and for a string only when it has exactly two characters |
| Opportunities.HttpErrorCrashes | pages/1_AI_Agent.py:204-205 | a non-200 status makes the unpack of line 320 fail |
| Opportunities.BadResponseCrashes | pages/1_AI_Agent.py:209-210 | a body whose `status` is not "success" makes the unpack of line 320 fail |
| Opportunities.ServiceUnavailableExample | pages/1_AI_Agent.py:204-205 | a 503 crashes the code as written and is reported as "...: 503" by the corrected search |
| Opportunities.CorrectedAgrees | pages/1_AI_Agent.py:198-267 | wherever the code as written does not crash, the corrected search agrees with it; where it returns a bare string, that string is the corrected failure message |
| Position.Clean | pages/1_AI_Agent.py:171 | quotes and parentheses are removed; text without them is unchanged |
| Position.CleanKeeps | pages/1_AI_Agent.py:171 | cleaning keeps exactly the characters that are not quotes or parentheses |
| Position.CleanConcat | pages/1_AI_Agent.py:171 | cleaning works piece by piece |
| Position.PatternsCaptureDigits | pages/1_AI_Agent.py:174-184 | every position pattern captures a run of digits |
| Position.PositionDigits | pages/1_AI_Agent.py:174-192 | some pattern matches exactly when the result is present, and the result is the search result of the first pattern that matches |
| Position.DetectPositionRequest | pages/1_AI_Agent.py:166-196 | the index asked for is the captured number minus one (so "0" gives -1); `None` exactly when no pattern matches the lower-cased, cleaned query or the first capture has more digits than `int()` converts |
| Position.GetPositionDetails | pages/1_AI_Agent.py:269-272 | the pool at the index when it is in range of the last listing, the "not available" error otherwise |
| PositionRequests.DetectedFrom | pages/1_AI_Agent.py:186-194 | the index is read from the digits the patterns captured; a capture of more than 4300 digits gives `None` (the `ValueError` branch) |
| PositionRequests.InfoCleaned | pages/1_AI_Agent.py:170-171 | "info " followed by digits survives lower-casing and cleaning |
| PositionRequests.NoMoreInfoWithoutM | pages/1_AI_Agent.py:175 | a text without "m" never matches the first pattern |
| PositionRequests.InfoNotMoreInfo | pages/1_AI_Agent.py:175 | "info N" is not matched by the first pattern |
| PositionRequests.InfoCaptures | pages/1_AI_Agent.py:176 | the second pattern matches "info N" at its start and captures N |
| PositionRequests.InfoSearch | pages/1_AI_Agent.py:176 | searching the second pattern in "info N" finds N |
| PositionRequests.InfoDigits | pages/1_AI_Agent.py:174-192 | the first pattern to match "info N" captures N |
| PositionRequests.InfoIndex | pages/1_AI_Agent.py:166-196 | "info N" asks for index N - 1 when N has at most 4300 digits, and is no position request otherwise |
| PositionRequests.InfoRequest | pages/1_AI_Agent.py:166-196 | writing the number shown in a listing asks for that row's index (`str()` and `int()` round-trip) for every number below 10^4300, and for no larger one |
| Numerals.ParseDigits | pages/1_AI_Agent.py:189-194 | `int()` of a digit run gives its value exactly when it has at most 4300 digits |
| Numerals.NatTextLength | pages/1_AI_Agent.py:189-194 | `str(n)` has at most k digits exactly when n < 10^k |
| PositionRequests.ParenthesesRemoved | pages/1_AI_Agent.py:171 | parentheses around a number are dropped |
| PositionRequests.InfoParenthesesExample | pages/1_AI_Agent.py:166-196 | example: "info (3)" asks for index 2 |
| Numerals.NatTextRoundTrip | pages/1_AI_Agent.py:189 | `int(str(n)) == n` for natural numbers |
| CryptoAgent.ResetState | pages/1_AI_Agent.py:331-335 | every slot is cleared and the last listing forgotten |
| CryptoAgent.SearchTurn | pages/1_AI_Agent.py:313-329 | the detected updates are stored before the search; a failed search keeps the old listing and shows its message, no match clears the listing, and a listing replaces it and announces the updates |
| CryptoAgent.PositionReply | pages/1_AI_Agent.py:306-311 | the requested pool when it exists, the "not available" message otherwise |
| CryptoAgent.ProcessQuery | pages/1_AI_Agent.py:296-329 | a reset word resets; otherwise a position request answers from the last listing and leaves the agent unchanged; otherwise the turn is a search turn; stored thresholds stay readable |
| AgentProperties.TurnIdempotent | pages/1_AI_Agent.py:296-329 | repeating a turn with the same query and dataset changes nothing more and gives the same reply |
| AgentProperties.InfoIsNoReset | pages/1_AI_Agent.py:301 | "info N" contains no reset word |
| AgentProperties.PositionTurn | pages/1_AI_Agent.py:306-311 | asking for an existing position shows that pool and changes nothing |
| AgentProperties.ListingRemembered | pages/1_AI_Agent.py:247-264 | the rows of a listing number the pools the agent now remembers, and there is at least one |
| AgentProperties.RowTurn | pages/1_AI_Agent.py:306-311 | asking for a row's index shows that row's pool, and the row is numbered index + 1 |
| AgentProperties.InfoAsksPosition | pages/1_AI_Agent.py:166-196 | "info N" is no reset, and asks for position N when N has at most 4300 digits |
| AgentProperties.LongNumberSearches | pages/1_AI_Agent.py:306-313 | "info N" with N longer than 4300 digits is no position request, and the turn is a search turn |
| AgentProperties.ListingThenInfo | pages/1_AI_Agent.py:296-329 | after a listing, asking for one of the positions shown returns the pool of that row and changes nothing |
| AgentProperties.BorrarloResets | pages/1_AI_Agent.py:301-303 | a reset word inside a longer word still resets ("Borrarlo todo") |
| AgentProperties.FailedSearchKeepsUpdates | pages/1_AI_Agent.py:313-323 | when the search fails, the turn's detected slots are kept and the last listing is unchanged |
| Portfolio.FirstMentioned | app.py:178-184 | the first listed symbol occurring in the token, absent exactly when none occurs |
| Portfolio.ClassifyToken | app.py:174-186 | Stablecoin exactly when a stablecoin symbol occurs; Bluechip exactly when none does but a blue-chip symbol does; Altcoin otherwise |
| Portfolio.PairWithStablecoin | app.py:178-180 | a pair with a stablecoin on either side is a stablecoin |
| Portfolio.PairWithBluechip | app.py:182-184 | a blue chip paired with anything that adds no stablecoin is a blue chip |
| Portfolio.Categories | app.py:188 | the category column has one entry per holding, its token's class |
| PortfolioExamples.HoldingCategories | app.py:126-188 | the five holdings are Altcoin, Bluechip, Stablecoin, Bluechip, Bluechip |
| PortfolioExamples.OdosIsAltcoin | app.py:174-186 | example: "ODOS" is an altcoin |
| PortfolioExamples.EthPairIsBluechip | app.py:182-184 | example: "ETH/cmETH" is a blue chip |
| PortfolioExamples.JlpSolIsBluechip | app.py:182-184 | example: "JLP/SOL" is a blue chip |
| PortfolioExamples.LowerCaseIsAltcoin | app.py:174-186 | example: the tests are case-sensitive, so "eth" is an altcoin |
| PortfolioExamples.StablecoinFirst | app.py:178-184 | example: stablecoins are checked first, so "ETH/USDC" is a stablecoin |

## Left out

- HTTP and JSON decoding: `requests.get` and `response.json()` are replaced by the `Response` parameter. Timeouts and the exact text of exception messages are whatever that parameter carries.
- Display formatting is not modelled: the `$`/`%` strings of `tvlUsd` and `apy` in the listing rows and the text `get_position_details` builds. Rows and details carry the pool itself.
- The text of the update announcement built by `update_state` is not modelled. It is represented by the updated slots themselves.
- Floating point: thresholds and pool figures are exact reals. `str()` of a scaled TVL (`Magnitude.Scaled`) is kept as its value, not as its decimal rendering.
- Magnitude.ProcessTvlValue: requires that the text before a `k`/`m` suffix is a decimal numeral. Any other stem is outside the requires. `float()` also accepts other forms, such as "1e3", "-5", "inf", "nan", "1_000" and padded text, and raises `ValueError` on the rest. The model covers neither case. The agent calls it only on captures, which always qualify (`Extract.ProcessedMagnitude`).
- Opportunities.SearchOpportunities: requires the stored thresholds to be readable by `float()`. Every turn keeps this true (`CryptoAgent.ProcessQuery` ensures it), so the `ValueError` path for arbitrary threshold text is not modelled.
- Opportunities.SearchAsWritten: the same readable-threshold requirement, for the same reason.
- CryptoAgent.SearchTurn: the same readable-threshold requirement, for the same reason.
- CryptoAgent.ProcessQuery: the same readable-threshold requirement. The initial agent meets it and every turn preserves it.
- Pools.SortByApy: the result is some APY-ordered permutation. The stability of pandas' sort among pools with equal APY is not stated.
- Regular expressions: only the patterns of the agent are modelled. `str.contains(token)` at line 227 is treated as a substring test, which it is for the word text a token capture always is.
- Text beyond Latin-1: the character classes `\s`, `\w` and `\d` are exact only for Latin-1 text. So is `str.lower()` (`Chars.Lower`). Beyond Latin-1, `Chars.Lower` leaves every character unchanged, where Python maps U+212A (Kelvin sign) to "k", "Σ" to "σ", and "İ" to two characters.
- Opportunities.UnpackPair: for a two-character string it represents the first character bound to `results` by `None`. No string the search returns has two characters.
- The Streamlit pages, chat history, `get_conversational_response`, the chart and portfolio display code of `app.py`, and the bilingual keyword tables are outside the modelled core.
- Mutation of the agent object is modelled as a function from the old agent to the new one. Python's in-place dictionary updates and concurrency are not modelled.

## Findings

| source | as written | input that shows it | evidently intended | confidence | as-written member | corrected member |
|---|---|---|---|---|---|---|
| pages/1_AI_Agent.py:205,210,320 | on a non-200 status or a body whose `status` is not "success", `search_defi_opportunities` returns a bare error string, but `process_query` unpacks its result into `results, error`, which raises `ValueError` for any string that is not exactly two characters long | a search turn while the pools endpoint answers 503 | return `(None, message)` so that the error is shown to the user like the other failures | not executed | Opportunities.SearchAsWritten | Opportunities.SearchOpportunities |
