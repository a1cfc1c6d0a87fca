/** `CryptoAgent.process_query` and `reset_state`
    (pages/1_AI_Agent.py:14-27, 296-335): one user turn, routed to a reset,
    a position lookup or a slot update followed by a search. */
module CryptoAgent {
  import opened Options
  import opened Chars
  import opened Lexicon
  import opened FilterState
  import opened Extract
  import opened Pools
  import opened Position
  import opened Opportunities

  /** The agent's memory: the five slots and the pools of the last listing. */
  datatype Agent = Agent(slots: Slots, lastOpps: seq<Pool>)

  /** A fresh agent (lines 16-27), and the one `reset_state` leaves. */
  const Initial: Agent := Agent(NoFilters, [])

  /** What a turn shows the user: a plain message; the details of one pool
      (`details, True`); or a listing, headed by the announcement of the
      updated slots when there were any (`None` standing for "Búsqueda
      realizada con éxito"), with its rows. */
  datatype Reply = Message(text: string) | Details(pool: Pool) | Listing(updates: Option<Slots>, rows: seq<Row>)

  const ResetMessage := "Variables reseteadas. Ahora puedes establecer nuevos criterios de búsqueda."

  /** Some word of `words` occurs in `s`. */
  function AnyOccurs(s: string, words: seq<string>): (r: bool)
    ensures r <==> exists k :: 0 <= k < |words| && Occurs(s, words[k])
  {
    if |words| == 0 then false
    else
      var rest := AnyOccurs(s, words[1..]);
      assert forall k :: 1 <= k < |words| ==> words[k] == words[1..][k - 1];
      Contains(s, words[0]) || rest
  }

  /** Line 301: a reset word occurs anywhere in the lower-cased query,
      inside a longer word too. */
  predicate ResetRequested(query: string) {
    AnyOccurs(Lower(query), ResetWords)
  }

  /** `reset_state`: every slot cleared and the last listing forgotten. */
  function ResetState(a: Agent): (r: Agent)
    ensures r.slots == NoFilters && r.lastOpps == []
  {
    Initial
  }

  /** Lines 313-329: the detected updates are stored first, then the search
      runs on the updated slots. */
  function SearchTurn(a: Agent, query: string, resp: Response): (r: (Agent, Reply))
    requires Readable(a.slots)
    ensures Readable(r.0.slots)
    ensures r.0.slots == UpdateState(a.slots, DetectAllVariables(query)).0
    ensures SearchOpportunities(r.0.slots, resp).Failed?
            ==> r == (Agent(r.0.slots, a.lastOpps), Message(SearchOpportunities(r.0.slots, resp).message))
    ensures SearchOpportunities(r.0.slots, resp).NoneFound?
            ==> r == (Agent(r.0.slots, []), Message(NoMatchMessage))
    ensures SearchOpportunities(r.0.slots, resp).Found?
            ==> var top := SearchOpportunities(r.0.slots, resp).top;
                r == (Agent(r.0.slots, top), Listing(UpdateState(a.slots, DetectAllVariables(query)).1, Rows(top)))
  {
    var updates := DetectAllVariables(query);
    var (slots, announced) := UpdateState(a.slots, updates);
    match SearchOpportunities(slots, resp)
    case Failed(message) => (Agent(slots, a.lastOpps), Message(message))
    case NoneFound => (Agent(slots, []), Message(NoMatchMessage))
    case Found(top) => (Agent(slots, top), Listing(announced, Rows(top)))
  }

  /** Lines 306-311: the pool asked for, or the error message of
      `get_position_details`. */
  function PositionReply(last: seq<Pool>, index: int): (r: Reply)
    ensures 0 <= index < |last| ==> r == Details(last[index])
    ensures !(0 <= index < |last|) ==> r == Message(NotAvailable)
  {
    match GetPositionDetails(last, index)
    case Ok(pool) => Details(pool)
    case Err(error) => Message(error)
  }

  /** `process_query`, with the search's bare-string errors reported as
      messages (see `Opportunities.SearchAsWritten` for the code as written). */
  function ProcessQuery(a: Agent, query: string, resp: Response): (r: (Agent, Reply))
    requires Readable(a.slots)
    ensures Readable(r.0.slots)
    ensures ResetRequested(query) ==> r == (Initial, Message(ResetMessage))
    ensures !ResetRequested(query) && DetectPositionRequest(query).Some? ==> r.0 == a
    ensures !ResetRequested(query) && DetectPositionRequest(query).Some?
            && 0 <= DetectPositionRequest(query).value < |a.lastOpps|
            ==> r.1 == Details(a.lastOpps[DetectPositionRequest(query).value])
    ensures !ResetRequested(query) && DetectPositionRequest(query).Some?
            && !(0 <= DetectPositionRequest(query).value < |a.lastOpps|)
            ==> r.1 == Message(NotAvailable)
    ensures !ResetRequested(query) && DetectPositionRequest(query).None? ==> r == SearchTurn(a, query, resp)
  {
    if ResetRequested(query) then (ResetState(a), Message(ResetMessage))
    else if DetectPositionRequest(query).Some? then (a, PositionReply(a.lastOpps, DetectPositionRequest(query).value))
    else SearchTurn(a, query, resp)
  }
}
