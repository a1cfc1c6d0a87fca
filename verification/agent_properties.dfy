/** Properties of whole turns of the agent (pages/1_AI_Agent.py:296-335). */
module AgentProperties {
  import opened Options
  import opened Chars
  import opened Numerals
  import opened Lexicon
  import opened FilterState
  import opened Extract
  import opened Pools
  import opened Position
  import opened PositionRequests
  import opened Opportunities
  import opened CryptoAgent

  /** Repeating a turn with the same query and the same dataset changes
      nothing more and shows the same reply. */
  lemma {:induction false} TurnIdempotent(a: Agent, query: string, resp: Response)
    requires Readable(a.slots)
    ensures var (a1, reply) := ProcessQuery(a, query, resp);
            Readable(a1.slots) && ProcessQuery(a1, query, resp) == (a1, reply)
  {
    var (a1, reply) := ProcessQuery(a, query, resp);
    if !ResetRequested(query) && DetectPositionRequest(query).None? {
      var updates := DetectAllVariables(query);
      UpdateIdempotent(a.slots, updates);
      assert UpdateState(a1.slots, updates).0 == a1.slots;
      assert UpdateState(a1.slots, updates).1 == UpdateState(a.slots, updates).1;
    }
  }

  /** "info " followed by digits, lower-cased, is itself. */
  lemma InfoLower(t: string)
    requires IsDigitText(t)
    ensures Lower("info " + t) == "info " + t
  {
    var c := "info " + t;
    forall k | 0 <= k < |c| ensures LowerChar(c[k]) == c[k] {
      if k >= 5 { assert c[k] == t[k - 5]; }
    }
  }

  /** No reset word occurs in "info " followed by digits: each starts with a
      letter the request does not contain. */
  lemma InfoIsNoReset(t: string)
    requires IsDigitText(t)
    ensures !ResetRequested("info " + t)
  {
    var c := "info " + t;
    InfoLower(t);
    forall k, i: nat | 0 <= k < |ResetWords| && i <= |c| ensures !StartsAt(c, i, ResetWords[k]) {
      if i < |c| {
        if i >= 5 { assert c[i] == t[i - 5]; }
        assert c[i] != 'r' && c[i] != 'b' && c[i] != 'l';
      }
      NotStartsAt(c, i, ResetWords[k]);
    }
  }

  /** A query that asks for an existing position shows that pool and leaves
      the agent as it was. */
  lemma PositionTurn(a: Agent, q: string, resp: Response, index: nat)
    requires Readable(a.slots)
    requires !ResetRequested(q) && DetectPositionRequest(q) == Some(index)
    requires index < |a.lastOpps|
    ensures ProcessQuery(a, q, resp) == (a, Details(a.lastOpps[index]))
  {
  }

  /** The rows of a listing number the pools the agent remembers, and
      there is at least one. */
  lemma ListingRemembered(a: Agent, query: string, resp: Response)
    requires Readable(a.slots)
    ensures var (a1, reply) := ProcessQuery(a, query, resp);
            reply.Listing? ==> reply.rows == Rows(a1.lastOpps) && |a1.lastOpps| > 0
  {
  }

  /** A query asking for the position at `index`, after rows numbering the
      remembered pools, shows the pool of that row, numbered `index + 1`. */
  lemma RowTurn(a: Agent, rows: seq<Row>, q: string, index: nat, resp: Response)
    requires Readable(a.slots)
    requires rows == Rows(a.lastOpps) && index < |rows|
    requires !ResetRequested(q) && DetectPositionRequest(q) == Some(index)
    ensures ProcessQuery(a, q, resp) == (a, Details(rows[index].pool))
    ensures rows[index].posicion == index + 1
  {
    PositionTurn(a, q, resp, index);
  }

  /** "info N", with N a run of digits, is no reset, and asks for position
      N when N is short enough for `int()` (see `LongNumberSearches` for the
      other case). */
  lemma InfoAsksPosition(q: string, t: string)
    requires IsDigitText(t) && q == "info " + t
    ensures !ResetRequested(q)
    ensures |t| <= MaxStrDigits ==> DetectPositionRequest(q) == Some(DigitsValue(t) - 1)
  {
    InfoIsNoReset(t);
    InfoIndex(t);
  }

  /** "info N" with N too long for `int()` is no position request: the turn
      goes on to detect slots and search. */
  lemma LongNumberSearches(a: Agent, q: string, t: string, resp: Response)
    requires Readable(a.slots)
    requires IsDigitText(t) && |t| > MaxStrDigits && q == "info " + t
    ensures DetectPositionRequest(q) == None
    ensures ProcessQuery(a, q, resp) == SearchTurn(a, q, resp)
  {
    InfoIsNoReset(t);
    InfoIndex(t);
  }

  /** After a turn that listed pools, a query asking for one of the
      positions shown ("info N" is one, by `InfoAsksPosition`) returns the
      pool of that row and changes nothing. */
  lemma {:induction false} ListingThenInfo(a: Agent, query: string, resp: Response, q: string, index: nat, later: Response)
    requires Readable(a.slots)
    requires ProcessQuery(a, query, resp).1.Listing?
    requires index < |ProcessQuery(a, query, resp).1.rows|
    requires !ResetRequested(q) && DetectPositionRequest(q) == Some(index)
    ensures var (a1, reply) := ProcessQuery(a, query, resp);
            ProcessQuery(a1, q, later) == (a1, Details(reply.rows[index].pool))
            && reply.rows[index].posicion == index + 1
  {
    var (a1, reply) := ProcessQuery(a, query, resp);
    ListingRemembered(a, query, resp);
    RowTurn(a1, reply.rows, q, index, later);
  }

  /** A reset word inside a longer word still resets: "Borrarlo todo"
      clears the slots and the last listing, whatever the agent held. */
  lemma BorrarloResets(a: Agent, resp: Response)
    requires Readable(a.slots)
    ensures ProcessQuery(a, "Borrarlo todo", resp) == (Initial, Message(ResetMessage))
  {
    var q := Lower("Borrarlo todo");
    assert q[..6] == "borrar";
    assert StartsAt(q, 0, ResetWords[2]);
  }

  /** When the search fails, the slots detected in the turn are kept and the
      last listing is left as it was. */
  lemma FailedSearchKeepsUpdates(a: Agent, query: string, resp: Response)
    requires Readable(a.slots)
    requires !ResetRequested(query) && DetectPositionRequest(query).None?
    requires SearchOpportunities(UpdateState(a.slots, DetectAllVariables(query)).0, resp).Failed?
    ensures ProcessQuery(a, query, resp).0 == Agent(UpdateState(a.slots, DetectAllVariables(query)).0, a.lastOpps)
  {
  }
}
