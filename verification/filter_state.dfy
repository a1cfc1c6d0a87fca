/** The agent's five filter slots and `update_state`
    (pages/1_AI_Agent.py:18-24, 144-164, 331-335). */
module FilterState {
  import opened Options
  import opened Magnitude
  import opened Numerals

  /** The slots of `self.state`. The same record, with only the detected
      slots present, stands for the `updates` dictionary (whose insertion
      order is always blockchain, token, protocol, tvl_min, apy_min). */
  datatype Slots = Slots(
    blockchain: Option<string>,
    token: Option<string>,
    protocol: Option<string>,
    tvlMin: Option<Amount>,
    apyMin: Option<Amount>)

  /** Every slot `None`: the initial state and the one `reset_state` restores. */
  const NoFilters: Slots := Slots(None, None, None, None, None)

  /** A stored threshold that `float()` can read: a non-empty verbatim one
      is a decimal numeral. */
  predicate ReadableAmount(o: Option<Amount>) {
    o.Some? && o.value.Verbatim? && |o.value.text| > 0 ==> IsDecimal(o.value.text)
  }

  /** Both stored thresholds can be read back with `float()`. */
  predicate Readable(s: Slots) {
    ReadableAmount(s.tvlMin) && ReadableAmount(s.apyMin)
  }

  /** The later value when one was given, the earlier one otherwise. */
  function Overwrite<T>(old_: Option<T>, new_: Option<T>): Option<T> {
    if new_.Some? then new_ else old_
  }

  /** `update_state`: the new slots, and `None` in place of the message
      when there was nothing to update. */
  function UpdateState(state: Slots, updates: Slots): (r: (Slots, Option<Slots>))
    ensures updates == NoFilters <==> r.1.None?
    ensures updates == NoFilters ==> r.0 == state
    ensures r.1.Some? ==> r.1.value == updates
    ensures updates.blockchain.Some? ==> r.0.blockchain == updates.blockchain
    ensures updates.blockchain.None? ==> r.0.blockchain == state.blockchain
    ensures updates.token.Some? ==> r.0.token == updates.token
    ensures updates.token.None? ==> r.0.token == state.token
    ensures updates.protocol.Some? ==> r.0.protocol == updates.protocol
    ensures updates.protocol.None? ==> r.0.protocol == state.protocol
    ensures updates.tvlMin.Some? ==> r.0.tvlMin == updates.tvlMin
    ensures updates.tvlMin.None? ==> r.0.tvlMin == state.tvlMin
    ensures updates.apyMin.Some? ==> r.0.apyMin == updates.apyMin
    ensures updates.apyMin.None? ==> r.0.apyMin == state.apyMin
    ensures Readable(state) && Readable(updates) ==> Readable(r.0)
  {
    if updates == NoFilters then (state, None)
    else
      var merged := Slots(
        Overwrite(state.blockchain, updates.blockchain),
        Overwrite(state.token, updates.token),
        Overwrite(state.protocol, updates.protocol),
        Overwrite(state.tvlMin, updates.tvlMin),
        Overwrite(state.apyMin, updates.apyMin));
      (merged, Some(updates))
  }

  /** Applying the same updates a second time changes nothing more. */
  lemma UpdateIdempotent(state: Slots, updates: Slots)
    ensures UpdateState(UpdateState(state, updates).0, updates).0 == UpdateState(state, updates).0
  {
  }

  /** Two turns of updates merge like one turn whose later values win. */
  lemma UpdatesCompose(state: Slots, first: Slots, second: Slots)
    ensures UpdateState(UpdateState(state, first).0, second).0
            == UpdateState(state, UpdateState(first, second).0).0
  {
  }
}
