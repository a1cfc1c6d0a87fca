/** The portfolio dashboard's token classification (app.py:123-188): each
    holding's token symbol is sorted into a stablecoin, a blue chip or an
    altcoin by substring tests on fixed symbol lists. */
module Portfolio {
  import opened Options
  import opened Chars
  import opened Scan

  datatype Category = Stablecoin | Bluechip | Altcoin

  /** The symbols checked first (line 175). */
  const Stablecoins: seq<string> := ["USDT", "USDC", "DAI", "BUSD"]

  /** The symbols checked second (line 176). */
  const Bluechips: seq<string> := ["ETH", "BTC", "SOL"]

  /** Reference meaning: some symbol of `words` occurs in `token`, exactly as
      written (the test is case-sensitive). */
  ghost predicate MentionsAny(token: string, words: seq<string>) {
    exists k :: 0 <= k < |words| && Occurs(token, words[k])
  }

  /** The first symbol of `words` that occurs in `token`. */
  function FirstMentioned(token: string, words: seq<string>): (r: Option<string>)
    ensures r.None? <==> !MentionsAny(token, words)
    ensures r.Some? ==> r.value in words && Occurs(token, r.value)
  {
    FirstHit(words, (w: string) => Contains(token, w))
  }

  /** `classify_token`: a stablecoin symbol anywhere in the token wins, then
      a blue-chip symbol, and everything else is an altcoin. */
  function ClassifyToken(token: string): (c: Category)
    ensures c == Stablecoin <==> MentionsAny(token, Stablecoins)
    ensures c == Bluechip <==> !MentionsAny(token, Stablecoins) && MentionsAny(token, Bluechips)
    ensures c == Altcoin <==> !MentionsAny(token, Stablecoins) && !MentionsAny(token, Bluechips)
  {
    if FirstMentioned(token, Stablecoins).Some? then Stablecoin
    else if FirstMentioned(token, Bluechips).Some? then Bluechip
    else Altcoin
  }

  /** A symbol that occurs in a text still occurs once more text is put
      around it. */
  lemma OccursWithin(a: string, w: string, b: string)
    requires Occurs(a, w)
    ensures Occurs(b + a, w) && Occurs(a + b, w)
  {
    var i: nat :| i <= |a| && StartsAt(a, i, w);
    assert (b + a)[|b| + i..|b| + i + |w|] == a[i..i + |w|];
    assert StartsAt(b + a, |b| + i, w);
    assert (a + b)[i..i + |w|] == a[i..i + |w|];
    assert StartsAt(a + b, i, w);
  }

  /** A pair whose either leg is a stablecoin is classified as a
      stablecoin, whatever the other leg is ("ETH/USDC" included). */
  lemma PairWithStablecoin(a: string, b: string)
    requires ClassifyToken(a) == Stablecoin || ClassifyToken(b) == Stablecoin
    ensures ClassifyToken(a + "/" + b) == Stablecoin
  {
    if ClassifyToken(a) == Stablecoin {
      var k :| 0 <= k < |Stablecoins| && Occurs(a, Stablecoins[k]);
      OccursWithin(a, Stablecoins[k], "/" + b);
      assert a + "/" + b == a + ("/" + b);
    } else {
      var k :| 0 <= k < |Stablecoins| && Occurs(b, Stablecoins[k]);
      OccursWithin(b, Stablecoins[k], a + "/");
    }
  }

  /** A pair of a blue chip with anything that is not a stablecoin, on
      either side, is a blue chip. */
  lemma PairWithBluechip(a: string, b: string)
    requires ClassifyToken(a) == Bluechip
    requires !MentionsAny(a + "/" + b, Stablecoins)
    ensures ClassifyToken(a + "/" + b) == Bluechip
  {
    var k :| 0 <= k < |Bluechips| && Occurs(a, Bluechips[k]);
    OccursWithin(a, Bluechips[k], "/" + b);
    assert a + "/" + b == a + ("/" + b);
  }

  /** One row of the hard-coded portfolio (lines 126-166). */
  datatype Holding = Holding(id: nat, wallet: string, chain: string, protocol: string, token: string, usd: real)

  /** `load_portfolio_data`. */
  const Holdings: seq<Holding> := [
    Holding(1, "Wallet #1", "base", "Uniswap V3", "ODOS", 21.91),
    Holding(2, "Wallet #1", "mantle", "Pendle V2", "ETH/cmETH", 554.81),
    Holding(3, "Wallet #2", "base", "aave", "USDT", 2191.0),
    Holding(4, "Wallet #3", "solana", "meteora", "JLP/SOL", 551.0),
    Holding(5, "Wallet #1", "ethereum", "Aave V3", "ETH", 3.50)
  ]

  /** Line 188: the category column, one entry per holding in order. */
  function Categories(hs: seq<Holding>): (r: seq<Category>)
    ensures |r| == |hs|
    ensures forall i :: 0 <= i < |hs| ==> r[i] == ClassifyToken(hs[i].token)
  {
    seq(|hs|, i requires 0 <= i < |hs| => ClassifyToken(hs[i].token))
  }
}
