/** The categories of the hard-coded portfolio (app.py:126-188), and the
    tokens that show the order and the case-sensitivity of the tests. */
module PortfolioExamples {
  import opened Chars
  import opened Portfolio

  /** A word occurs where it is written. */
  lemma OccursAt(s: string, i: nat, w: string)
    requires i + |w| <= |s| && s[i..i + |w|] == w
    ensures Occurs(s, w)
  {
    assert StartsAt(s, i, w);
  }

  /** None of the stablecoin symbols occurs in `s`, each lacking a character
      of `s` at the given index. */
  lemma NoStablecoin(s: string, j0: nat, j1: nat, j2: nat, j3: nat)
    requires j0 < 4 && Stablecoins[0][j0] !in s
    requires j1 < 4 && Stablecoins[1][j1] !in s
    requires j2 < 3 && Stablecoins[2][j2] !in s
    requires j3 < 4 && Stablecoins[3][j3] !in s
    ensures !MentionsAny(s, Stablecoins)
  {
    MissingChar(s, Stablecoins[0], j0);
    MissingChar(s, Stablecoins[1], j1);
    MissingChar(s, Stablecoins[2], j2);
    MissingChar(s, Stablecoins[3], j3);
  }

  /** "ODOS" holds no U, A or B, and no E or L: an altcoin. */
  lemma OdosIsAltcoin(token: string)
    requires token == "ODOS"
    ensures ClassifyToken(token) == Altcoin
  {
    NoStablecoin(token, 0, 0, 1, 1);
    MissingChar(token, "ETH", 0);
    MissingChar(token, "BTC", 0);
    MissingChar(token, "SOL", 2);
  }

  /** "ETH/cmETH" starts with "ETH": a blue chip. */
  lemma EthPairIsBluechip(token: string)
    requires token == "ETH/cmETH"
    ensures ClassifyToken(token) == Bluechip
  {
    NoStablecoin(token, 0, 0, 1, 0);
    OccursAt(token, 0, "ETH");
  }

  /** "USDT" is the first stablecoin itself. */
  lemma UsdtIsStablecoin(token: string)
    requires token == "USDT"
    ensures ClassifyToken(token) == Stablecoin
  {
    OccursAt(token, 0, "USDT");
  }

  /** "JLP/SOL" has "SOL" after the slash: a blue chip. */
  lemma JlpSolIsBluechip(token: string)
    requires token == "JLP/SOL"
    ensures ClassifyToken(token) == Bluechip
  {
    NoStablecoin(token, 0, 0, 1, 0);
    OccursAt(token, 4, "SOL");
  }

  /** "ETH" is a blue chip. */
  lemma EthIsBluechip(token: string)
    requires token == "ETH"
    ensures ClassifyToken(token) == Bluechip
  {
    NoStablecoin(token, 0, 0, 1, 0);
    OccursAt(token, 0, "ETH");
  }

  /** The category column is the given list when each holding's token
      classifies as the entry at its index. */
  lemma CategoriesAre(hs: seq<Holding>, cats: seq<Category>)
    requires |hs| == |cats|
    requires forall i :: 0 <= i < |hs| ==> ClassifyToken(hs[i].token) == cats[i]
    ensures Categories(hs) == cats
  {
  }

  /** Lines 126-188: the five holdings are an altcoin, a blue chip, a
      stablecoin and two blue chips. */
  lemma HoldingCategories(hs: seq<Holding>)
    requires hs == Holdings
    ensures Categories(hs) == [Altcoin, Bluechip, Stablecoin, Bluechip, Bluechip]
  {
    var cats := [Altcoin, Bluechip, Stablecoin, Bluechip, Bluechip];
    forall i | 0 <= i < |hs| ensures ClassifyToken(hs[i].token) == cats[i] {
      if i == 0 { OdosIsAltcoin(hs[i].token); }
      else if i == 1 { EthPairIsBluechip(hs[i].token); }
      else if i == 2 { UsdtIsStablecoin(hs[i].token); }
      else if i == 3 { JlpSolIsBluechip(hs[i].token); }
      else { EthIsBluechip(hs[i].token); }
    }
    CategoriesAre(hs, cats);
  }

  /** The tests are case-sensitive: "eth" is an altcoin. */
  lemma LowerCaseIsAltcoin(token: string)
    requires token == "eth"
    ensures ClassifyToken(token) == Altcoin
  {
    NoStablecoin(token, 0, 0, 1, 0);
    MissingChar(token, "ETH", 0);
    MissingChar(token, "BTC", 0);
    MissingChar(token, "SOL", 0);
  }

  /** Stablecoins are checked first: "ETH/USDC" is a stablecoin although it
      names a blue chip too. */
  lemma StablecoinFirst(token: string)
    requires token == "ETH/USDC"
    ensures ClassifyToken(token) == Stablecoin
  {
    OccursAt(token, 4, "USDC");
  }
}
