/** The DeFiLlama pool records the agent filters and ranks, and the
    "sort by apy descending, keep the first five" step of
    `search_defi_opportunities` (pages/1_AI_Agent.py:236-240). */
module Pools {
  import opened Options

  /** One record of the pools dataset, with the fields the agent reads.
      A missing or NaN `tvlUsd`/`apy` is `None`. */
  datatype Pool = Pool(
    pool: string,
    chain: string,
    project: string,
    symbol: string,
    tvlUsd: Option<real>,
    apy: Option<real>,
    ilRisk: string,
    exposure: string)

  /** How many pools a search keeps (line 240). */
  const TopCount: nat := 5

  /** `a` may come before `b` when sorting by apy descending: pandas puts a
      missing apy last. */
  predicate RanksAtLeast(a: Pool, b: Pool) {
    b.apy.None? || (a.apy.Some? && a.apy.value >= b.apy.value)
  }

  /** Ordered by apy, highest first, missing values last. */
  predicate ByApy(ps: seq<Pool>) {
    forall i, j :: 0 <= i < j < |ps| ==> RanksAtLeast(ps[i], ps[j])
  }

  /** Any two pools can be compared, and the order is transitive. */
  lemma RankTotal(a: Pool, b: Pool, c: Pool)
    ensures RanksAtLeast(a, b) || RanksAtLeast(b, a)
    ensures RanksAtLeast(a, b) && RanksAtLeast(b, c) ==> RanksAtLeast(a, c)
  {
  }

  /** The head of an apy-ordered list ranks at least as high as all of it. */
  lemma HeadRanksFirst(ps: seq<Pool>)
    requires ByApy(ps) && |ps| > 0
    ensures forall x :: x in ps ==> RanksAtLeast(ps[0], x)
  {
    forall x | x in ps ensures RanksAtLeast(ps[0], x) {
      var k :| 0 <= k < |ps| && ps[k] == x;
    }
  }

  /** A pool ranking at least as high as every pool of an apy-ordered list
      can head it. */
  lemma ConsByApy(x: Pool, rest: seq<Pool>)
    requires ByApy(rest) && forall y :: y in rest ==> RanksAtLeast(x, y)
    ensures ByApy([x] + rest)
  {
    var r := [x] + rest;
    forall i, j | 0 <= i < j < |r| ensures RanksAtLeast(r[i], r[j]) {
      assert r[j] == rest[j - 1];
      if i > 0 { assert r[i] == rest[i - 1]; }
    }
  }

  /** `p` placed into an apy-ordered list after every pool ranking at least as high. */
  function Insert(p: Pool, ps: seq<Pool>): (r: seq<Pool>)
    requires ByApy(ps)
    ensures ByApy(r)
    ensures multiset(r) == multiset(ps) + multiset{p}
    ensures forall x :: x in r ==> x == p || x in ps
  {
    if |ps| == 0 then [p]
    else
      HeadRanksFirst(ps);
      if RanksAtLeast(p, ps[0]) then
        assert forall x :: x in ps ==> RanksAtLeast(p, x);
        ConsByApy(p, ps);
        [p] + ps
      else
        var rest := Insert(p, ps[1..]);
        assert ps == [ps[0]] + ps[1..];
        assert forall x :: x in rest ==> RanksAtLeast(ps[0], x);
        ConsByApy(ps[0], rest);
        [ps[0]] + rest
  }

  /** The pools ordered by apy, highest first: one of the orders
      `sort_values(by='apy', ascending=False)` may produce. */
  function SortByApy(ps: seq<Pool>): (r: seq<Pool>)
    ensures ByApy(r)
    ensures multiset(r) == multiset(ps)
    ensures |r| == |ps|
  {
    if |ps| == 0 then []
    else
      var r := Insert(ps[0], SortByApy(ps[1..]));
      assert ps == [ps[0]] + ps[1..];
      r
  }

  /** In an apy-ordered list, everything before a cut ranks at least as
      high as everything after it. */
  lemma {:induction false} CutRanks(sorted: seq<Pool>, n: nat)
    requires ByApy(sorted) && n <= |sorted|
    ensures forall x, y :: x in sorted[n..] && y in sorted[..n] ==> RanksAtLeast(y, x)
  {
    forall x, y | x in sorted[n..] && y in sorted[..n]
      ensures RanksAtLeast(y, x)
    {
      var i :| 0 <= i < n && sorted[..n][i] == y;
      var j :| 0 <= j < |sorted| - n && sorted[n..][j] == x;
      assert sorted[i] == y && sorted[n + j] == x;
    }
  }

  /** What a cut leaves out of a list is its tail. */
  lemma CutRemainder(ps: seq<Pool>, sorted: seq<Pool>, n: nat)
    requires multiset(sorted) == multiset(ps) && n <= |sorted|
    ensures multiset(ps) - multiset(sorted[..n]) == multiset(sorted[n..])
  {
    assert sorted == sorted[..n] + sorted[n..];
  }

  /** `sort_values(by='apy', ascending=False).head(5)`: at most five pools,
      highest apy first, taken from `ps`, and no pool left out ranks above
      one that was kept. */
  function TopByApy(ps: seq<Pool>): (r: seq<Pool>)
    ensures |r| == if |ps| < TopCount then |ps| else TopCount
    ensures ByApy(r)
    ensures multiset(r) <= multiset(ps)
    ensures forall x, y :: x in multiset(ps) - multiset(r) && y in r ==> RanksAtLeast(y, x)
  {
    var sorted := SortByApy(ps);
    var n := if |ps| < TopCount then |ps| else TopCount;
    CutRanks(sorted, n);
    CutRemainder(ps, sorted, n);
    assert sorted == sorted[..n] + sorted[n..];
    sorted[..n]
  }
}
