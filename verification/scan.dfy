/** The pieces the agent's regular expressions are written with: anchored
    matchers, the leftmost scan of `re.search`, and the first-match-wins
    loops over ordered pattern lists.

    Every `\s+` or `\s*` in the agent's patterns is followed by a piece that
    cannot start with whitespace (or by more optional whitespace before such
    a piece), so taking the longest whitespace run is the only choice that
    can lead to a match; optional and alternative pieces are tried in
    Python's order (taken before skipped, left alternative first). */
module Scan {
  import opened Options
  import opened Chars

  /** A pattern anchored at index `i`: its capture (or end) when it matches there. */
  type Matcher<T> = (string, nat) -> Option<T>

  /** The leftmost index at or after `from` where `m` matches. */
  function Leftmost<T>(s: string, m: Matcher<T>, from: nat): (r: Option<nat>)
    decreases |s| + 1 - from
    ensures r.Some? ==> from <= r.value <= |s| && m(s, r.value).Some?
    ensures r.Some? ==> forall j :: from <= j < r.value ==> m(s, j).None?
    ensures r.None? ==> forall j :: from <= j <= |s| ==> m(s, j).None?
  {
    if from > |s| then None
    else if m(s, from).Some? then Some(from)
    else Leftmost(s, m, from + 1)
  }

  /** `re.search`: the match found at the leftmost index where the pattern matches. */
  function Search<T(==)>(s: string, m: Matcher<T>): (r: Option<T>)
    ensures r.Some? <==> exists i: nat :: i <= |s| && m(s, i).Some?
    ensures r.Some? ==> exists i: nat :: i <= |s| && m(s, i) == r && forall j :: 0 <= j < i ==> m(s, j).None?
  {
    match Leftmost(s, m, 0)
    case Some(i) => m(s, i)
    case None => None
  }

  /** Pattern `m` found nothing in `s`, or what it captured was refused. */
  predicate Declined<T(==)>(s: string, m: Matcher<T>, accept: T -> bool) {
    var c := Search(s, m);
    c.None? || !accept(c.value)
  }

  /** One detection group of the agent: patterns are searched in order and
      the first capture that is accepted wins; a refused capture falls
      through to the next pattern. */
  function FirstAccepted<T(==)>(s: string, pats: seq<Matcher<T>>, accept: T -> bool): (r: Option<T>)
    ensures r.Some? ==> accept(r.value)
    ensures r.Some? ==> exists j :: 0 <= j < |pats| && Search(s, pats[j]) == r
                                   && forall k :: 0 <= k < j ==> Declined(s, pats[k], accept)
    ensures r.None? <==> forall j :: 0 <= j < |pats| ==> Declined(s, pats[j], accept)
  {
    if |pats| == 0 then None
    else
      var c := Search(s, pats[0]);
      if c.Some? && accept(c.value) then c
      else
        var r := FirstAccepted(s, pats[1..], accept);
        assert forall j :: 1 <= j < |pats| ==> pats[j] == pats[1..][j - 1];
        r
  }

  /** The first key, in order, for which `hit` holds. */
  function FirstHit<K>(keys: seq<K>, hit: K -> bool): (r: Option<K>)
    ensures r.Some? ==> exists j :: 0 <= j < |keys| && keys[j] == r.value && hit(keys[j])
                                   && forall k :: 0 <= k < j ==> !hit(keys[k])
    ensures r.None? <==> forall j :: 0 <= j < |keys| ==> !hit(keys[j])
  {
    if |keys| == 0 then None
    else if hit(keys[0]) then Some(keys[0])
    else
      var r := FirstHit(keys[1..], hit);
      assert forall j :: 1 <= j < |keys| ==> keys[j] == keys[1..][j - 1];
      r
  }

  /** A literal: the end of `w` when it occurs at `i`. */
  function Lit(s: string, i: nat, w: string): (r: Option<nat>)
    ensures r.Some? <==> StartsAt(s, i, w)
    ensures r.Some? ==> r.value == i + |w|
  {
    if StartsAt(s, i, w) then Some(i + |w|) else None
  }

  /** `\s*`: the end of the whitespace run at `i`. */
  function Spaces0(s: string, i: nat): nat {
    RunEnd(s, i, IsSpace)
  }

  /** `\s+`: the end of a non-empty whitespace run at `i`. */
  function Spaces1(s: string, i: nat): (r: Option<nat>)
    ensures r.Some? ==> i < r.value <= |s| && IsSpace(s[i])
    ensures r.None? ==> i >= |s| || !IsSpace(s[i])
  {
    var e := RunEnd(s, i, IsSpace);
    if e > i then Some(e) else None
  }

  /** A capture of one character class ending its pattern, such as `(\w+)`
      or `(\d+)`: the longest non-empty run at `i`. */
  function RunCapture(s: string, i: nat, cls: char -> bool): (r: Option<string>)
    ensures r.Some? ==> |r.value| > 0 && All(r.value, cls)
    ensures r.Some? <==> i < |s| && cls(s[i])
  {
    var e := RunEnd(s, i, cls);
    if e > i then Some(s[i..e]) else None
  }

  /** `\b` at index `i`: a word character on exactly one side. */
  predicate Boundary(s: string, i: nat) {
    (0 < i <= |s| && IsWordChar(s[i - 1])) != (i < |s| && IsWordChar(s[i]))
  }

  /** `(?:a|b|...)REST`: the first alternative, in order, that occurs at `i`
      and after which `rest` matches. */
  function Alternatives<T(==)>(s: string, i: nat, alts: seq<string>, rest: Matcher<T>): (r: Option<T>)
    ensures r.Some? ==> exists k :: 0 <= k < |alts| && StartsAt(s, i, alts[k]) && r == rest(s, i + |alts[k]|)
    ensures r.None? ==> forall k :: 0 <= k < |alts| && StartsAt(s, i, alts[k]) ==> rest(s, i + |alts[k]|).None?
  {
    if |alts| == 0 then None
    else
      var r := Alternatives(s, i, alts[1..], rest);
      assert forall k :: 1 <= k < |alts| ==> alts[k] == alts[1..][k - 1];
      OrElse(if StartsAt(s, i, alts[0]) then rest(s, i + |alts[0]|) else None, r)
  }

  /** `(?:a|b|...)?REST`: an alternative is taken when that lets `rest`
      match, otherwise the group is skipped. */
  function Optionally<T(==)>(s: string, i: nat, alts: seq<string>, rest: Matcher<T>): (r: Option<T>)
    ensures r.Some? ==> r == rest(s, i) || exists k :: 0 <= k < |alts| && StartsAt(s, i, alts[k]) && r == rest(s, i + |alts[k]|)
    ensures r.None? ==> rest(s, i).None?
  {
    OrElse(Alternatives(s, i, alts, rest), rest(s, i))
  }

  /** An optional group none of whose alternatives occurs is skipped. */
  lemma OptionalAbsent<T>(s: string, i: nat, alts: seq<string>, rest: Matcher<T>)
    requires forall k :: 0 <= k < |alts| ==> !StartsAt(s, i, alts[k])
    ensures Optionally(s, i, alts, rest) == rest(s, i)
  {
  }
}
