/** Python 3 character classes and string helpers, exact on the Latin-1
    range (U+0000..U+00FF); other code points are treated as neither space,
    digit nor word character and are left unchanged by lower-casing. */
module Chars {

  /** `\s`: the Unicode whitespace characters of Latin-1. */
  predicate IsSpace(c: char) {
    var n := c as int;
    (9 <= n <= 13) || (0x1C <= n <= 0x1F) || n == 0x20 || n == 0x85 || n == 0xA0
  }

  /** `\d`: a Unicode decimal digit; in Latin-1 only the ASCII ones. */
  predicate IsDigit(c: char) {
    '0' <= c <= '9'
  }

  /** `\w`: letters, numeric characters and the underscore of Latin-1. */
  predicate IsWordChar(c: char) {
    var n := c as int;
    || IsDigit(c)
    || ('a' <= c <= 'z')
    || ('A' <= c <= 'Z')
    || c == '_'
    || n == 0xAA || n == 0xB2 || n == 0xB3 || n == 0xB5 || n == 0xB9 || n == 0xBA
    || (0xBC <= n <= 0xBE)
    || (0xC0 <= n <= 0xFF && n != 0xD7 && n != 0xF7)
  }

  /** `str.lower()` on one Latin-1 character. */
  function LowerChar(c: char): (r: char)
    ensures 'A' <= c <= 'Z' ==> r as int == c as int + 32
    ensures !('A' <= c <= 'Z') && (c as int < 0xC0 || c as int > 0xDE) ==> r == c
    ensures IsSpace(r) <==> IsSpace(c)
    ensures IsDigit(r) <==> IsDigit(c)
  {
    if 'A' <= c <= 'Z' || (0xC0 <= c as int <= 0xDE && c as int != 0xD7) then (c as int + 32) as char else c
  }

  /** `str.lower()`. */
  function Lower(s: string): (r: string)
    ensures |r| == |s|
    ensures forall k :: 0 <= k < |s| ==> r[k] == LowerChar(s[k])
  {
    seq(|s|, k requires 0 <= k < |s| => LowerChar(s[k]))
  }

  /** `w` occurs in `s` starting at index `i`. */
  predicate StartsAt(s: string, i: nat, w: string) {
    i + |w| <= |s| && s[i..i + |w|] == w
  }

  /** Reference meaning of Python's `w in s`: some index where `w` starts. */
  ghost predicate Occurs(s: string, w: string) {
    exists i: nat :: i <= |s| && StartsAt(s, i, w)
  }

  /** A word with a character that `s` lacks does not occur in `s`. */
  lemma MissingChar(s: string, w: string, j: nat)
    requires j < |w| && w[j] !in s
    ensures !Occurs(s, w)
  {
  }

  /** `w in s` for Python strings, scanning from index `i`. */
  function ContainsFrom(s: string, w: string, i: nat): (r: bool)
    decreases |s| + 1 - i
    ensures r <==> exists j: nat :: i <= j <= |s| && StartsAt(s, j, w)
  {
    if i > |s| then false
    else if StartsAt(s, i, w) then true
    else ContainsFrom(s, w, i + 1)
  }

  /** `w in s`. */
  function Contains(s: string, w: string): (r: bool)
    ensures r <==> Occurs(s, w)
  {
    ContainsFrom(s, w, 0)
  }

  /** End of the longest run of characters of class `cls` starting at `i`;
      `i` itself when `i` is past the end. */
  function RunEnd(s: string, i: nat, cls: char -> bool): (e: nat)
    decreases |s| - i
    ensures i <= e
    ensures i <= |s| ==> e <= |s|
    ensures i > |s| ==> e == i
    ensures forall k :: i <= k < e ==> cls(s[k])
    ensures e < |s| ==> !cls(s[e])
  {
    if i >= |s| || !cls(s[i]) then i else RunEnd(s, i + 1, cls)
  }

  /** Every character of `t` belongs to class `cls`. */
  predicate All(t: string, cls: char -> bool) {
    forall k :: 0 <= k < |t| ==> cls(t[k])
  }

  /** A run measured inside a slice ends where the run in the whole string
      ends, capped at the end of the slice. */
  lemma {:induction false} RunEndInSlice(s: string, a: nat, b: nat, i: nat, cls: char -> bool)
    requires a <= i <= b <= |s|
    ensures RunEnd(s[a..b], i - a, cls) == (if RunEnd(s, i, cls) < b then RunEnd(s, i, cls) else b) - a
    decreases b - i
  {
    if i < b && cls(s[i]) {
      RunEndInSlice(s, a, b, i + 1, cls);
    }
  }

  /** A run is determined by where it stops. */
  lemma RunEndAt(s: string, i: nat, e: nat, cls: char -> bool)
    requires i <= e <= |s|
    requires forall k :: i <= k < e ==> cls(s[k])
    requires e == |s| || !cls(s[e])
    ensures RunEnd(s, i, cls) == e
  {
  }

  /** A word cannot start where its first character is missing. */
  lemma NotStartsAt(s: string, i: nat, w: string)
    requires |w| > 0 && (i < |s| ==> s[i] != w[0])
    ensures !StartsAt(s, i, w)
  {
  }
}
