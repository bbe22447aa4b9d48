/**
 * The string helpers the scripts use on element texts: ASCII lower-casing
 * (Python's `str.lower` restricted to ASCII letters) and Python's
 * substring test `p in t`.
 */
module Text {
  /** ASCII lower-casing of one character. */
  function LowerChar(c: char): (d: char)
    ensures 'A' <= c <= 'Z' ==> d as int == c as int + 32
    ensures !('A' <= c <= 'Z') ==> d == c
    ensures !('A' <= d <= 'Z')
    ensures ('a' <= d <= 'z') <==> ('A' <= c <= 'Z' || 'a' <= c <= 'z')
  {
    if 'A' <= c <= 'Z' then (c as int + 32) as char else c
  }

  /** ASCII lower-casing of a string, character by character. */
  function Lower(s: string): (t: string)
    ensures |t| == |s|
    ensures forall i :: 0 <= i < |s| ==> t[i] == LowerChar(s[i])
  {
    if |s| == 0 then [] else [LowerChar(s[0])] + Lower(s[1..])
  }

  /** Python's `p in t` on strings: `p` occurs in `t` at some offset. */
  predicate Contains(t: string, p: string)
    decreases |t|
  {
    |p| <= |t| && (t[..|p|] == p || Contains(t[1..], p))
  }

  /** An occurrence of `p` at offset `i` makes `p` a substring of `t`. */
  lemma {:induction false} ContainsAt(t: string, p: string, i: nat)
    requires i + |p| <= |t| && t[i..i + |p|] == p
    ensures Contains(t, p)
    decreases i
  {
    if i > 0 {
      assert t[1..][i - 1..i - 1 + |p|] == t[i..i + |p|];
      ContainsAt(t[1..], p, i - 1);
    }
  }

  /** Whatever contains `p + q` contains `p`. */
  lemma {:induction false} ContainsPrefix(t: string, p: string, q: string)
    requires Contains(t, p + q)
    ensures Contains(t, p)
    decreases |t|
  {
    if t[..|p + q|] == p + q {
      assert t[..|p|] == (p + q)[..|p|] == p;
    } else {
      ContainsPrefix(t[1..], p, q);
    }
  }

  /** Lower-casing twice is lower-casing once. */
  lemma LowerIdempotent(s: string)
    ensures Lower(Lower(s)) == Lower(s)
  {
    assert forall i :: 0 <= i < |s| ==> LowerChar(LowerChar(s[i])) == LowerChar(s[i]);
  }

  /** An ASCII decimal digit, as Python's `str.isdigit` accepts it. */
  predicate IsDigit(c: char) {
    '0' <= c <= '9'
  }

  /** Some character of `t` is a digit. */
  predicate HasDigit(t: string) {
    exists k :: 0 <= k < |t| && IsDigit(t[k])
  }

  /** Lower-casing leaves the digits where they are. */
  lemma LowerKeepsDigits(s: string)
    ensures HasDigit(Lower(s)) <==> HasDigit(s)
  {
    assert forall k :: 0 <= k < |s| ==> (IsDigit(Lower(s)[k]) <==> IsDigit(s[k]));
  }
}
