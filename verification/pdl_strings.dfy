/** String operations the two programs share: searching for a delimiter, stripping, bounded copies. */
module Strings {

  /** Index of the first `c` in `s`, or |s| when there is none (PDL's STR_LOC is this plus one). */
  function Find(s: string, c: char): (i: nat)
    ensures i <= |s|
    ensures i < |s| ==> s[i] == c
    ensures c !in s[..i]
  {
    if s == "" || s[0] == c then 0
    else
      var j := Find(s[1..], c);
      assert s[..j + 1] == [s[0]] + s[1..][..j];
      j + 1
  }

  lemma {:induction false} FindAfter(p: string, c: char, q: string)
    requires c !in p
    ensures Find(p + [c] + q, c) == |p|
  {
    var s := p + [c] + q;
    assert s[|p|] == c && forall k :: 0 <= k < |p| ==> s[k] == p[k];
    assert forall k :: 0 <= k < Find(s, c) ==> s[..Find(s, c)][k] == s[k];
  }

  lemma {:induction false} FindNone(p: string, c: char)
    requires c !in p
    ensures Find(p, c) == |p|
  {
  }

  /** Copying into a PDL STRING[n] variable keeps the first n characters. */
  function Bounded(s: string, n: nat): (r: string)
    ensures |r| <= n && |r| <= |s|
    ensures |s| <= n ==> r == s
  {
    if |s| <= n then s else s[..n]
  }

  /** Python's s.rstrip(c) for one character. */
  function RStrip(s: string, c: char): (r: string)
    ensures r <= s
    ensures r != "" ==> r[|r| - 1] != c
    ensures forall i :: |r| <= i < |s| ==> s[i] == c
  {
    if s != "" && s[|s| - 1] == c then RStrip(s[..|s| - 1], c) else s
  }
}
