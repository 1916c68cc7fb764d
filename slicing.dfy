/** Python's slicing `s[start:stop]` on sequences, for integer bounds. */
module Slicing {

  /** Normalises one slice bound against a sequence of length `n`: a negative
      bound counts from the end, and the result is clamped to `[0, n]`. */
  function Bound(k: int, n: nat): (c: nat)
    ensures c <= n
    ensures 0 <= k <= n ==> c == k
    ensures k < 0 && 0 <= k + n ==> c == k + n
    ensures k + n < 0 ==> c == 0
    ensures n < k ==> c == n
  {
    if k < 0 then (if k + n < 0 then 0 else k + n)
    else if k > n then n
    else k
  }

  /** `s[start:stop]`: never fails; out-of-range bounds are clamped and an
      empty range gives the empty sequence. */
  function Slice<T>(s: seq<T>, start: int, stop: int): (r: seq<T>)
    ensures |r| <= |s|
    ensures 0 <= start <= stop <= |s| ==> r == s[start..stop]
    ensures Bound(start, |s|) + |r| <= |s|
    ensures r == s[Bound(start, |s|)..Bound(start, |s|) + |r|]
    ensures Bound(start, |s|) < Bound(stop, |s|) ==> r == s[Bound(start, |s|)..Bound(stop, |s|)]
    ensures Bound(stop, |s|) <= Bound(start, |s|) ==> r == []
  {
    var lo, hi := Bound(start, |s|), Bound(stop, |s|);
    if lo < hi then s[lo..hi] else []
  }
}
