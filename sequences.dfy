/** The two array operations of the runtime the aggregators rely on. */
module Sequences {

  /** `Array.prototype.reverse`: the same elements, last first. */
  function Reversed<T>(s: seq<T>): (r: seq<T>)
    ensures |r| == |s|
    ensures forall k :: 0 <= k < |s| ==> r[k] == s[|s| - 1 - k]
  {
    if s == [] then [] else Reversed(s[1..]) + [s[0]]
  }

  /** `Array.prototype.slice(begin, end)` for non-negative bounds: both bounds are clamped
      to the length, and a window that is empty or starts past the end gives `[]`. */
  function Slice<T>(s: seq<T>, begin: nat, end: nat): (r: seq<T>)
    ensures |r| == if begin < end && begin < |s| then Min(end, |s|) - begin else 0
    ensures forall k :: 0 <= k < |r| ==> r[k] == s[begin + k]
  {
    var hi := Min(end, |s|);
    if begin < hi then s[begin..hi] else []
  }

  function Min(a: int, b: int): int
  {
    if a <= b then a else b
  }
}
