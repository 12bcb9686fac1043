/** The two JavaScript array operations behind the tracker's list windows. */
module Sequences {

  function Min(a: int, b: int): int
  {
    if a <= b then a else b
  }

  /** The sum of a series of numbers, such as the points of a chart. */
  function SeqSum(s: seq<int>): int
  {
    if s == [] then 0 else SeqSum(s[..|s| - 1]) + s[|s| - 1]
  }

  /** `Array.prototype.reverse`: the same elements, last one first. */
  function Reverse<T>(s: seq<T>): (r: seq<T>)
    ensures |r| == |s|
    ensures forall i :: 0 <= i < |s| ==> r[i] == s[|s| - 1 - i]
  {
    if s == [] then [] else [s[|s| - 1]] + Reverse(s[..|s| - 1])
  }

  /**
   * `Array.prototype.slice(start)` with one argument: a negative start counts back from the
   * end and is clamped to the front; a non-negative start past the end gives the empty array.
   * The result is always a suffix of `s`.
   */
  function SliceFrom<T>(s: seq<T>, start: int): (r: seq<T>)
    ensures |r| <= |s| && r == s[|s| - |r|..]
    ensures start < 0 ==> |r| == Min(-start, |s|)
    ensures 0 <= start ==> |r| == |s| - Min(start, |s|)
  {
    if start < 0 then
      (if |s| + start <= 0 then s else s[|s| + start..])
    else if start <= |s| then s[start..]
    else []
  }
}
