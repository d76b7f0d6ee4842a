/** Generic operations on sequences. */
module Sequences {
  /** The image of each element under `f`, in order (JavaScript's
      `Array.prototype.map`, and Go's loops that append one field per
      element). */
  function Map<T, U>(f: T -> U, s: seq<T>): (r: seq<U>)
    ensures |r| == |s|
    ensures forall k :: 0 <= k < |s| ==> r[k] == f(s[k])
  {
    if s == [] then [] else Map(f, s[..|s| - 1]) + [f(s[|s| - 1])]
  }
}
