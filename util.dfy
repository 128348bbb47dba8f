/** `makeArray` of the front end's utility module. */
module Util {

  /**
   * `makeArray(n, v)`: `v` pushed `n` times onto a fresh list; nothing for
   * `n <= 0`. The same `v` is repeated, not copied.
   */
  method MakeArray<T>(n: int, v: T) returns (result: seq<T>)
    ensures |result| == if n > 0 then n else 0
    ensures forall i :: 0 <= i < |result| ==> result[i] == v
  {
    result := [];
    var i := 0;
    while i < n
      invariant 0 <= i <= (if n > 0 then n else 0)
      invariant |result| == i
      invariant forall k :: 0 <= k < i ==> result[k] == v
    {
      result := result + [v];
      i := i + 1;
    }
  }
}
