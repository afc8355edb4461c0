/** The array operations the in-memory portfolio handlers use. */
module JsArray {

  /** `s.findIndex(p)`: the first position whose element satisfies `p`, or -1. */
  method FindIndex<T>(s: seq<T>, p: T -> bool) returns (idx: int)
    ensures -1 <= idx < |s|
    ensures idx == -1 <==> forall k :: 0 <= k < |s| ==> !p(s[k])
    ensures 0 <= idx ==> p(s[idx]) && forall k :: 0 <= k < idx ==> !p(s[k])
  {
    idx := 0;
    while idx < |s|
      invariant 0 <= idx <= |s|
      invariant forall k :: 0 <= k < idx ==> !p(s[k])
    {
      if p(s[idx]) {
        return;
      }
      idx := idx + 1;
    }
    idx := -1;
  }

  /** `s.splice(i, 1)`: the sequence without its element at `i`, the rest in order. */
  function RemoveAt<T>(s: seq<T>, i: nat): (r: seq<T>)
    requires i < |s|
    ensures |r| == |s| - 1
    ensures forall k :: 0 <= k < i ==> r[k] == s[k]
    ensures forall k :: i <= k < |r| ==> r[k] == s[k + 1]
  {
    s[..i] + s[i + 1..]
  }
}
