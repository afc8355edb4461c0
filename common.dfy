/** Option, Result and sequence insertion, shared by every module of the model. */
module Common {

  /** `null`/`undefined` versus a present value. */
  datatype Option<+T> = None | Some(value: T)

  /** A value or a thrown error. */
  datatype Result<+T, +E> = Ok(value: T) | Err(error: E)

  /** A JSON number field: missing (`undefined`), `null`, or a number. */
  datatype JsNumber = Undefined | Null | Num(x: real)

  /** Inserting `e` at position `p`: where every element lands, and the multiset grows by `e`. */
  lemma InsertAt<T>(s: seq<T>, p: nat, e: T)
    requires p <= |s|
    ensures |s[..p] + [e] + s[p..]| == |s| + 1
    ensures forall i :: 0 <= i < p ==> (s[..p] + [e] + s[p..])[i] == s[i]
    ensures (s[..p] + [e] + s[p..])[p] == e
    ensures forall i :: p < i <= |s| ==> (s[..p] + [e] + s[p..])[i] == s[i - 1]
    ensures multiset(s[..p] + [e] + s[p..]) == multiset(s) + multiset{e}
    ensures forall x :: x in s[..p] + [e] + s[p..] <==> x in s || x == e
  {
    assert s == s[..p] + s[p..];
    forall x
      ensures x in s[..p] + [e] + s[p..] <==> x in s || x == e
    {
      assert x in s[..p] + [e] + s[p..] <==> x in multiset(s[..p] + [e] + s[p..]);
      assert x in s <==> x in multiset(s);
    }
  }
}
