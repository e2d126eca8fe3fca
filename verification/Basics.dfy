/** Small vocabulary shared by the component modules. */
module Basics {

  newtype byte = k: int | 0 <= k < 256
  type Bytes = seq<byte>

  datatype Option<+T> = None | Some(value: T)
  datatype Result<+T, +E> = Ok(value: T) | Raise(error: E)

  /** A function that never maps two inputs to one output. SHA-256 and the JSON
      printer enter the model as function parameters; where a result needs them to
      be collision free, this predicate is a stated hypothesis of that result. */
  ghost predicate Injective<A(!new), B(!new)>(f: A -> B) {
    forall x, y :: f(x) == f(y) ==> x == y
  }

  /** Two concatenations that agree, cut at the same length, agree part by part. */
  lemma Split<T>(a: seq<T>, x: seq<T>, b: seq<T>, y: seq<T>)
    requires a + x == b + y && |a| == |b|
    ensures a == b && x == y
  {
    assert a == (a + x)[..|a|] && b == (b + y)[..|b|];
    assert x == (a + x)[|a|..] && y == (b + y)[|b|..];
  }
}
