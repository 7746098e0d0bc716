/** What the other modules share: an optional value, a failure-compatible result, and a fact about lists. */
module Wrappers {

  datatype Option<+T> = None | Some(value: T)

  datatype Result<+T, +E> = Success(value: T) | Failure(error: E) {
    predicate IsFailure() {
      Failure?
    }

    function PropagateFailure<U>(): Result<U, E>
      requires Failure?
    {
      Failure(error)
    }

    function Extract(): T
      requires Success?
    {
      value
    }
  }

  /** Lists of the same elements are empty together. */
  lemma BothEmpty<T>(a: seq<T>, b: seq<T>)
    requires forall x :: x in a <==> x in b
    ensures a == [] <==> b == []
  {
    assert (a != [] ==> a[0] in a) && (b != [] ==> b[0] in b);
  }
}

/** The identifiers of rows whose making does not matter. */
module RowIds {

  type Id = string
}

/** Strings of bytes. */
module Octets {

  type Byte = x: int | 0 <= x < 256

  type Bytes = seq<Byte>
}
