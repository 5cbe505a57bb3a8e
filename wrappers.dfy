/** Failure-carrying values standing in for the exceptions the source raises. */
module Wrappers {

  datatype Option<+T> = None | Some(value: T)

  /** A backend answer: a value, or the text of the exception it raised. */
  datatype Result<+R, +E> = Success(value: R) | Failure(error: E)

  /** A call that returns nothing: it either completes or raises `error`. */
  datatype Outcome<+E> = Pass | Fail(error: E)

  /** Appending to a sequence in two steps is appending once. */
  lemma AppendAssoc<T>(a: seq<T>, b: seq<T>, c: seq<T>)
    ensures (a + b) + c == a + (b + c)
  {
  }
}
