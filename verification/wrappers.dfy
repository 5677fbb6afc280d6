/** Failure-compatible result types shared by every module of the model. */
module Wrappers {

  /** An optional value: a decoded payload, a map entry, a pointer that may be nil. */
  datatype Option<+T> = None | Some(value: T)

  /** The Go `(value, error)` return pair: exactly one of the two is meaningful. */
  datatype Result<+T, +E> = Success(value: T) | Failure(error: E) {
    predicate IsFailure() {
      Failure?
    }

    function PropagateFailure<U>(): Result<U, E>
      requires Failure?
    {
      Failure(error)
    }

    function Extract(): T
      requires Success?
    {
      value
    }
  }
}
