/** Failure-carrying results shared by every module of the model. */
module Wrappers {

  /** A value that may be absent: a Go nil pointer, a missing map entry, an unset option. */
  datatype Option<+T> = None | Some(value: T)

  /** The Go pair (value, error): either a value or the error that replaced it. */
  datatype Result<+T, +E> = Success(value: T) | Failure(error: E) {
    predicate IsFailure() { Failure? }

    function PropagateFailure<U>(): Result<U, E>
      requires Failure?
    {
      Failure(error)
    }

    function Extract(): T
      requires Success?
    {
      value
    }
  }
}
