/** Failure-compatible wrappers shared by the whole model: `Option` for the
    source's nil-able pointer fields and `Result` for its `(value, error)`
    return pairs. */
module Wrappers {

  /** An optional value; `None` plays the role of a nil pointer. */
  datatype Option<+T> = None | Some(value: T) {

    predicate IsFailure() {
      None?
    }

    function PropagateFailure<U>(): Option<U>
      requires None?
    {
      None
    }

    function Extract(): T
      requires Some?
    {
      value
    }
  }

  /** Either a value or an error, never both; the Go `(T, error)` pair where
      exactly one side is meaningful. */
  datatype Result<+R, +E> = Success(value: R) | Failure(error: E) {

    predicate IsFailure() {
      Failure?
    }

    function PropagateFailure<U>(): Result<U, E>
      requires Failure?
    {
      Failure(error)
    }

    function Extract(): R
      requires Success?
    {
      value
    }
  }
}
