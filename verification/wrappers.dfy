/** Failure-compatible wrappers shared by the risk-scoring modules. */
module Wrappers {

  /** An optional value, used for a JSON field that may be absent. */
  datatype Option<+T> = None | Some(value: T)

  /** Either a computed value or the error the route handler would throw. */
  datatype Result<+R, +E> = Success(value: R) | Failure(error: E) {
    predicate IsFailure() {
      Failure?
    }

    function PropagateFailure<U>(): Result<U, E>
      requires Failure?
    {
      Failure(error)
    }

    function Extract(): R
      requires Success?
    {
      value
    }
  }
}
