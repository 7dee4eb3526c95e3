/** Option, and the failure-compatible Result that stands for "returns or raises". */
module Wrappers {

  /** Equality of two values as wholes. Frame conditions use it so that it is not taken apart field by field. */
  ghost predicate Same<T>(a: T, b: T) {
    a == b
  }

  datatype Option<+T> = None | Some(value: T) {
    function GetOr(default: T): T {
      if Some? then value else default
    }
  }

  datatype Result<+T, +E> = Success(value: T) | Failure(error: E) {

    predicate IsFailure() {
      Failure?
    }

    function PropagateFailure<U>(): Result<U, E>
      requires Failure?
    {
      Failure(error)
    }

    function Extract(): T
      requires Success?
    {
      value
    }
  }
}
