/** Failure-compatible results shared by every model in the project. */
module Outcomes {

  datatype Option<+T> = None | Some(value: T)

  /** `Refused` carries the error code the source throws. */
  datatype Result<+T, +E> = Done(value: T) | Refused(error: E) {
    predicate IsFailure() {
      Refused?
    }

    function PropagateFailure<U>(): Result<U, E>
      requires Refused?
    {
      Refused(error)
    }

    function Extract(): T
      requires Done?
    {
      value
    }
  }
}
