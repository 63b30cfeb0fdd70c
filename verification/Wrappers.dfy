/** Failure-compatible values shared by the whole model. */
module Wrappers {

  datatype Option<+T> = None | Some(value: T)

  /** A transaction body either commits with a value or throws and is rolled back. */
  datatype Result<+T> = Success(value: T) | Failure(error: Error) {

    predicate IsFailure() {
      Failure?
    }

    function PropagateFailure<U>(): Result<U>
      requires Failure?
    {
      Failure(error)
    }

    function Extract(): T
      requires Success?
    {
      value
    }
  }

  /** The errors that the service throws, without their message texts. */
  datatype Error =
    | BadRequest
    | NotFound
    | InsufficientBalance
    | InvalidAmount
    | InvalidTransition
    | UniqueViolation
    | BalanceMissing
}
