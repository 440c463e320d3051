/** The exceptions the services throw, and the two ways a call can end. */
module Outcomes {

  datatype Error =
    | NotFound             // firstOrFail found no row
    | InsufficientStock
    | SerializedStock      // a serialized variant was adjusted by hand
    | InvalidArgument
    | InvalidState
    | InvalidTransition
    | DuplicateReference   // a unique index rejected the row

  datatype Option<+T> = None | Some(value: T)

  /** A transaction that either commits a value or rolls back with an exception. */
  datatype Result<+T> = Success(value: T) | Failure(error: Error) {

    predicate IsFailure() {
      Failure?
    }

    function PropagateFailure<U>(): (r: Result<U>)
      requires Failure?
    {
      Failure(error)
    }

    function Extract(): T
      requires Success?
    {
      value
    }
  }

  /** How a method call ended; the new state is in the fields it modified. */
  datatype Outcome = Done | Thrown(error: Error)
}
