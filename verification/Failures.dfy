/** The two failures an EventPlayer reports to its caller, and the
    success/failure wrappers its operations return. */
module Failures {

  /** Error raised by EventPlayer. `IllegalState` stands for the
      IllegalStateException thrown by `play`, `IllegalArgument` for the
      IllegalArgumentException thrown by `removeStoppedListener`. */
  datatype PlayerError =
    | IllegalState(message: string)
    | IllegalArgument(message: string)

  /** Message of the exception thrown when a stopped player is played again. */
  const CannotRestart: PlayerError :=
    IllegalState("Cannot restart player after it has been stopped.")

  /** Message of the exception thrown when removing a listener that is not registered. */
  const NeverAdded: PlayerError :=
    IllegalArgument("The listener to be removed was never added.")

  /** Result of an operation that yields a value or fails. */
  datatype Result<+T> = Success(value: T) | Failure(error: PlayerError)

  /** Result of an operation that yields nothing or fails. */
  datatype Outcome = Pass | Fail(error: PlayerError)

  /** Stand-in for a Java reference that may be null. */
  datatype Option<+T> = None | Some(value: T)
}
