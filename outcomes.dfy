/** Exceptions of the state machine, written as values.

    The library signals failure by throwing .NET exceptions. Each call that can
    throw returns one of the datatypes below instead, so that a contract can say
    exactly when a call fails and what it leaves behind.
 */
module Outcomes {

  /** A nullable reference or an optional value. */
  datatype Option<+V> = None | Some(value: V)

  /** The exception kinds the core raises. */
  datatype Exception =
    | InvalidOperation   // InvalidOperationException: unhandled trigger, duplicate trigger parameters
    | ArgumentNull       // ArgumentNullException: a null argument where one is required
    | ArgumentMismatch   // ArgumentException: fired arguments do not fit the registered types

  /** The outcome of a call that returns nothing. */
  datatype Outcome = Ok | Throws(exception: Exception)

  /** The outcome of a call that returns a value. */
  datatype Result<+V> = Returns(value: V) | Raises(exception: Exception)
}
