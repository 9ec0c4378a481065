/** Success/failure values standing for the exceptions the C# wrappers throw. */
module Wrappers {

  /** The value a call returns, or the exception it throws instead. */
  datatype Result<T, E> = Success(value: T) | Failure(error: E)

  /** The outcome of a call that returns nothing: it completes, or throws. */
  datatype Outcome<E> = Pass | Fail(error: E)
}
