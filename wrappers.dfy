/** Failure-carrying values standing in for the exceptions the JavaScript code throws. */
module Wrappers {

  datatype Option<+T> = None | Some(value: T)

  /** The value an operation returns, or the error it throws. */
  datatype Result<+T, +E> = Success(value: T) | Failure(error: E)

  /** Whether an operation that returns nothing completed or threw. */
  datatype Outcome<+E> = Pass | Fail(error: E)

  /** What an operation that only stores the value of `r` returns or throws. */
  function Thrown<T, E>(r: Result<T, E>): Outcome<E> {
    if r.Success? then Pass else Fail(r.error)
  }
}
