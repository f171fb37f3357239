/** Failure-carrying values shared by every module of the model. */
module Wrappers {

  /** A JavaScript `undefined`/`null`-able value, or a Python `None`-able one. */
  datatype Option<+T> = None | Some(value: T) {
    function GetOr(default: T): T {
      match this
      case Some(v) => v
      case None => default
    }
  }

  /** The outcome of an operation that either yields a value or throws an error
      carrying a human-readable message (a JavaScript `Error` or an HTTP error). */
  datatype Result<+T, +E> = Success(value: T) | Failure(error: E)

  /** A validation verdict: accepted, or rejected with the message shown to the user. */
  datatype Verdict = Accepted | Rejected(message: string)
}
