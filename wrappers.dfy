/**
 * Option and Result, the shapes of Rust's `Option<T>` and `Result<T, String>`,
 * and Outcome, a call that either returns or panics.
 */
module Wrappers {

  datatype Option<+T> = None | Some(value: T) {
    /** `Option::unwrap_or`: the held value, or `default` when there is none. */
    function GetOr(default: T): T {
      match this
      case Some(v) => v
      case None => default
    }
  }

  datatype Result<+T, +E> = Success(value: T) | Failure(error: E)

  /** How a call ends: it returns a value, or it panics and returns nothing. */
  datatype Outcome<+T> = Returned(value: T) | Panicked
}
