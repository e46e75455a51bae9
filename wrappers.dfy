/**
 * Failure-carrying values. `Option` stands for a Java reference that may be
 * null; `Result` stands for a call that may end in an exception.
 */
module Wrappers {

  datatype Option<+T> = None | Some(value: T) {

    /** The value, or `default` when absent (Java's `Optional.orElse`). */
    function GetOr(default: T): T {
      match this
      case Some(v) => v
      case None => default
    }
  }

  datatype Result<+T, +E> = Success(value: T) | Failure(error: E)

  /** The outcome of a call that returns nothing: it either completes or throws. */
  datatype Outcome<+E> = Pass | Fail(error: E)
}
