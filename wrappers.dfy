/** Option, Result and Outcome: the shapes of null, of a value-or-exception and of a void-or-exception. */
module Wrappers {

  /** A possibly absent value; `None` stands for Java's `null`. */
  datatype Option<+T> = None | Some(value: T) {
    function GetOr(default: T): T {
      match this
      case Some(v) => v
      case None => default
    }
  }

  /** The result of a call that either returns a value or throws. */
  datatype Result<+T, +E> = Success(value: T) | Failure(error: E)

  /** The result of a `void` call that may throw. */
  datatype Outcome<+E> = Pass | Fail(error: E)
}
