/** Option, Result and Outcome: the model's stand-ins for Java's null, for
    values-or-exceptions and for void-or-exception. */
module Wrappers {

  /** A value that may be absent (a Java reference that may be null). */
  datatype Option<+T> = None | Some(value: T)

  /** A value, or the exception that was raised instead of returning it. */
  datatype Result<+T, +E> = Success(value: T) | Failure(error: E)

  /** A `void` call that either returns normally or raises an exception. */
  datatype Outcome<+E> = Pass | Fail(error: E)
}
