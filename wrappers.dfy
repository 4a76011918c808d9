/** Stand-ins for Java's nullable references and thrown exceptions. */
module Wrappers {

  /** A value that may be absent (a Java reference that may be null). */
  datatype Option<+T> = None | Some(value: T)

  /** Either a normal completion or an exception that escaped. */
  datatype Result<+T, +E> = Ok(value: T) | Err(error: E)

  /** Completion of a validation step: it passed, or it failed with a message. */
  datatype Outcome<+E> = Pass | Fail(error: E)
}
