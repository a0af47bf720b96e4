/** The datatypes the document builders use for absence and failure: Option
    stands for a nullable reference, Result and Outcome for an operation
    that may throw. */
module Wrappers {

  /** A value that may be absent (a C# null). */
  datatype Option<+T> = None | Some(value: T)

  /** A value, or the error an operation raised instead. */
  datatype Result<+T, +E> = Ok(value: T) | Err(error: E)

  /** The result of a check that returns nothing when it succeeds. */
  datatype Outcome<+E> = Pass | Fail(error: E)
}
