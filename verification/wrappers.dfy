/** Result types used throughout the model: `None` stands for a Java
    `null`, `Fail`/`Err` for an exception that leaves the operation. */
module Wrappers {

  datatype Option<+T> = None | Some(value: T)

  /** The outcome of a Java `void` method that may throw. */
  datatype Outcome<+E> = Pass | Fail(error: E)

  /** The outcome of a Java method that returns a value or throws. */
  datatype Result<+T, +E> = Ok(value: T) | Err(error: E)
}
