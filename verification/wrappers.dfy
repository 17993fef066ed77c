/** The Option, Result and Outcome datatypes shared by the register model and the driver. */
module Wrappers {

  datatype Option<+T> = None | Some(value: T)

  /** The outcome of a fallible operation: a value, or the error it failed with. */
  datatype Result<+T, +E> = Ok(value: T) | Err(error: E)

  /** The outcome of a fallible operation that returns nothing: success, or the error it failed with. */
  datatype Outcome<+E> = Pass | Fail(error: E)
}
