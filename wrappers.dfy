/** Option, Result and Outcome datatypes shared by the other modules. */
module Wrappers {

  /** Python's `None` or a present value. */
  datatype Option<+T> = None | Some(value: T)

  /** A value or the message of the exception that was raised instead. */
  datatype Result<+T> = Ok(value: T) | Err(error: string)

  /** The outcome of a statement that returns nothing but may raise. */
  datatype Outcome = Pass | Fail(error: string)
}
