/** An optional value and a value-or-error result. */
module Wrappers {

  /** An optional value; `None` stands for a missing or undefined field. */
  datatype Option<+T> = None | Some(value: T)

  /** Either a value or an error; the handlers' validation steps return one. */
  datatype Result<+R, +E> = Ok(value: R) | Err(error: E)
}
