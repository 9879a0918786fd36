/** Failure-carrying datatypes: the model's stand-in for thrown exceptions. */
module Wrappers {

  /** A value that may be absent (an optional field, an unset variable). */
  datatype Option<+T> = None | Some(value: T)

  /** The value of a call that either returns or throws. */
  datatype Result<+T, +E> = Ok(value: T) | Err(error: E)

  /** The outcome of a call that returns nothing or throws. */
  datatype Outcome<+E> = Pass | Fail(error: E)
}
