/** Option and Result values shared by the modules of this model. */
module Wrappers {

  /** A value that may be absent (`null` / `undefined` in the program). */
  datatype Option<+T> = None | Some(value: T)

  /** The outcome of a call that may throw: a value, or the text of the thrown error. */
  datatype Result<+T, +E> = Ok(value: T) | Err(error: E)
}
