/** Small failure-carrying datatypes shared by the modules of this model. */
module Wrappers {

  /** A value that may be missing, like JavaScript's `null` / `undefined`. */
  datatype Option<T> = None | Some(value: T)

  /** The outcome of a check: the checked value, or an error. */
  datatype Result<T, E> = Ok(value: T) | Err(error: E)
}
