/** Option and Result values used across the model. */
module Wrappers {

  /** An optional value: `undefined` / `null` in the source is None. */
  datatype Option<+T> = None | Some(value: T)

  /** The outcome of an operation that may throw: the thrown error keeps its message. */
  datatype Result<+T> = Ok(value: T) | Err(message: string)
}
