/** Option and Result: JavaScript's `null`/`undefined` and thrown errors, as values. */
module Wrappers {

  /** An optional value: `None` stands for `null` or `undefined`. */
  datatype Option<+T> = None | Some(value: T)

  /** The outcome of an operation that may throw: `Err` carries what would be thrown. */
  datatype Result<+T, +E> = Ok(value: T) | Err(error: E)
}
