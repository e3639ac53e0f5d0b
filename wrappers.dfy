/** Option and Result, the optional value and the value-or-error used throughout. */
module Wrappers {

  /** Some value, or nothing (a JavaScript `null`/`undefined` returned on purpose). */
  datatype Option<+T> = None | Some(value: T)

  /** The outcome of an operation that may throw. */
  datatype Result<+T, +E> = Ok(value: T) | Err(error: E)
}
