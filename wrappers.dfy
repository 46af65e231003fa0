/** Option and Result values standing for JavaScript's null/undefined and for thrown errors. */
module Wrappers {

  /** A value that may be absent (`null` or `undefined` in the source). */
  datatype Option<+T> = None | Some(value: T)

  /** The outcome of a computation that may throw: `Err` carries what would have been thrown. */
  datatype Result<+T, +E> = Ok(value: T) | Err(error: E)
}
