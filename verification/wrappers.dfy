/** Option and Result values shared by the whole model. */
module Wrappers {

  /** A value that may be absent: TypeScript's `T | null` (or an optional key). */
  datatype Option<+T> = None | Some(value: T)

  /** The outcome of an awaited call: the resolved value, or what was thrown. */
  datatype Result<+T, +E> = Ok(value: T) | Err(error: E)
}
