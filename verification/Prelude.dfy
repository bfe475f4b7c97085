/** Small shared vocabulary: optional values and results. */
module Prelude {
  /** A value that may be absent (the source's `undefined`). */
  datatype Option<+T> = None | Some(value: T)

  /** A value or the error that the source throws or rejects with. */
  datatype Result<+T, +E> = Ok(value: T) | Err(error: E)
}
