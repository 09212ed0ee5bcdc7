/** Optional values (the Go pointers that may be nil) and error-or-value results. */
module Wrappers {

  /** A Go pointer: `None` is nil, `Some(v)` points at `v`. */
  datatype Option<+T> = None | Some(value: T)

  /** A Go `(value, error)` pair in which exactly one side is meaningful. */
  datatype Result<+T, +E> = Ok(value: T) | Err(error: E)
}
