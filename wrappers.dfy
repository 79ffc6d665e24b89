/** Failure-compatible wrappers used for Go's `(value, error)` returns and nil slices. */
module Wrappers {

  /** `None` stands for Go's nil (a nil error or a nil slice). */
  datatype Option<+T> = None | Some(value: T)

  /** A Go `(value, err)` pair in which exactly one half is meaningful. */
  datatype Result<+T, +E> = Ok(value: T) | Err(error: E)
}
