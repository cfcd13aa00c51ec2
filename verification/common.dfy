/** Failure-carrying wrappers shared by the proxy and group modules. */
module Common {

  /** An optional value; `None` stands for Go's nil or "absent". */
  datatype Option<+T> = None | Some(value: T)

  /** The (value, error) pair of a Go call that either succeeds or fails. */
  datatype Result<+T, +E> = Success(value: T) | Failure(error: E)
}
