/** Failure-carrying wrappers used across the model: an optional value for a
    lookup that may find nothing, and a result for a pipeline that may fail. */
module Optional {

  /** A value that may be absent, e.g. the price of a day with no bar. */
  datatype Option<+T> = None | Some(value: T)

  /** The outcome of a computation that either succeeds with a value or fails
      with an error. */
  datatype Result<+T, +E> = Ok(value: T) | Err(error: E)
}
