/** Small failure-carrying datatypes shared by the other modules. */
module Wrappers {

  /** A value that may be absent. */
  datatype Option<+T> = None | Some(value: T)

  /** Either a value or an error, as Go's `(value, err)` pairs. */
  datatype Result<+T, +E> = Success(value: T) | Failure(error: E)
}
