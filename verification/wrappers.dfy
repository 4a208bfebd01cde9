/** Small failure-carrying datatypes shared by the diagnose model. */
module Wrappers {

  /** An optional value; `None` stands for Go's nil error or nil pointer. */
  datatype Option<+T> = None | Some(value: T)

  /** A value or an error; models Go's `(T, error)` pair when exactly one side is meaningful. */
  datatype Result<+T, +E> = Success(value: T) | Failure(error: E)
}
