// Result and option values shared by every module of the model.
module Wrappers {
  datatype Option<T> = None | Some(value: T)

  /** The outcome of an operation that returns a value or an error message
      (Go's `(T, error)` pair, Python's raised exception). */
  datatype Result<T> = Success(value: T) | Failure(error: string)
}
