/** Option and Result, shared by the whole model. */
module Wrappers {

  /** An optional value, used for a response header that may be absent. */
  datatype Option<+T> = None | Some(value: T)

  /** The outcome of an operation that the library either resolves or rejects
      (a settled promise) or that returns or throws (a synchronous call). */
  datatype Result<+R, +E> = Success(value: R) | Failure(error: E)
}
