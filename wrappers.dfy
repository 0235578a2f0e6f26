/** Option and Result values for the source's `None` returns and caught exceptions. */
module Wrappers {

  datatype Option<+T> = None | Some(value: T)

  /** `Failure` carries the text of the exception the source would have raised. */
  datatype Result<+R> = Success(value: R) | Failure(error: string)
}
