/** Option and Result values for the service's "may be absent" and "may fail" outcomes. */
module Wrappers {
  datatype Option<+T> = None | Some(value: T)

  datatype Result<+R, +E> = Success(value: R) | Failure(error: E)
}
