/** Failure-carrying result types shared by the dashboard modules. */
module Wrappers {

  /** A value that may be absent, as an optional property is in the page's props. */
  datatype Option<+T> = None | Some(value: T)

  /** Either a computed value or the reason it could not be computed. */
  datatype Result<+R, +E> = Success(value: R) | Failure(error: E)
}
