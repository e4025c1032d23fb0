/** Option and Result values used for optional JSON keys and for the error
    paths of the server and the form. */
module Wrappers {

  datatype Option<+T> = None | Some(value: T)

  datatype Result<+R, +E> = Success(value: R) | Failure(error: E)

  /** Pass, or fail with an error: a check that returns nothing on success. */
  datatype Outcome<+E> = Pass | Fail(error: E)
}
