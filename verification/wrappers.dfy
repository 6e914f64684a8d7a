/** Option and Result, the failure-carrying values the model uses for JavaScript's
    `null`/`undefined` results and for errors the source throws. */
module Wrappers {

  datatype Option<+T> = None | Some(value: T)

  datatype Result<+R, +E> = Success(value: R) | Failure(error: E)
}
