/** Option and Result, used for the error paths of the modelled Python code
    (a raised exception becomes a `Failure`). */
module Wrappers {

  datatype Option<+T> = None | Some(value: T)

  datatype Result<+R, +E> = Success(value: R) | Failure(error: E)
}
