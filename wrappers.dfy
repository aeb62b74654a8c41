/** Option and Result: the error paths of the model (a shape that does not fit,
    an unknown model name, a keyword Python rejects). */
module Wrappers {

  datatype Option<+T> = None | Some(value: T)

  datatype Result<+R, +E> = Success(value: R) | Failure(error: E)
}
