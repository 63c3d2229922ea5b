/** Option and Result, the stand-ins for java.util.Optional and for thrown exceptions. */
module Wrappers {

  datatype Option<+T> = None | Some(value: T)

  datatype Result<+R, +E> = Success(value: R) | Failure(error: E)
}
