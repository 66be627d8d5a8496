/** Option and Result, the shapes that Go's `(value, error)` pairs and nil results take here. */
module Wrappers {

  datatype Option<+T> = None | Some(value: T)

  datatype Result<+T, +E> = Success(value: T) | Failure(error: E)
}
