/** Present/absent and success/failure values, used at every lookup boundary
    in place of Java's null, Guava's Optional and thrown exceptions. */
module Wrappers {

  datatype Option<+T> = None | Some(value: T)

  datatype Result<+R, +E> = Success(value: R) | Failure(error: E)
}
