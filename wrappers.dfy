/** Option and Result values, used wherever the program has `undefined`, `null`
    or a thrown error in place of a value. */
module Wrappers {

  datatype Option<+T> = None | Some(value: T)

  datatype Result<+R, +E> = Success(value: R) | Failure(error: E)
}
