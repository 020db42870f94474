/** Failure-compatible wrappers used across the model: a nullable value and a
    value-or-error result (the error side stands for a raised Python exception). */
module Wrappers {

  datatype Option<+T> = None | Some(value: T)

  datatype Result<+R, +E> = Success(value: R) | Failure(error: E)
}
