/** Failure-compatible wrappers used across the model: an optional value
    (a JavaScript `null`/`undefined` or `NaN`) and a success-or-error result
    (a thrown `Error`). */
module Wrappers {

  datatype Option<+T> = None | Some(value: T)

  datatype Result<+T, +E> = Success(value: T) | Failure(error: E)
}
