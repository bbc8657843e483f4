/** Absent-or-present values and success-or-error results, used for the shop's
    rental records and for the outcome of returning cars. */
module Wrappers {

  datatype Option<+T> = None | Some(value: T)

  datatype Result<+R, +E> = Success(value: R) | Failure(error: E)
}
