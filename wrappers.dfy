/** Failure-carrying results: `Option` for an absent value (numpy's NaN, a function that
    returns nothing) and `Result` for an operation that raises an error. */
module Wrappers {

  datatype Option<+T> = None | Some(value: T)

  datatype Result<+T, +E> = Success(value: T) | Failure(error: E)
}
