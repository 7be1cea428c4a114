/** Failure-carrying wrappers: Go's nilable `error` becomes an Option, and a
    call that returns either a value or an error becomes a Result. */
module Wrappers {

  datatype Option<+T> = None | Some(value: T)

  datatype Result<+R, +E> = Success(value: R) | Failure(error: E)
}
