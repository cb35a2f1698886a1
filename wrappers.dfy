/** Failure-carrying values shared by the whole model: Go's `(value, error)` pairs
    become a Result, Go's "absent" answers become an Option. */
module Wrappers {

  datatype Option<T> = None | Some(value: T)

  datatype Result<T, E> = Success(value: T) | Failure(error: E)
}
