/** Optional values and success-or-failure results, used where the source
    returns nil maps, error values or panics. */
module Wrappers {

  /** A value that may be absent, as a nil map is in the source. */
  datatype Option<+T> = None | Some(value: T)

  /** Either a value or an error describing why it could not be produced. */
  datatype Result<+T, +E> = Success(value: T) | Failure(error: E)
}
