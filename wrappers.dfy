/** Failure-carrying results: Option for lookups and parses that may fail,
    Result for operations that abort with an error in the source. */
module Wrappers {
  datatype Option<+T> = None | Some(value: T)

  datatype Result<+T, +E> = Success(value: T) | Failure(error: E)
}
