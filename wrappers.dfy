/** Option and Result, the two failure-carrying wrappers the model uses for Ruby's `nil`
    and for the points where the script aborts with an exception. */
module Wrappers {

  datatype Option<+T> = None | Some(value: T)

  datatype Result<+R, +E> = Success(value: R) | Failure(error: E)
}
