/** Option and Result, the two failure-carrying wrappers the model uses for Swift optionals and throwing calls. */
module Wrappers {

  /** A Swift optional: `nil` is None. */
  datatype Option<+T> = None | Some(value: T)

  /** The outcome of a throwing call: the returned value or the thrown error's description. */
  datatype Result<+R, +E> = Success(value: R) | Failure(error: E)
}
