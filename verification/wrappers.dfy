/** Option and Result, the two wrappers the rest of the model uses for
    "absent" arguments and for the errors a resolver throws. */
module Wrappers {

  datatype Option<+T> = None | Some(value: T)

  datatype Result<+R, +E> = Success(value: R) | Failure(error: E)
}
