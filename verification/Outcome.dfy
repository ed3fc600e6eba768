/** Failure-carrying results shared by the whole model: an exception of the
    source becomes an `Err`, a missing value becomes a `None`. */
module Outcome {

  datatype Option<+T> = None | Some(value: T)

  datatype Result<+T, +E> = Ok(value: T) | Err(error: E)
}
