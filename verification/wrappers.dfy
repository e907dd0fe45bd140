/** Optional values and results with an error, as used across the model
    (std::optional, and the places where the source throws). */
module Wrappers {

  datatype Option<+T> = None | Some(value: T)

  datatype Result<+T, +E> = Success(value: T) | Failure(error: E)
}
