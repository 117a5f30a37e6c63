/** Optional values and results with an error, as the model's stand-ins for a nullable
    return and for a constructor that throws. */
module Wrappers {

  datatype Option<+T> = None | Some(value: T)

  datatype Result<+T, +E> = Ok(value: T) | Err(error: E)
}
