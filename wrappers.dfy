/** Optional values and results with an error, used wherever the pipeline
    either produces a value or degrades/fails. */
module Wrappers {

  datatype Option<+T> = None | Some(value: T)

  datatype Result<+T, +E> = Success(value: T) | Failure(error: E)
}
