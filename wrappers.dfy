/** Optional values and results-with-error used throughout the model. A Java
    `Optional` or nullable reference becomes an `Option`; a service call that
    either returns or throws becomes a `Result`. */
module Wrappers {

  datatype Option<T> = None | Some(value: T)

  datatype Result<T, E> = Success(value: T) | Failure(error: E)
}
