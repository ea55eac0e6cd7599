/** Failure-carrying values used throughout the model: a Python call that may
    return `None` becomes an `Option`, one that may raise becomes a `Result`. */
module Results {

  datatype Option<+T> = None | Some(value: T)

  datatype Result<+R, +E> = Success(value: R) | Failure(error: E)
}
