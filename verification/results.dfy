/** Failure-compatible wrappers shared by the model: an optional value and a
    value-or-error result. */
module Results {

  datatype Option<+T> = None | Some(value: T)

  datatype Result<+T, +E> = Success(value: T) | Failure(error: E)
}
