/** The wrappers used throughout the model: an optional value (the
    repository's "webinar or absent") and a success-or-failure result (a use
    case either returns its value or throws one of its exceptions). */
module Results {

  datatype Option<+T> = None | Some(value: T)

  datatype Result<+T, +E> = Ok(value: T) | Err(error: E)
}
