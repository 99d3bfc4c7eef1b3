/** Optional values and results with an error side, shared by every module. */
module Wrappers {

  /** A value that may be absent (Python `None`). */
  datatype Option<+T> = None | Some(value: T) {
    function GetOr(default: T): T {
      match this
      case Some(v) => v
      case None => default
    }
  }

  /** The outcome of an operation that can fail with a typed error. */
  datatype Result<+T, +E> = Ok(value: T) | Err(error: E)
}

/** The HTTP errors the endpoints raise, by status code. */
module Http {

  datatype ApiError =
    | BadRequest        // 400
    | Forbidden         // 403
    | NotFound          // 404
    | Unprocessable     // 422: request body rejected by a schema validator
    | ServerError       // 500: an exception the handler does not catch
}
