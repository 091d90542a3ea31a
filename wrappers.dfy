/** Optional values and results with an error, used for absent JavaScript values
    and for HTTP error responses. */
module Wrappers {
  datatype Option<T> = None | Some(value: T)

  datatype Result<T, E> = Success(value: T) | Failure(error: E)

  /** The HTTP statuses the route handlers answer with. */
  datatype Status = BadRequest | NotFound | ServerError {
    function Code(): (c: int)
      ensures 400 <= c < 600
    {
      match this
      case BadRequest => 400
      case NotFound => 404
      case ServerError => 500
    }
  }
}
