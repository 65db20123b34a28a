/** Small value types shared by every module of the model. */
module Base {

  /** A value that may be absent (a JavaScript `undefined`, a Python `None`, a missing key). */
  datatype Option<T> = None | Some(value: T) {
    function GetOr(default: T): T {
      match this
      case Some(v) => v
      case None => default
    }
  }

  /** Either a value or an error. */
  datatype Result<T, E> = Ok(value: T) | Err(error: E)

  /** A FastAPI `HTTPException` as it reaches the client: a status code and a `detail` text. */
  datatype HttpError = HttpError(statusCode: nat, detail: string)
}
