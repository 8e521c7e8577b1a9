/** Option values and the HTTP-style error results the routers raise. */
module Wrappers {

  datatype Option<+T> = None | Some(value: T)

  /** An `HTTPException` as the routers raise it: a status code and a detail text. */
  datatype HttpError = HttpError(status: int, detail: string)

  datatype Result<+T> = Ok(value: T) | Err(error: HttpError)
}
