/**
 * The HTTP-facing outcome of a request handler or a dependency: either a value
 * or the `HTTPException` FastAPI turns into a response.
 */
module Http {

  /**
   * An error response: its status code, the `detail` string of its JSON body, and
   * whether it carries the header `WWW-Authenticate: Bearer`.
   */
  datatype HttpError = HttpError(status: int, detail: string, bearer: bool)

  datatype Result<+T> = Ok(value: T) | Err(error: HttpError)
}
