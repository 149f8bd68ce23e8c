/** The `ApiError(statusCode, message)` values the service throws or passes to `next`,
    and the status codes of the `http-status-codes` package that it uses. */
module ApiErrors {

  const UNAUTHORIZED: int := 401
  const NOT_FOUND: int := 404
  const NOT_ACCEPTABLE: int := 406
  const CONFLICT: int := 409
  const GONE: int := 410

  datatype ApiError = ApiError(statusCode: int, message: string)

  /** The value a service call returns, or the `ApiError` it throws. */
  datatype Result<+T> = Ok(value: T) | Err(error: ApiError)
}
