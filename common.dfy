/** Value types shared by the client and the backend models. */
module Common {

  /** `null`/`undefined`/`None` versus a present value. */
  datatype Option<+T> = None | Some(value: T)

  /** A value or the error that replaced it. */
  datatype Result<+T, +E> = Ok(value: T) | Err(error: E)

  /** The `response` part of an axios error: HTTP status and the body's `detail` field. */
  datatype ErrorResponse = ErrorResponse(status: int, detail: Option<string>)

  /** An axios error: `error.response` (absent on a network failure) and `error.message`. */
  datatype HttpError = HttpError(response: Option<ErrorResponse>, message: string)

  /** What an awaited `api.get`/`api.post` gives its caller: the response body, or the rejection. */
  datatype Outcome<+T> = Success(data: T) | Failure(error: HttpError)

  /** A FastAPI `HTTPException(status_code=..., detail=...)`. */
  datatype HttpException = HttpException(status: int, detail: string)

  /** JavaScript truthiness of an optional string: present and non-empty. */
  predicate Truthy(s: Option<string>)
  {
    s.Some? && s.value != ""
  }

  /** `x || null` on a string-valued input field: an empty string is sent as `null`. */
  function NullIfEmpty(s: string): (r: Option<string>)
    ensures r.None? <==> s == ""
    ensures r.Some? ==> r.value == s
  {
    if s == "" then None else Some(s)
  }
}
