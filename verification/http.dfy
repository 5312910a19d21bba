/** What a request handler hands to the web framework: a value to serialise,
    an `HTTPException` carrying a status code and a detail, or any other
    exception, which the framework passes to the application's catch-all
    handler. */
module Http {
  import opened Errors

  const StatusOk: int := 200
  const StatusBadRequest: int := 400
  const StatusUnprocessable: int := 422
  const StatusInternalError: int := 500

  datatype HttpException = HttpException(statusCode: int, detail: string)

  datatype EndpointResult<+T> = Returned(value: T) | RaisedHttp(http: HttpException) | RaisedOther(exc: Exc)

  /** The `except K as e: 400, str(e)` / `except Exception: 500, fixed detail`
      pair every endpoint ends with. */
  function ToHttpException(kind: ExcKind, failureDetail: string, e: Exc): (h: HttpException)
    ensures h.statusCode == StatusBadRequest <==> e.kind == kind
    ensures h.statusCode in {StatusBadRequest, StatusInternalError}
    ensures h.statusCode == StatusBadRequest ==> h.detail == e.message
    ensures h.statusCode == StatusInternalError ==> h.detail == failureDetail
  {
    if e.kind == kind then HttpException(StatusBadRequest, e.message)
    else HttpException(StatusInternalError, failureDetail)
  }
}
