/** What a view of the REST API hands back to the framework: either a response
    it builds itself, or an exception it raises. The framework turns the
    exceptions that are API exceptions (permission denied, not found, request
    validation) into responses of their own status code; any other exception
    escapes to the server as an unhandled error. */
module Http {

  datatype Option<T> = None | Some(value: T) {
    function GetOr(default: T): (r: T)
      ensures Some? ==> r == value
      ensures None? ==> r == default
    {
      match this
      case Some(v) => v
      case None => default
    }
  }

  const HTTP_200_OK: int := 200
  const HTTP_201_CREATED: int := 201
  const HTTP_400_BAD_REQUEST: int := 400
  const HTTP_403_FORBIDDEN: int := 403
  const HTTP_404_NOT_FOUND: int := 404
  const HTTP_500_INTERNAL_SERVER_ERROR: int := 500

  /** The JSON bodies the views build; each constructor names the key the
      body carries ({"detail": ..}, {"message": ..}, {"error": ..},
      {"status": .., "message": ..}). */
  datatype Body =
    | Detail(detail: string)
    | Message(message: string)
    | ErrorReport(error: string)
    | StatusReport(status: string, errorMessage: Option<string>)

  datatype Response = Response(code: int, body: Body)

  /** Exceptions leaving a view. `Uncaught` names an exception that is not an
      API exception (a KeyError, a database integrity error, ...). */
  datatype ApiException =
    | ValidationError
    | PermissionDenied(detail: string)
    | NotFound(detail: string)
    | Uncaught(name: string)

  datatype Outcome = Respond(response: Response) | Raise(exception: ApiException)

  /** The result of calling a collaborator that either returns or raises. */
  datatype Call<T> = Returned(value: T) | Raised(exception: ApiException)

  /** The status code the client sees; None when the exception is not an API
      exception and reaches the server's own error handling. */
  function StatusCode(o: Outcome): (code: Option<int>)
    ensures o.Respond? ==> code == Some(o.response.code)
    ensures o.Raise? && o.exception.Uncaught? <==> code.None?
    ensures o.Raise? && o.exception.PermissionDenied? ==> code == Some(HTTP_403_FORBIDDEN)
    ensures o.Raise? && o.exception.NotFound? ==> code == Some(HTTP_404_NOT_FOUND)
    ensures o.Raise? && o.exception.ValidationError? ==> code == Some(HTTP_400_BAD_REQUEST)
  {
    match o
    case Respond(r) => Some(r.code)
    case Raise(ValidationError) => Some(HTTP_400_BAD_REQUEST)
    case Raise(PermissionDenied(_)) => Some(HTTP_403_FORBIDDEN)
    case Raise(NotFound(_)) => Some(HTTP_404_NOT_FOUND)
    case Raise(Uncaught(_)) => None
  }
}
