/**
  Values shared by every part of the model: optional values, results, the
  service's exception classes and the JSON values that requests and
  responses carry.
 */
module Common {

  datatype Option<+T> = None | Some(value: T) {
    function GetOr(default: T): T {
      match this
      case Some(v) => v
      case None => default
    }
  }

  datatype Result<+R, +E> = Success(value: R) | Failure(error: E)

  /** JavaScript truthiness of a value that is either absent or a string. */
  predicate Truthy(v: Option<string>) {
    v.Some? && v.value != ""
  }

  /** The application error classes the services throw (each an `AppError`). */
  datatype ErrorKind = ValidationError | NotFoundError | UnauthorizedError | ConflictError

  /** A thrown value: an application error, or a plain `Error` with a message. */
  datatype Exception =
    | AppError(kind: ErrorKind, message: string)
    | PlainError(message: string)

  /** The HTTP status each application error class carries. */
  function StatusCode(kind: ErrorKind): (code: int)
    ensures 400 <= code < 500
  {
    match kind
    case ValidationError => 400
    case UnauthorizedError => 401
    case NotFoundError => 404
    case ConflictError => 409
  }

  datatype Json =
    | JNull
    | JBool(b: bool)
    | JNumber(n: int)
    | JString(s: string)
    | JArray(items: seq<Json>)
    | JObject(fields: map<string, Json>)
}
