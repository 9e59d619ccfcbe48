/** The application error and its HTTP rendering (`crates/configure/src/error/mod.rs`). */
module AppErrors {

  /**
   * `AppError`. A variant that wraps a foreign error carries that error's `Display` text.
   */
  datatype AppError =
    | DbError(cause: string)
    | ConfigReadError
    | NotFound
    | BadRequest(msg: string)
    | Unauthorized(msg: string)
    | IoError(cause: string)
    | SerdeError(cause: string)
    | AddrParseError(cause: string)
    | Internal(cause: string)

  /** The text a variant carries: the wrapped error's text, the message, or nothing. */
  function Payload(e: AppError): string {
    match e
    case DbError(c) => c
    case BadRequest(m) => m
    case Unauthorized(m) => m
    case IoError(c) => c
    case SerdeError(c) => c
    case AddrParseError(c) => c
    case Internal(c) => c
    case _ => ""
  }

  /**
   * The `#[error(...)]` texts: a non-empty label followed by the variant's payload,
   * verbatim.
   */
  function Display(e: AppError): (s: string)
    ensures |s| > |Payload(e)|
    ensures s[|s| - |Payload(e)|..] == Payload(e)
  {
    match e
    case DbError(c) => "Database error: " + c
    case ConfigReadError => "Failed to read configuration file"
    case NotFound => "Not found"
    case BadRequest(m) => "Bad request: " + m
    case Unauthorized(m) => "Unauthorized error: " + m
    case IoError(c) => "IO error: " + c
    case SerdeError(c) => "Serialization/Deserialization error: " + c
    case AddrParseError(c) => "Address parse error: " + c
    case Internal(c) => "Internal error: " + c
  }

  const BadRequestStatus: int := 400
  const UnauthorizedStatus: int := 401
  const NotFoundStatus: int := 404
  const InternalServerErrorStatus: int := 500

  /** The variants that stand for a failure of the server, not of the request. */
  predicate IsServerFault(e: AppError) {
    e.DbError? || e.ConfigReadError? || e.IoError? || e.SerdeError? || e.AddrParseError? || e.Internal?
  }

  /** The JSON body `{code, message}`. */
  datatype ErrorBody = ErrorBody(code: int, message: string)

  /** An error response: its status and its JSON body. */
  datatype ErrorResponse = ErrorResponse(status: int, body: ErrorBody)

  /** `into_response`. */
  function IntoResponse(e: AppError): (r: ErrorResponse)
    ensures r.body.code == r.status
    ensures r.status in {BadRequestStatus, UnauthorizedStatus, NotFoundStatus, InternalServerErrorStatus}
    ensures r.status == NotFoundStatus <==> e.NotFound?
    ensures r.status == BadRequestStatus <==> e.BadRequest?
    ensures r.status == UnauthorizedStatus <==> e.Unauthorized?
    ensures r.status == InternalServerErrorStatus <==> IsServerFault(e)
    ensures e.BadRequest? || e.Unauthorized? ==> r.body.message == e.msg
    ensures !(e.BadRequest? || e.Unauthorized?) ==> r.body.message == Display(e)
  {
    var (status, message) :=
      match e
      case DbError(_) => (InternalServerErrorStatus, Display(e))
      case ConfigReadError => (InternalServerErrorStatus, Display(e))
      case NotFound => (NotFoundStatus, Display(e))
      case BadRequest(msg) => (BadRequestStatus, msg)
      case Unauthorized(msg) => (UnauthorizedStatus, msg)
      case Internal(_) => (InternalServerErrorStatus, Display(e))
      case IoError(_) => (InternalServerErrorStatus, Display(e))
      case SerdeError(_) => (InternalServerErrorStatus, Display(e))
      case AddrParseError(_) => (InternalServerErrorStatus, Display(e));
    ErrorResponse(status, ErrorBody(status, message))
  }

  /**
   * A bad request answers with the bare message: the response drops the `Bad request: `
   * prefix that `Display` adds; likewise for `Unauthorized`.
   */
  lemma ClientMessagesAreBare(m: string)
    ensures Display(BadRequest(m)) == "Bad request: " + m
    ensures IntoResponse(BadRequest(m)).body.message == m
    ensures Display(Unauthorized(m)) == "Unauthorized error: " + m
    ensures IntoResponse(Unauthorized(m)).body.message == m
  {
  }

  /** Fixed texts: `NotFound` and `ConfigReadError`. */
  lemma FixedMessages()
    ensures IntoResponse(NotFound) == ErrorResponse(NotFoundStatus, ErrorBody(NotFoundStatus, "Not found"))
    ensures IntoResponse(ConfigReadError) == ErrorResponse(InternalServerErrorStatus,
              ErrorBody(InternalServerErrorStatus, "Failed to read configuration file"))
  {
  }
}
