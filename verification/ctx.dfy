/**
 * The request-scoped identity (`crates/middleware/src/ctx.rs`): `LoginUser` and its
 * extractor, the only place a request is refused for want of a valid token.
 */
module Ctx {
  import opened Results
  import opened Ints
  import opened Http
  import AppErrors

  /** The identity a verified token yields. */
  datatype LoginUser = LoginUser(userId: string, username: string, exp: I64)

  /**
   * A request as the middleware and the handlers see it. Of the type-keyed extension
   * map only the `LoginUser` slot is modelled.
   */
  datatype Request = Request(
    verb: string,
    uri: string,
    headers: seq<HeaderEntry>,
    body: string,
    loginUser: Option<LoginUser>)

  /** An extractor rejection: a status and a plain-text body. */
  datatype Rejection = Rejection(status: int, message: string)

  const MissingJwtMessage: string := "Invalid or missing JWT"

  /** The single rejection the extractor produces. */
  const MissingJwt: Rejection := Rejection(AppErrors.UnauthorizedStatus, MissingJwtMessage)

  /**
   * `LoginUser::from_request_parts`: a copy of the attached `LoginUser`, or the 401.
   * The request parts are handed back to show they come out unchanged; the state is
   * ignored.
   */
  function FromRequestParts<S>(parts: Request, state: S): (r: (Result<LoginUser, Rejection>, Request))
    ensures r.1 == parts
    ensures r.0.Ok? <==> parts.loginUser.Some?
    ensures r.0.Ok? ==> Some(r.0.value) == parts.loginUser
    ensures r.0.Err? ==> r.0.error == MissingJwt
  {
    match parts.loginUser
    case Some(user) => (Ok(user), parts)
    case None => (Err(MissingJwt), parts)
  }

  /** Extracting twice gives the same answer, whatever the state. */
  lemma ExtractionRepeatable<S>(parts: Request, s1: S, s2: S)
    ensures FromRequestParts(FromRequestParts(parts, s1).1, s2).0 == FromRequestParts(parts, s1).0
  {
  }
}
