/**
 * The JWT claims and the middleware that attaches a `LoginUser` to a request
 * (`crates/middleware/src/jwt.rs`). Signing and verification belong to the
 * `jsonwebtoken` library and enter as function parameters.
 */
module Jwt {
  import opened Results
  import opened Ints
  import opened Strings
  import opened Http
  import opened Ctx

  /** The token payload. */
  datatype Claims = Claims(sub: string, username: string, userId: string, exp: I64)

  const SecondsPerHour: int := 3600

  /**
   * `Claims::build`, with the clock reading `now` and the configured lifetime
   * `expiredHours` as parameters. Both `i64` operations wrap, as in a release build.
   */
  function Build(sub: string, userId: string, username: string, now: I64, expiredHours: I64): (c: Claims)
    ensures c.sub == sub && c.userId == userId && c.username == username
    ensures expiredHours == 0 ==> c.exp == now
    ensures InI64(expiredHours * SecondsPerHour) && InI64(now + expiredHours * SecondsPerHour) ==>
              c.exp == now + expiredHours * SecondsPerHour && (c.exp - now) % SecondsPerHour == 0
    ensures (c.exp - now - expiredHours * SecondsPerHour) % TwoTo64 == 0
  {
    var lifetime := WrapI64(expiredHours * SecondsPerHour);
    var exp := WrapI64(now + lifetime);
    WrapSum(now, expiredHours * SecondsPerHour, lifetime, exp);
    Claims(sub, username, userId, exp)
  }

  lemma WrapSum(now: int, x: int, w: int, exp: int)
    requires (w - x) % TwoTo64 == 0
    requires (exp - (now + w)) % TwoTo64 == 0
    ensures (exp - now - x) % TwoTo64 == 0
  {
    var a := (w - x) / TwoTo64;
    var b := (exp - (now + w)) / TwoTo64;
    assert exp - now - x == (a + b) * TwoTo64;
  }

  /** `Claims::to_login_user`: keeps the user id, the username and the expiry; drops `sub`. */
  function ToLoginUser(c: Claims): (u: LoginUser)
    ensures u.userId == c.userId && u.username == c.username && u.exp == c.exp
  {
    LoginUser(c.userId, c.username, c.exp)
  }

  /** Signing algorithms of the JWT library. */
  datatype Algorithm = HS256 | HS384 | HS512 | ES256 | ES384 | RS256 | RS384 | RS512 | PS256 | PS384 | PS512 | EdDSA

  /** The JOSE header fields the library sets by default. */
  datatype Header = Header(typ: Option<string>, alg: Algorithm, cty: Option<string>, kid: Option<string>)

  /** `Header::default()`. */
  const DefaultHeader: Header := Header(Some("JWT"), HS256, None, None)

  /** The header `to_token` signs with: the default one with its algorithm set to HS256. */
  function TokenHeader(base: Header): (h: Header)
    ensures h.alg == HS256
    ensures h.typ == base.typ && h.cty == base.cty && h.kid == base.kid
  {
    base.(alg := HS256)
  }

  /** `Claims::to_token`, the library's `encode` being a parameter. */
  function ToToken<E>(c: Claims, encode: (Header, Claims) -> Result<string, E>): (r: Result<string, E>)
    ensures exists h: Header :: h.alg == HS256 && h == DefaultHeader.(alg := h.alg) && r == encode(h, c)
  {
    var h := TokenHeader(DefaultHeader);
    assert h.alg == HS256 && h.typ == Some("JWT");
    encode(h, c)
  }

  const BearerPrefix: string := "Bearer "

  /**
   * The token of the `Authorization` header value (if any): what follows a leading,
   * case-sensitive `Bearer `, untrimmed; the empty string for an absent header, one
   * that is not visible ASCII, or any other scheme.
   */
  function ExtractToken(header: Option<string>): (token: string)
    ensures header.Some? && ToStr(header.value).Some? && StartsWith(header.value, BearerPrefix) ==>
              header.value == BearerPrefix + token
    ensures !(header.Some? && ToStr(header.value).Some? && StartsWith(header.value, BearerPrefix)) ==>
              token == ""
  {
    match header
    case Some(raw) =>
      (match ToStr(raw)
       case Some(text) =>
         if StartsWith(text, BearerPrefix) then
           assert text == text[..7] + text[7..];
           text[7..]
         else ""
       case None => "")
    case None => ""
  }

  /** The token the middleware reads from a request's headers. */
  function BearerToken(headers: seq<HeaderEntry>): string {
    ExtractToken(Get(headers, Authorization))
  }

  /** How the library reports a failed decode: an expired signature, or anything else. */
  datatype DecodeError = ExpiredSignature | OtherDecodeError(kind: string)

  /**
   * What a middleware can do with a request: hand it on, or answer it itself.
   */
  datatype Step = Forward(request: Request) | ShortCircuit(status: int)

  /**
   * `JwtMiddleware::call`. `decode` is the library's HS256 verification under the
   * configured secret and clock. The request is always forwarded; the only change made
   * to it is a `LoginUser` inserted when the token decodes.
   */
  function Call(req: Request, decode: string -> Result<Claims, DecodeError>): (step: Step)
    ensures step.Forward?
    ensures step.request == req.(loginUser := step.request.loginUser)
    ensures var token := BearerToken(req.headers);
            token != "" && decode(token).Ok? ==> step.request.loginUser == Some(ToLoginUser(decode(token).value))
    ensures var token := BearerToken(req.headers);
            token == "" || decode(token).Err? ==> step.request.loginUser == req.loginUser
  {
    var token := BearerToken(req.headers);
    var validUser: Option<LoginUser> :=
      if token != "" then
        match decode(token)
        case Ok(data) => Some(ToLoginUser(data))
        case Err(_) => None
      else None;
    match validUser
    case Some(user) => Forward(req.(loginUser := Some(user)))
    case None => Forward(req)
  }

  /** Runs a step: the inner service on a forwarded request. */
  function Dispatch<R>(step: Step, inner: Request -> R, reject: int -> R): R {
    match step
    case Forward(r) => inner(r)
    case ShortCircuit(status) => reject(status)
  }

  /**
   * The inner service is reached for every request, whatever the token, and sees the
   * request with only the `LoginUser` slot possibly changed.
   */
  lemma InnerAlwaysCalled<R>(req: Request, decode: string -> Result<Claims, DecodeError>,
                              inner: Request -> R, reject: int -> R)
    ensures exists u :: Dispatch(Call(req, decode), inner, reject) == inner(req.(loginUser := u))
  {
    var step := Call(req, decode);
    assert step.request == req.(loginUser := step.request.loginUser);
  }

  /** With an empty token the decoder's answer is irrelevant: it is never consulted. */
  lemma EmptyTokenNotDecoded(req: Request, d1: string -> Result<Claims, DecodeError>,
                             d2: string -> Result<Claims, DecodeError>)
    requires BearerToken(req.headers) == ""
    ensures Call(req, d1) == Call(req, d2) == Forward(req)
  {
  }

  /** An expired token and any other decode failure lead to the same forwarded request. */
  lemma DecodeErrorsAlike(req: Request, d1: string -> Result<Claims, DecodeError>,
                          d2: string -> Result<Claims, DecodeError>)
    requires d1(BearerToken(req.headers)) == Err(ExpiredSignature)
    requires d2(BearerToken(req.headers)).Err?
    ensures Call(req, d1) == Call(req, d2) == Forward(req)
  {
  }

  /** `Authorization: Bearer <t>` yields `t` exactly, for any visible-ASCII `t`. */
  lemma BearerRoundTrip(t: string)
    requires forall i :: 0 <= i < |t| ==> IsVisibleAscii(t[i])
    ensures ExtractToken(Some(BearerPrefix + t)) == t
  {
    var v := BearerPrefix + t;
    assert forall i :: 0 <= i < |v| ==> IsVisibleAscii(v[i]);
    assert v[..|BearerPrefix|] == BearerPrefix;
    assert v[7..] == t;
  }

  /** The scheme is matched case-sensitively, and other schemes yield no token. */
  lemma OtherSchemesYieldNothing(t: string)
    ensures ExtractToken(Some("bearer " + t)) == ""
    ensures ExtractToken(Some("Basic " + t)) == ""
    ensures ExtractToken(Some(BearerPrefix)) == ""
    ensures ExtractToken(None) == ""
  {
    assert ("bearer " + t)[0] == 'b';
    assert ("Basic " + t)[1] == 'a';
  }
}
