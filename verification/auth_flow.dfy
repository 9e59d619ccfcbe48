/**
 * The middleware and the `LoginUser` extractor together: what a handler that takes a
 * `LoginUser` observes for a request arriving from the network.
 */
module AuthFlow {
  import opened Results
  import opened Http
  import opened Ctx
  import opened Jwt

  /**
   * A request as it arrives from the network: no extension has been inserted yet. A
   * `LoginUser` put there earlier by some other layer would survive a failed decode.
   */
  predicate Incoming(req: Request) {
    req.loginUser.None?
  }

  /** The token decodes, and to these claims. */
  predicate DecodesTo(req: Request, decode: string -> Result<Claims, DecodeError>, c: Claims) {
    var token := BearerToken(req.headers);
    token != "" && decode(token) == Ok(c)
  }

  /** The middleware, then the extractor, for a handler taking a `LoginUser`. */
  function Authenticate(req: Request, decode: string -> Result<Claims, DecodeError>): (r: Result<LoginUser, Rejection>)
    ensures Incoming(req) ==> (r.Ok? <==> exists c :: DecodesTo(req, decode, c))
    ensures !Incoming(req) && !(exists c :: DecodesTo(req, decode, c)) ==> r == Ok(req.loginUser.value)
    ensures forall c :: DecodesTo(req, decode, c) ==> r == Ok(ToLoginUser(c))
    ensures r.Err? ==> r.error == MissingJwt
  {
    var step := Call(req, decode);
    var token := BearerToken(req.headers);
    assert token != "" && decode(token).Ok? ==> DecodesTo(req, decode, decode(token).value);
    FromRequestParts(step.request, ()).0
  }

  /** A protected handler: run with the identity, or replaced by the 401. */
  function Serve<R>(req: Request, decode: string -> Result<Claims, DecodeError>, handler: LoginUser -> R): (r: Result<R, Rejection>)
    ensures Incoming(req) ==> (r.Ok? <==> exists c :: DecodesTo(req, decode, c))
    ensures !Incoming(req) && !(exists c :: DecodesTo(req, decode, c)) ==> r == Ok(handler(req.loginUser.value))
    ensures forall c :: DecodesTo(req, decode, c) ==> r == Ok(handler(ToLoginUser(c)))
    ensures r.Err? ==> r.error == MissingJwt
  {
    match Authenticate(req, decode)
    case Ok(user) => Ok(handler(user))
    case Err(rejection) => Err(rejection)
  }

  /**
   * No header, another scheme, and a bearer token the decoder refuses for any reason
   * (expired, forged, malformed) are answered alike: the same 401 with the same text.
   */
  lemma FailuresIndistinguishable<R>(base: Request, t: string, decode: string -> Result<Claims, DecodeError>,
                                     handler: LoginUser -> R)
    requires Incoming(base)
    requires decode(t).Err?
    ensures Serve(base.(headers := []), decode, handler) == Err(MissingJwt)
    ensures Serve(base.(headers := [HeaderEntry(Authorization, "Basic " + t)]), decode, handler) == Err(MissingJwt)
    ensures Serve(base.(headers := [HeaderEntry(Authorization, BearerPrefix + t)]), decode, handler) == Err(MissingJwt)
  {
    OtherSchemesYieldNothing(t);
    var h := [HeaderEntry(Authorization, BearerPrefix + t)];
    var token := BearerToken(h);
    assert token == "" || token == t by {
      var v := BearerPrefix + t;
      if ToStr(v).Some? {
        assert v[..|BearerPrefix|] == BearerPrefix;
        assert v[7..] == t;
      }
    }
  }

  /** A token that decodes reaches the handler with the identity taken from its claims. */
  lemma ValidTokenReachesHandler<R>(base: Request, t: string, c: Claims,
                                    decode: string -> Result<Claims, DecodeError>, handler: LoginUser -> R)
    requires Incoming(base)
    requires t != "" && forall i :: 0 <= i < |t| ==> IsVisibleAscii(t[i])
    requires decode(t) == Ok(c)
    ensures Serve(base.(headers := [HeaderEntry(Authorization, BearerPrefix + t)]), decode, handler)
            == Ok(handler(LoginUser(c.userId, c.username, c.exp)))
  {
    BearerRoundTrip(t);
    var req := base.(headers := [HeaderEntry(Authorization, BearerPrefix + t)]);
    assert DecodesTo(req, decode, c);
  }
}
