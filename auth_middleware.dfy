/** The access-token gate `authMiddleware.isAuthorized`: per request it reads the
    `accessToken` cookie, verifies it with the access-token secret and either admits the
    request, recording the decoded claims on it, or passes one of three errors to `next`. */
module AuthMiddleware {
  import opened Wrappers
  import opened ApiErrors
  import opened Text
  import opened Jwt

  const TOKEN_NOT_FOUND: ApiError := ApiError(UNAUTHORIZED, "Unauthorized! (token not found)")
  const NEED_REFRESH: ApiError := ApiError(GONE, "Need to refresh token.")
  const TOKEN_INVALID: ApiError := ApiError(UNAUTHORIZED, "Unauthorized!")

  /** The text whose presence in a verification error's message means "expired". */
  const EXPIRED_MARKER: string := "jwt expired"

  /** The gate's decision for one request. */
  datatype Verdict = Admit(claims: Claims) | Reject(error: ApiError)

  /** `req.cookies?.accessToken`. */
  function AccessTokenCookie(cookies: map<string, string>): Option<string>
  {
    if "accessToken" in cookies then Some(cookies["accessToken"]) else None
  }

  /** JavaScript truthiness of a cookie value: present and not the empty string. */
  predicate Truthy(token: Option<string>)
  {
    token.Some? && token.value != ""
  }

  /** The argument `next` receives for a verdict: nothing when admitted, the error otherwise. */
  function NextArgument(v: Verdict): Option<ApiError>
  {
    match v
    case Admit(_) => None
    case Reject(e) => Some(e)
  }

  /** The decision `isAuthorized` takes, given the request's cookies, the verifier and the
      environment. Exactly one of four outcomes, told apart by status and message. */
  function Authorize(cookies: map<string, string>, verify: (string, string) -> VerifyResult, env: Env): (v: Verdict)
    // no usable cookie: rejected as missing, and only then
    ensures v == Reject(TOKEN_NOT_FOUND) <==> !Truthy(AccessTokenCookie(cookies))
    // admitted exactly when the access-secret verification decodes the token, with its claims
    ensures var token := AccessTokenCookie(cookies);
            v.Admit? <==> Truthy(token) && verify(token.value, env.accessSecret).Decoded?
    ensures var token := AccessTokenCookie(cookies);
            v.Admit? ==> v.claims == verify(token.value, env.accessSecret).payload
    // a failure mentioning expiry asks the client to refresh
    ensures var token := AccessTokenCookie(cookies);
            v == Reject(NEED_REFRESH) <==>
              Truthy(token) && verify(token.value, env.accessSecret).Failed? &&
              Includes(verify(token.value, env.accessSecret).message, EXPIRED_MARKER)
    // every other failure is a plain 401
    ensures var token := AccessTokenCookie(cookies);
            v == Reject(TOKEN_INVALID) <==>
              Truthy(token) && verify(token.value, env.accessSecret).Failed? &&
              !Includes(verify(token.value, env.accessSecret).message, EXPIRED_MARKER)
  {
    var token := AccessTokenCookie(cookies);
    if !Truthy(token) then Reject(TOKEN_NOT_FOUND)
    else match verify(token.value, env.accessSecret)
      case Decoded(payload) => Admit(payload)
      case Failed(message) =>
        if Includes(message, EXPIRED_MARKER) then Reject(NEED_REFRESH) else Reject(TOKEN_INVALID)
  }

  /** The Express request as the gate sees and changes it. */
  class Request {
    /** `req.cookies`, as parsed by the cookie middleware. */
    const cookies: map<string, string>
    /** `req.jwtDecoded`; `None` while unset. */
    var jwtDecoded: Option<Claims>
    /** The argument of every call to `next` made for this request, in order. */
    var nextCalls: seq<Option<ApiError>>

    constructor (cookies: map<string, string>)
      ensures this.cookies == cookies
      ensures jwtDecoded == None && nextCalls == []
    {
      this.cookies := cookies;
      jwtDecoded := None;
      nextCalls := [];
    }
  }

  /** `isAuthorized(req, res, next)`. It calls `next` exactly once, asks the provider to
      verify only a usable cookie and only with the access-token secret, and sets
      `req.jwtDecoded` only when it admits the request. */
  method IsAuthorized(req: Request, jwt: JwtProvider, env: Env)
    modifies req`jwtDecoded, req`nextCalls, jwt`verified
    ensures var token := AccessTokenCookie(req.cookies);
            jwt.verified == old(jwt.verified) + (if Truthy(token) then [(token.value, env.accessSecret)] else [])
    ensures var v := Authorize(req.cookies, jwt.verify, env);
            && req.nextCalls == old(req.nextCalls) + [NextArgument(v)]
            && req.jwtDecoded == (if v.Admit? then Some(v.claims) else old(req.jwtDecoded))
  {
    var clientAccessToken := AccessTokenCookie(req.cookies);
    if !Truthy(clientAccessToken) {
      req.nextCalls := req.nextCalls + [Some(TOKEN_NOT_FOUND)];
      return;
    }

    var decoded := jwt.VerifyToken(clientAccessToken.value, env.accessSecret);
    match decoded
    case Decoded(payload) =>
      req.jwtDecoded := Some(payload);
      req.nextCalls := req.nextCalls + [None];
    case Failed(message) =>
      if Includes(message, EXPIRED_MARKER) {
        req.nextCalls := req.nextCalls + [Some(NEED_REFRESH)];
        return;
      }
      req.nextCalls := req.nextCalls + [Some(TOKEN_INVALID)];
  }

  /** The refresh-token secret and both lifetimes play no part in the decision. */
  lemma OnlyAccessSecretMatters(cookies: map<string, string>, verify: (string, string) -> VerifyResult, e1: Env, e2: Env)
    requires e1.accessSecret == e2.accessSecret
    ensures Authorize(cookies, verify, e1) == Authorize(cookies, verify, e2)
  {
  }

  /** The decision is rejected as expired exactly when the expiry text occurs at some
      position of the verifier's message. */
  lemma GoneIffExpiryTextOccurs(cookies: map<string, string>, verify: (string, string) -> VerifyResult, env: Env)
    requires Truthy(AccessTokenCookie(cookies))
    requires verify(AccessTokenCookie(cookies).value, env.accessSecret).Failed?
    ensures var m := verify(AccessTokenCookie(cookies).value, env.accessSecret).message;
            Authorize(cookies, verify, env).error.statusCode == GONE <==>
              exists i: nat :: OccursAt(m, EXPIRED_MARKER, i)
  {
    IncludesIffOccurs(verify(AccessTokenCookie(cookies).value, env.accessSecret).message, EXPIRED_MARKER);
  }

  /** `jsonwebtoken` reports an expired token as `TokenExpiredError` with message
      `jwt expired`; after re-wrapping, the gate answers 410 and attaches nothing. */
  lemma ExpiredTokenIsGone(cookies: map<string, string>, verify: (string, string) -> VerifyResult, env: Env)
    requires Truthy(AccessTokenCookie(cookies))
    requires verify(AccessTokenCookie(cookies).value, env.accessSecret) == Failed(Rewrapped("TokenExpiredError", "jwt expired"))
    ensures Authorize(cookies, verify, env) == Reject(NEED_REFRESH)
  {
    assert OccursAt("jwt expired", EXPIRED_MARKER, 0);
    IncludesIffOccurs("jwt expired", EXPIRED_MARKER);
    RewrappedKeepsText("TokenExpiredError", "jwt expired", EXPIRED_MARKER);
  }

  /** A token whose signature does not match (`JsonWebTokenError: invalid signature`),
      such as a tampered one or one signed with another secret, gets the plain 401. */
  lemma BadSignatureIsUnauthorized(cookies: map<string, string>, verify: (string, string) -> VerifyResult, env: Env)
    requires Truthy(AccessTokenCookie(cookies))
    requires verify(AccessTokenCookie(cookies).value, env.accessSecret) == Failed(Rewrapped("JsonWebTokenError", "invalid signature"))
    ensures Authorize(cookies, verify, env) == Reject(TOKEN_INVALID)
  {
    NotIncludesWithoutFirstChar(Rewrapped("JsonWebTokenError", "invalid signature"), EXPIRED_MARKER);
  }
}
