/** The token collaborator (`JwtProvider` over `jsonwebtoken`), seen from outside only:
    signing and verification are uninterpreted functions, and a ghost record of the calls
    made to it lets callers be specified by what they asked for. */
module Jwt {
  import opened Text

  /** A MongoDB `_id`, opaque to the service. */
  type UserId = string

  /** The payload `{ _id, email }` that login signs into both tokens. */
  datatype UserInfo = UserInfo(id: UserId, email: string)

  /** A decoded token: the signed payload plus the `iat` and `exp` claims the library adds. */
  datatype Claims = Claims(info: UserInfo, iat: int, exp: int)

  /** What `JwtProvider.verifyToken` yields: the decoded claims, or the message of the
      error it throws. */
  datatype VerifyResult = Decoded(payload: Claims) | Failed(message: string)

  /** The secrets and lifetimes the service reads from its environment. */
  datatype Env = Env(accessSecret: string, accessLife: string, refreshSecret: string, refreshLife: string)

  /** One call of `JwtProvider.generateToken(userInfo, secretSignature, tokenLife)`. */
  datatype SignCall = SignCall(payload: UserInfo, secret: string, life: string)

  /** The message of `new Error(error)` for a library error: the string form of the
      error, its name, a colon and a space, then its own message. */
  function Rewrapped(name: string, message: string): string
  {
    name + ": " + message
  }

  /** Re-wrapping keeps every piece of text the library's own message held. */
  lemma RewrappedKeepsText(name: string, message: string, t: string)
    requires Includes(message, t)
    ensures Includes(Rewrapped(name, message), t)
  {
    IncludesAfterPrefix(name + ": ", message, t);
  }

  class JwtProvider {
    /** `JWT.sign(userInfo, secret, { algorithm: 'HS256', expiresIn: life })`, clock included. */
    const sign: (UserInfo, string, string) -> string
    /** `JWT.verify(token, secret)` at the moment of the call, with errors re-wrapped. */
    const verify: (string, string) -> VerifyResult
    /** Every `generateToken` call made so far, in order (a record kept for specification only). */
    ghost var issued: seq<SignCall>
    /** Every `verifyToken` call made so far, in order: the token and the secret
        (a record kept for specification only). */
    ghost var verified: seq<(string, string)>

    constructor (sign: (UserInfo, string, string) -> string, verify: (string, string) -> VerifyResult)
      ensures this.sign == sign && this.verify == verify
      ensures issued == [] && verified == []
    {
      this.sign := sign;
      this.verify := verify;
      issued := [];
      verified := [];
    }

    method GenerateToken(payload: UserInfo, secret: string, life: string) returns (token: string)
      modifies this`issued
      ensures issued == old(issued) + [SignCall(payload, secret, life)]
      ensures token == sign(payload, secret, life)
    {
      issued := issued + [SignCall(payload, secret, life)];
      token := sign(payload, secret, life);
    }

    method VerifyToken(token: string, secret: string) returns (r: VerifyResult)
      modifies this`verified
      ensures verified == old(verified) + [(token, secret)]
      ensures r == verify(token, secret)
    {
      verified := verified + [(token, secret)];
      r := verify(token, secret);
    }
  }
}
