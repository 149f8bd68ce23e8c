# Access-token gate and account lifecycle of a Trello-style API

This project models, in Dafny, the two decision procedures at the heart of the service's
authentication:

- **The access-token gate** (`authMiddleware.isAuthorized`). For each request it reads the
  `accessToken` cookie. A missing or empty cookie is passed to `next` as
  401 "Unauthorized! (token not found)", and the verifier is never called. Otherwise the token
  is verified with the access-token secret. On success the decoded claims are stored in
  `req.jwtDecoded` and `next()` is called with no error. On failure the gate looks at the error's
  message: if it contains `jwt expired` it passes 410 "Need to refresh token.", otherwise
  401 "Unauthorized!". The model is the method `AuthMiddleware.IsAuthorized` on a `Request`
  object. That object records `jwtDecoded` and every argument given to `next`. The method is
  proved against the decision function `AuthMiddleware.Authorize`.
- **The account lifecycle** (`userService`). The user table is a map from e-mail address to
  user record, held by the class `UserService.UserModel`.
  - `createNew` refuses a duplicate e-mail. Otherwise it inserts an inactive user whose
    username and display name are the text before the first `@`.
  - `verifyAccount` refuses an unknown e-mail, then an already active account, then a wrong
    token. Otherwise it activates the account and clears its token.
  - `login` refuses an unknown e-mail, then an inactive account, then a wrong password.
    Otherwise it signs an access token and a refresh token over `{ _id, email }`.

  The methods `CreateNew`, `VerifyAccount` and `Login` change the model in place. Each is proved
  against a function over tables (`Register`, `Activate`, `Authenticate`), and the lemmas about
  the whole lifecycle are stated over those functions.

The token library is a collaborator. `Jwt.JwtProvider` holds an uninterpreted signing function
and an uninterpreted verifier. The verifier returns either the decoded claims or the message of
the error it throws. The source keeps no record of these calls. The model adds a ghost record of
them, used only in specifications, so that the gate and login can be specified by the calls they
make. bcrypt is a pair of uninterpreted functions (`hashSync` with the salt made
explicit, and `compareSync`). The database id, bcrypt's salt and the `uuidv4()` token are passed
in as one `Generated` value.

Expiry is detected the way the code does it: a substring test on the error message
(`Text.Includes`, the model of `String.prototype.includes`). It is not a structured error kind.
The message the gate sees is the library error re-wrapped by `new Error(error)`, that is, the
error's name, `": "` and its message (`Jwt.Rewrapped`). `TokenExpiredError: jwt expired` is
therefore still recognised. The expiry itself is the `exp` claim of section 4.1.4 of RFC 7519.
Checking it is the library's job and lies outside the model.

`userService.js` imports the provider from `~/providers/JWTProvider`, but the file is named
`JwtProvider.js`. On a case-sensitive file system that import would not resolve. The model
assumes that it does.

## Model

| member | source | states |
|---|---|---|
| `AuthMiddleware.Authorize` | src/middlewares/authMiddleware.js:7-38 | exactly one of four verdicts: 401 "token not found" iff the cookie is absent or empty; admitted iff the access-secret verification decodes, with those claims; 410 iff it fails with a message containing `jwt expired`; plain 401 iff it fails otherwise |
| `AuthMiddleware.IsAuthorized` | src/middlewares/authMiddleware.js:7-39 | `next` is called exactly once, with the verdict's error or with nothing; the verifier is called once, with the cookie and the access-token secret, only if the cookie is usable; `req.jwtDecoded` is set to the claims on admission and left unchanged on every failure |
| `AuthMiddleware.OnlyAccessSecretMatters` | src/middlewares/authMiddleware.js:17-20 | the verdict does not depend on the refresh secret or on either lifetime |
| `AuthMiddleware.GoneIffExpiryTextOccurs` | src/middlewares/authMiddleware.js:31-34 | after a verification failure, the status is 410 iff `jwt expired` occurs at some position of the message |
| `AuthMiddleware.ExpiredTokenIsGone` | src/middlewares/authMiddleware.js:28-34 | the re-wrapped library expiry error `TokenExpiredError: jwt expired` gives 410 "Need to refresh token." and no claims |
| `AuthMiddleware.BadSignatureIsUnauthorized` | src/middlewares/authMiddleware.js:36-37 | the re-wrapped `JsonWebTokenError: invalid signature` (a tampered or foreign-secret token) gives 401 "Unauthorized!" |
| `Text.IncludesIffOccurs` | src/middlewares/authMiddleware.js:31 | `includes` holds iff the searched text occurs at some index |
| `Text.IncludesAfterPrefix` | src/middlewares/authMiddleware.js:31 | text put in front of a message keeps everything the message included |
| `Text.NotIncludesWithoutFirstChar` | src/middlewares/authMiddleware.js:31 | a message lacking the first character of a non-empty search text does not include it |
| `Jwt.RewrappedKeepsText` | src/providers/JwtProvider.js:21-27 | `new Error(error)` keeps the library message's text, so the gate still sees `jwt expired` |
| `Jwt.JwtProvider.GenerateToken` | src/providers/JwtProvider.js:9-15 | returns the signature of the payload with the given secret and lifetime, and adds that one call to the ghost record |
| `Jwt.JwtProvider.VerifyToken` | src/providers/JwtProvider.js:21-27 | returns the verifier's result for the token and secret, and adds that one call to the ghost record |
| `UserService.NameFromEmail` | src/services/userService.js:19 | the result is a prefix of the e-mail with no `@`, followed in the e-mail by an `@` or by its end |
| `UserService.NameFromEmailUnique` | src/services/userService.js:19 | those three properties determine the name uniquely |
| `UserService.NameOfAddress` | src/services/userService.js:19 | the name of `local@domain` is `local` when `local` has no `@` |
| `UserService.Register` | src/services/userService.js:14-28 | a conflict iff the e-mail is taken, with the table unchanged; otherwise exactly one new key, the old records kept, and the new user has the generated id, the e-mail, the password's hash, both names from the e-mail, is inactive and holds the uuid token |
| `UserService.CreateNew` | src/services/userService.js:12-45 | the new table and the returned user or error are those of `Register` on the old table; a well-formed table stays well formed |
| `UserService.Activate` | src/services/userService.js:49-64 | not found, then already active, then token invalid, each with the table unchanged; success iff the account exists, is inactive and holds this token, and then only that record changes, to active with its token cleared |
| `UserService.VerifyAccount` | src/services/userService.js:47-68 | the new table and the returned user or error are those of `Activate` on the old table; a well-formed table stays well formed, so an inactive account always still holds its token |
| `UserService.Authenticate` | src/services/userService.js:72-94 | not found, then not active, then wrong password; success iff the account exists, is active and the password matches, returning the record and two tokens over `{ _id, email }`, one with the access secret and lifetime and one with the refresh secret and lifetime |
| `UserService.Login` | src/services/userService.js:70-99 | returns what `Authenticate` gives on the unchanged table; asks for exactly the two signatures on success and none on failure |
| `UserService.RegisterKeepsWellFormed` | src/services/userService.js:20-28 | registration keeps every record under its own e-mail and keeps "has a token iff inactive" |
| `UserService.ActivateKeepsWellFormed` | src/services/userService.js:57-62 | activation keeps the same two table invariants |
| `UserService.SecondRegistrationConflicts` | src/services/userService.js:14-17 | registering an e-mail a second time conflicts and changes nothing |
| `UserService.ActivationIsOneShot` | src/services/userService.js:52-62 | after a successful verification, any further verification of that e-mail fails as already active |
| `UserService.NoLoginBeforeVerification` | src/services/userService.js:74-75 | a freshly registered account cannot log in with any password before it is verified |
| `UserService.RegisterVerifyLogin` | src/services/userService.js:12-94 | register, verify with the mailed token, then log in with the same password succeeds (given that bcrypt accepts a password against its own hash), with both tokens over the new id and e-mail |

## Left out

- E-mail delivery in `createNew` (the verification link, subject and HTML body, and `BrevoProvider.sendEmail`) is outbound I/O and is not modelled. A failure to send is not modelled either.
- `pickUser` is not part of this model. Each operation returns the whole stored record where the source returns `pickUser` of it.
- `userModel` internals are not part of this model. `UserModel.FindOneByEmail` stands in for `userModel.findOneByEmail` as a plain map lookup. The default `isActive: false` of a new record is taken as given. `userModel.update(_id, …)` is modelled as an update of the record under that user's e-mail, which assumes database ids are unique. `findOneById(insertedId)` is modelled as reading back the record just inserted.
- The token library (`jsonwebtoken`, HS256 per section 3.2 of RFC 7518) is only an uninterpreted signer and verifier. Its signature check, its expiry check against the clock, and the sign/verify round trip are not modelled. The clock is folded into those functions.
- bcrypt hashing and comparison, `uuidv4()` and id generation are uninterpreted. `RegisterVerifyLogin` assumes, for the one password involved, that bcrypt accepts a password against its own hash.
- `verifyAccount`'s request token is modelled as a string. Request-body validation is not part of this model, so an absent or `null` token in the body is not represented.
- Register: the duplicate check (userService.js:14) and the insert (userService.js:28) are separated by `await`s. Two concurrent sign-ups with one e-mail can therefore both pass the check and both insert. A map keyed by e-mail cannot hold such duplicates. So "conflict iff the e-mail is taken" and the "one record per e-mail" half of `WellFormed` hold only for requests handled one at a time.
- Login: signing is total in the model. `generateToken` rethrows library errors (JwtProvider.js:11-13), for example for an empty secret or an unusable `expiresIn`. So `login` can throw after all three checks have passed, possibly after the access token was already signed. `Login` does not model that failure, and it promises both signing calls on every success.
- `async`/`await`, the try/rethrow blocks and Express's `res` are not modelled; they add no decisions.
- The server wiring (`src/server.js`), the configuration constants (`src/utils/constants.js`) and the refresh-token endpoint are not modelled.
