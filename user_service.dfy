/** `userService`: registration, e-mail verification and login over the user table.
    The table (`userModel`) is a map from e-mail address to user record owned by
    `UserModel`; bcrypt, uuid, the database's id generation and token signing are
    collaborators given as values and functions. */
module UserService {
  import opened Wrappers
  import opened ApiErrors
  import opened Jwt

  /** bcrypt's cost factor in `bcryptjs.hashSync(password, 8)`. */
  const SALT_ROUNDS: nat := 8

  const EMAIL_EXISTS: ApiError := ApiError(CONFLICT, "Email already exists!")
  const ACCOUNT_NOT_FOUND: ApiError := ApiError(NOT_FOUND, "Account not found!")
  const ALREADY_ACTIVE: ApiError := ApiError(NOT_ACCEPTABLE, "Your account is already active!")
  const TOKEN_IS_INVALID: ApiError := ApiError(NOT_ACCEPTABLE, "Token is invalid")
  const NOT_ACTIVE: ApiError := ApiError(NOT_ACCEPTABLE, "Your account is not active!")
  const WRONG_CREDENTIALS: ApiError := ApiError(NOT_ACCEPTABLE, "Your Email or Password is incorrect!")

  /** A stored user. `password` holds the bcrypt hash; `verifyToken` is `None` once cleared to `null`. */
  datatype User = User(
    id: UserId,
    email: string,
    password: string,
    username: string,
    displayName: string,
    isActive: bool,
    verifyToken: Option<string>)

  type Table = map<string, User>

  datatype RegisterBody = RegisterBody(email: string, password: string)
  datatype VerifyBody = VerifyBody(email: string, token: string)
  datatype LoginBody = LoginBody(email: string, password: string)

  /** The values `createNew` draws from outside: the id the database assigns on insert,
      bcrypt's random salt and the `uuidv4()` verification token. */
  datatype Generated = Generated(id: UserId, salt: string, uuid: string)

  /** `bcryptjs.hashSync(password, rounds)` with its salt made explicit, and `bcryptjs.compareSync`. */
  datatype Bcrypt = Bcrypt(hashSync: (string, nat, string) -> string, compareSync: (string, string) -> bool)

  /** What a successful login returns: both tokens and the user's record. */
  datatype Session = Session(accessToken: string, refreshToken: string, user: User)

  /** An operation's effect on the table together with what it returns or throws. */
  datatype Step<+T> = Step(table: Table, result: Result<T>)

  /** `email.split('@')[0]`: the text before the first `@`, or all of it when there is none. */
  function NameFromEmail(email: string): (name: string)
    ensures name <= email
    ensures '@' !in name
    ensures |name| < |email| ==> email[|name|] == '@'
    decreases |email|
  {
    if email == [] || email[0] == '@' then [] else [email[0]] + NameFromEmail(email[1..])
  }

  /** The three properties of `NameFromEmail` pin its result down: any prefix without `@`
      that stops at an `@` or at the end is that result. */
  lemma NameFromEmailUnique(email: string, name: string)
    requires name <= email && '@' !in name
    requires |name| < |email| ==> email[|name|] == '@'
    ensures name == NameFromEmail(email)
  {
  }

  /** The name of `local@domain` is `local` whenever `local` holds no `@`. */
  lemma NameOfAddress(local: string, domain: string)
    requires '@' !in local
    ensures NameFromEmail(local + "@" + domain) == local
  {
    var email := local + "@" + domain;
    assert email[|local|] == '@';
    assert local <= email;
    NameFromEmailUnique(email, local);
  }

  /** The table's own consistency: each record sits under its own e-mail, and an account
      carries a verification token exactly while it is inactive. */
  ghost predicate WellFormed(t: Table)
  {
    forall e :: e in t ==> t[e].email == e && (t[e].isActive <==> t[e].verifyToken.None?)
  }

  /** `createNew`: a duplicate e-mail is refused and nothing is inserted; otherwise one
      inactive user is added under the e-mail, named after it, holding the password's
      hash and a fresh verification token, and every other record is kept. */
  function Register(t: Table, body: RegisterBody, gen: Generated, bcrypt: Bcrypt): (s: Step<User>)
    ensures s.result.Err? <==> body.email in t
    ensures s.result.Err? ==> s.result.error == EMAIL_EXISTS && s.table == t
    ensures s.result.Ok? ==>
      var u := s.result.value;
      && s.table.Keys == t.Keys + {body.email}
      && (forall e :: e in t ==> s.table[e] == t[e])
      && s.table[body.email] == u
      && u.id == gen.id && u.email == body.email
      && u.password == bcrypt.hashSync(body.password, SALT_ROUNDS, gen.salt)
      && u.username == u.displayName == NameFromEmail(body.email)
      && !u.isActive && u.verifyToken == Some(gen.uuid)
  {
    if body.email in t then Step(t, Err(EMAIL_EXISTS))
    else
      var name := NameFromEmail(body.email);
      var u := User(gen.id, body.email, bcrypt.hashSync(body.password, SALT_ROUNDS, gen.salt),
                    name, name, false, Some(gen.uuid));
      Step(t[body.email := u], Ok(u))
  }

  /** `verifyAccount`: unknown e-mail, then an already active account, then a token other
      than the stored one are refused with the table unchanged; otherwise the account is
      activated, its token cleared, and nothing else changes. */
  function Activate(t: Table, body: VerifyBody): (s: Step<User>)
    ensures s.result.Err? ==> s.table == t
    ensures body.email !in t ==> s.result == Err(ACCOUNT_NOT_FOUND)
    ensures body.email in t && t[body.email].isActive ==> s.result == Err(ALREADY_ACTIVE)
    ensures body.email in t && !t[body.email].isActive && t[body.email].verifyToken != Some(body.token) ==>
              s.result == Err(TOKEN_IS_INVALID)
    ensures s.result.Ok? <==>
              body.email in t && !t[body.email].isActive && t[body.email].verifyToken == Some(body.token)
    ensures s.result.Ok? ==>
      var old_u := t[body.email];
      && s.table == t[body.email := old_u.(isActive := true, verifyToken := None)]
      && s.result.value == s.table[body.email]
  {
    if body.email !in t then Step(t, Err(ACCOUNT_NOT_FOUND))
    else
      var u := t[body.email];
      if u.isActive then Step(t, Err(ALREADY_ACTIVE))
      else if u.verifyToken != Some(body.token) then Step(t, Err(TOKEN_IS_INVALID))
      else
        var updated := u.(isActive := true, verifyToken := None);
        Step(t[body.email := updated], Ok(updated))
  }

  /** `login`: unknown e-mail, then an inactive account, then a password that does not match
      the stored hash are refused; otherwise an access token and a refresh token are signed
      over `{ _id, email }` with their own secrets and lifetimes. */
  function Authenticate(t: Table, body: LoginBody, env: Env, bcrypt: Bcrypt, sign: (UserInfo, string, string) -> string): (r: Result<Session>)
    ensures body.email !in t ==> r == Err(ACCOUNT_NOT_FOUND)
    ensures body.email in t && !t[body.email].isActive ==> r == Err(NOT_ACTIVE)
    ensures body.email in t && t[body.email].isActive && !bcrypt.compareSync(body.password, t[body.email].password) ==>
              r == Err(WRONG_CREDENTIALS)
    ensures r.Ok? <==>
              body.email in t && t[body.email].isActive && bcrypt.compareSync(body.password, t[body.email].password)
    ensures r.Ok? ==>
      var u := t[body.email];
      && r.value.user == u
      && r.value.accessToken == sign(UserInfo(u.id, u.email), env.accessSecret, env.accessLife)
      && r.value.refreshToken == sign(UserInfo(u.id, u.email), env.refreshSecret, env.refreshLife)
  {
    if body.email !in t then Err(ACCOUNT_NOT_FOUND)
    else
      var u := t[body.email];
      if !u.isActive then Err(NOT_ACTIVE)
      else if !bcrypt.compareSync(body.password, u.password) then Err(WRONG_CREDENTIALS)
      else
        var info := UserInfo(u.id, u.email);
        Ok(Session(sign(info, env.accessSecret, env.accessLife), sign(info, env.refreshSecret, env.refreshLife), u))
  }

  /** The `userModel` collection. */
  class UserModel {
    var users: Table

    constructor ()
      ensures users == map[]
    {
      users := map[];
    }

    /** `userModel.findOneByEmail(email)`. */
    function FindOneByEmail(email: string): Option<User>
      reads this
    {
      if email in users then Some(users[email]) else None
    }
  }

  /** `userService.createNew(reqBody)`, e-mail delivery aside. */
  method CreateNew(model: UserModel, body: RegisterBody, gen: Generated, bcrypt: Bcrypt) returns (r: Result<User>)
    modifies model
    ensures Step(model.users, r) == Register(old(model.users), body, gen, bcrypt)
    ensures WellFormed(old(model.users)) ==> WellFormed(model.users)
  {
    var existUser := model.FindOneByEmail(body.email);
    if existUser.Some? {
      return Err(EMAIL_EXISTS);
    }

    var nameFromEmail := NameFromEmail(body.email);
    var newUser := User(gen.id, body.email, bcrypt.hashSync(body.password, SALT_ROUNDS, gen.salt),
                        nameFromEmail, nameFromEmail, false, Some(gen.uuid));
    model.users := model.users[body.email := newUser];
    var getNewUser := model.users[body.email];
    return Ok(getNewUser);
  }

  /** `userService.verifyAccount(reqBody)`. */
  method VerifyAccount(model: UserModel, body: VerifyBody) returns (r: Result<User>)
    modifies model
    ensures Step(model.users, r) == Activate(old(model.users), body)
    ensures WellFormed(old(model.users)) ==> WellFormed(model.users)
  {
    var existUser := model.FindOneByEmail(body.email);
    if existUser.None? {
      return Err(ACCOUNT_NOT_FOUND);
    }
    var u := existUser.value;
    if u.isActive {
      return Err(ALREADY_ACTIVE);
    }
    if Some(body.token) != u.verifyToken {
      return Err(TOKEN_IS_INVALID);
    }

    model.users := model.users[body.email := u.(isActive := true, verifyToken := None)];
    var updatedUser := model.users[body.email];
    return Ok(updatedUser);
  }

  /** `userService.login(reqBody)`: reads the table, leaves it as it is, and asks the
      provider for exactly two tokens on success and none on failure. */
  method Login(model: UserModel, jwt: JwtProvider, body: LoginBody, env: Env, bcrypt: Bcrypt) returns (r: Result<Session>)
    modifies jwt`issued
    ensures r == Authenticate(model.users, body, env, bcrypt, jwt.sign)
    ensures jwt.issued == old(jwt.issued) +
              if r.Ok? then [SignCall(UserInfo(r.value.user.id, r.value.user.email), env.accessSecret, env.accessLife),
                             SignCall(UserInfo(r.value.user.id, r.value.user.email), env.refreshSecret, env.refreshLife)]
              else []
  {
    var existUser := model.FindOneByEmail(body.email);
    if existUser.None? {
      return Err(ACCOUNT_NOT_FOUND);
    }
    var u := existUser.value;
    if !u.isActive {
      return Err(NOT_ACTIVE);
    }
    if !bcrypt.compareSync(body.password, u.password) {
      return Err(WRONG_CREDENTIALS);
    }

    var userInfo := UserInfo(u.id, u.email);
    var accessToken := jwt.GenerateToken(userInfo, env.accessSecret, env.accessLife);
    var refreshToken := jwt.GenerateToken(userInfo, env.refreshSecret, env.refreshLife);
    return Ok(Session(accessToken, refreshToken, u));
  }

  /** Registration keeps the table well formed. */
  lemma RegisterKeepsWellFormed(t: Table, body: RegisterBody, gen: Generated, bcrypt: Bcrypt)
    requires WellFormed(t)
    ensures WellFormed(Register(t, body, gen, bcrypt).table)
  {
  }

  /** Activation keeps the table well formed. */
  lemma ActivateKeepsWellFormed(t: Table, body: VerifyBody)
    requires WellFormed(t)
    ensures WellFormed(Activate(t, body).table)
  {
  }

  /** Registering the same e-mail twice: the second attempt conflicts and changes nothing. */
  lemma SecondRegistrationConflicts(t: Table, b1: RegisterBody, g1: Generated, b2: RegisterBody, g2: Generated, bcrypt: Bcrypt)
    requires b1.email == b2.email
    ensures var t1 := Register(t, b1, g1, bcrypt).table;
            Register(t1, b2, g2, bcrypt) == Step(t1, Err(EMAIL_EXISTS))
  {
  }

  /** Verification is one-shot: once it succeeds, any further attempt for that e-mail,
      with any token, fails as already active. */
  lemma ActivationIsOneShot(t: Table, b1: VerifyBody, b2: VerifyBody)
    requires Activate(t, b1).result.Ok? && b2.email == b1.email
    ensures var t1 := Activate(t, b1).table;
            Activate(t1, b2) == Step(t1, Err(ALREADY_ACTIVE))
  {
  }

  /** A freshly registered account cannot log in, whatever the password, until it is verified. */
  lemma NoLoginBeforeVerification(t: Table, body: RegisterBody, gen: Generated, bcrypt: Bcrypt,
                                  login: LoginBody, env: Env, sign: (UserInfo, string, string) -> string)
    requires body.email !in t && login.email == body.email
    ensures Authenticate(Register(t, body, gen, bcrypt).table, login, env, bcrypt, sign) == Err(NOT_ACTIVE)
  {
  }

  /** The whole lifecycle: register a new e-mail, verify it with the token that was mailed,
      then log in with the same password. Provided bcrypt accepts a password against its own
      hash, the login succeeds with tokens over the new user's id and e-mail, signed with the
      access and refresh secrets respectively. */
  lemma RegisterVerifyLogin(t: Table, body: RegisterBody, gen: Generated, bcrypt: Bcrypt,
                            env: Env, sign: (UserInfo, string, string) -> string)
    requires body.email !in t
    requires bcrypt.compareSync(body.password, bcrypt.hashSync(body.password, SALT_ROUNDS, gen.salt))
    ensures var t1 := Register(t, body, gen, bcrypt).table;
            var t2 := Activate(t1, VerifyBody(body.email, gen.uuid)).table;
            var r := Authenticate(t2, LoginBody(body.email, body.password), env, bcrypt, sign);
            && r.Ok?
            && r.value.accessToken == sign(UserInfo(gen.id, body.email), env.accessSecret, env.accessLife)
            && r.value.refreshToken == sign(UserInfo(gen.id, body.email), env.refreshSecret, env.refreshLife)
  {
  }
}
