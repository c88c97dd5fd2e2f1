/**
  src/api/controllers/auth.controller.ts: register, login, logout and
  refresh, and the cookie options the module builds when it is loaded.
 */
module AuthController {
  import opened Wrappers
  import opened Models
  import opened Config
  import opened Http
  import opened Jwt
  import opened Redis
  import opened Database
  import opened UserService
  import DeserializeUser

  const EmailExists := "Email already exists"
  const InvalidCredentials := "Invalid email or password"
  const RefreshFailed := "Could not refresh access token"

  /** The key name the refresh handler passes to signJwt. */
  const AccessKeyName := "accessTokenPrivateKey"

  function MinutesToMs(minutes: nat): nat {
    minutes * 60 * 1000
  }

  /**
    accessTokenCookieOptions once the module has loaded at `loadTime`
    (milliseconds): `secure` is added only when NODE_ENV is 'production'.
   */
  function AccessCookieOptions(loadTime: int, nodeEnv: string): CookieOptions {
    CookieOptions(
      Some(loadTime + MinutesToMs(AccessTokenExpiresIn)),
      MinutesToMs(AccessTokenExpiresIn),
      Some(true),
      Some("lax"),
      if nodeEnv == "production" then Some(true) else None)
  }

  /** refreshTokenCookieOptions: never secure. */
  function RefreshCookieOptions(loadTime: int): CookieOptions {
    CookieOptions(
      Some(loadTime + MinutesToMs(RefreshTokenExpiresIn)),
      MinutesToMs(RefreshTokenExpiresIn),
      Some(true),
      Some("lax"),
      None)
  }

  /**
    The cookie lifetimes are the configured minutes in milliseconds, 900000
    and 3540000, and `expires` is fixed when the module loads.
   */
  lemma CookieLifetimes(loadTime: int, nodeEnv: string)
    ensures AccessCookieOptions(loadTime, nodeEnv).maxAge == 900000
    ensures RefreshCookieOptions(loadTime).maxAge == 3540000
    ensures AccessCookieOptions(loadTime, nodeEnv).expires == Some(loadTime + 900000)
    ensures RefreshCookieOptions(loadTime).expires == Some(loadTime + 3540000)
  {
  }

  /** Only the access-token options are ever secure, and only in production. */
  lemma SecureOnlyInProduction(loadTime: int, nodeEnv: string)
    ensures AccessCookieOptions(loadTime, nodeEnv).secure == Some(true) <==> nodeEnv == "production"
    ensures RefreshCookieOptions(loadTime).secure != Some(true)
  {
  }

  /** The options of the `logged_in` cookie: the access-token options with httpOnly false. */
  function LoggedInOptions(access: CookieOptions): CookieOptions {
    access.(httpOnly := Some(false))
  }

  /** The cookies login sets, in order. */
  function LoginCookies(accessToken: string, refreshToken: CookieValue, access: CookieOptions, refresh: CookieOptions): seq<Cookie> {
    [ Cookie("accessToken", Text(accessToken), access),
      Cookie("refreshToken", refreshToken, refresh),
      Cookie("logged_in", Flag(true), LoggedInOptions(access)) ]
  }

  /** The cookies refresh sets, in order: the refresh cookie is not among them. */
  function RefreshCookies(accessToken: string, access: CookieOptions): seq<Cookie> {
    [ Cookie("accessToken", Text(accessToken), access),
      Cookie("logged_in", Flag(true), LoggedInOptions(access)) ]
  }

  /** The options logout clears a cookie with: { maxAge: 1 }. */
  const ExpireAtOnce := CookieOptions(None, 1, None, None, None)

  /** The cookies logout sets: `accessToken`, `refreshToken` and `logged_in`, each emptied and expiring after 1 ms. */
  function LogoutCookies(): (r: seq<Cookie>)
    ensures |r| == 3 && r[0].name == "accessToken" && r[1].name == "refreshToken" && r[2].name == "logged_in"
    ensures forall i :: 0 <= i < |r| ==> r[i].value == Text("") && r[i].options == ExpireAtOnce
  {
    [ Cookie("accessToken", Text(""), ExpireAtOnce),
      Cookie("refreshToken", Text(""), ExpireAtOnce),
      Cookie("logged_in", Text(""), ExpireAtOnce) ]
  }

  /**
    Login sets `accessToken`, `refreshToken` and `logged_in`; with the
    module's options only `logged_in` is readable by scripts.
   */
  lemma LoginCookiesShape(accessToken: string, refreshToken: CookieValue, loadTime: int, nodeEnv: string)
    ensures var cs := LoginCookies(accessToken, refreshToken, AccessCookieOptions(loadTime, nodeEnv), RefreshCookieOptions(loadTime));
      && |cs| == 3
      && cs[0].name == "accessToken" && cs[1].name == "refreshToken" && cs[2].name == "logged_in"
      && (forall i :: 0 <= i < |cs| ==> (cs[i].options.httpOnly == Some(false) <==> cs[i].name == "logged_in"))
  {
  }

  /** Logout names the same three cookies as login and expires each after 1 ms. */
  lemma LogoutClearsLoginCookies(accessToken: string, refreshToken: CookieValue, access: CookieOptions, refresh: CookieOptions)
    ensures var login := LoginCookies(accessToken, refreshToken, access, refresh);
      && |LogoutCookies()| == |login|
      && forall i :: 0 <= i < |login| ==> LogoutCookies()[i].name == login[i].name && LogoutCookies()[i].options.maxAge == 1
  {
  }

  datatype LoginInput = LoginInput(email: string, password: string)

  /**
    The login check: the user with this email, provided the password matches
    its hash. `comparePasswords(hash, candidate)` stands for the user model's
    method. An unknown email and a wrong password are both None.
   */
  function CheckCredentials(users: seq<User>, input: LoginInput, comparePasswords: (string, string) -> bool): (r: Option<User>)
    ensures r.Some? <==> FindUser(users, input.email).Some?
                         && comparePasswords(FindUser(users, input.email).value.password, input.password)
    ensures r.Some? ==> r.value.email == input.email && r.value in users
  {
    var user := FindUser(users, input.email);
    if user.None? || !comparePasswords(user.value.password, input.password) then None else user
  }

  /**
    What register answers for the result of createUser: 202 with the user, 409
    for a duplicate email, and any other error passed on to next.
   */
  function RegisterOutcome(created: Result<PublicUser, StoreError>): (r: Outcome)
    ensures r.Respond? <==> created.Success? || created.error.code == Some(DuplicateKey)
    ensures created.Success? ==> r == Respond(202, UserCreated(created.value))
    ensures created.Failure? && created.error.code == Some(DuplicateKey) ==> r == Respond(409, Fail("fail", EmailExists))
    ensures created.Failure? && created.error.code != Some(DuplicateKey) ==> r == NextWith(Thrown(created.error))
  {
    match created
    case Success(user) => Respond(202, UserCreated(user))
    case Failure(e) =>
      if e.code == Some(DuplicateKey) then Respond(409, Fail("fail", EmailExists)) else NextWith(Thrown(e))
  }

  /**
    The refresh gates: the `refreshToken` cookie verifies, a session exists
    for its subject, and the session's user exists.
   */
  function Refresh(req: Request, codec: Codec, entries: Entries, users: seq<User>, now: int): (r: Option<PublicUser>)
    ensures r.Some? <==>
      var sub := VerifyJwt(codec, Lookup(req.cookies, "refreshToken"));
      && sub.Some?
      && Get(entries, sub.value, now).Some?
      && FindUserById(users, StoredId(Get(entries, sub.value, now).value)).Some?
  {
    match VerifyJwt(codec, Lookup(req.cookies, "refreshToken"))
    case None => None
    case Some(sub) =>
      match Get(entries, sub, now)
      case None => None
      case Some(session) => FindUserById(users, StoredId(session))
  }

  /**
    The refresh gates as written: the `!user` test sees what findUserById
    returns as written, so a session whose user is gone passes with `{}`.
   */
  function RefreshAsWritten(req: Request, codec: Codec, entries: Entries, users: seq<User>, now: int): (r: Option<Projection>)
    ensures r.Some? <==>
      var sub := VerifyJwt(codec, Lookup(req.cookies, "refreshToken"));
      sub.Some? && Get(entries, sub.value, now).Some?
    ensures Refresh(req, codec, entries, users, now).Some? ==>
      r == Some(Projected(Refresh(req, codec, entries, users, now).value))
    ensures r.Some? && Refresh(req, codec, entries, users, now).None? ==> r == Some(EmptyObject)
  {
    match VerifyJwt(codec, Lookup(req.cookies, "refreshToken"))
    case None => None
    case Some(sub) =>
      match Get(entries, sub, now)
      case None => None
      case Some(session) =>
        var user := FindUserByIdAsWritten(users, StoredId(session));
        if !Truthy(user) then None else Some(user)
  }

  /**
    The refresh token is not rotated: the cookies a refresh sets leave the
    `refreshToken` cookie as it was, so the client's next refresh passes the
    same gates with the same user.
   */
  lemma RefreshRepeats(req: Request, codec: Codec, entries: Entries, users: seq<User>, now: int,
                       accessToken: string, access: CookieOptions)
    ensures var after := req.(cookies := StoreCookies(req.cookies, RefreshCookies(accessToken, access)));
      Refresh(after, codec, entries, users, now) == Refresh(req, codec, entries, users, now)
  {
    var cs := RefreshCookies(accessToken, access);
    assert forall i :: 0 <= i < |cs| ==> cs[i].name != "refreshToken";
  }

  /**
    The refresh token is checked with the same verify as the access token, so
    an access token in the `refreshToken` cookie refreshes while its session lives.
   */
  lemma AccessTokenRefreshes(codec: Codec, u: User, users: seq<User>, entries: Entries, loginAt: int, now: int)
    requires RoundTrips(codec)
    requires FindById(users, u.id) == Some(u)
    requires now < loginAt + 3600
    ensures var access := codec.sign(u.id, ExpiresIn(AccessExpiry()));
      Refresh(Request(None, map["refreshToken" := access], map[], map[]), codec,
              SessionAfterSign(entries, u, loginAt), users, now) == Some(Omit(u))
  {
    var access := codec.sign(u.id, ExpiresIn(AccessExpiry()));
    assert codec.verify(access) == Some(u.id);
    SignTokenSession(entries, u, loginAt, u.id, now, u, now);
  }

  /**
    The sign-in scenario: after a successful login, the access token sent as
    "Bearer <token>" is admitted with the user's public projection; after
    logout deletes the session, the same token is refused with
    'User session has expired'.
   */
  lemma LoginLogoutScenario(codec: Codec, users: seq<User>, input: LoginInput, comparePasswords: (string, string) -> bool,
                            entries: Entries, loginAt: int, now: int, req: Request)
    requires RoundTrips(codec)
    requires CheckCredentials(users, input, comparePasswords).Some?
    requires var u := CheckCredentials(users, input, comparePasswords).value;
      FindById(users, u.id) == Some(u)
    requires loginAt <= now < loginAt + 3600
    requires var u := CheckCredentials(users, input, comparePasswords).value;
      var token := codec.sign(u.id, ExpiresIn(AccessExpiry()));
      token != "" && ' ' !in token && req.authorization == Some("Bearer " + token)
    ensures var u := CheckCredentials(users, input, comparePasswords).value;
      var signedIn := SessionAfterSign(entries, u, loginAt);
      && DeserializeUser.Deserialize(req, codec, signedIn, users, now) == DeserializeUser.Admit(Omit(u))
      && DeserializeUser.Deserialize(req, codec, WithoutKey(signedIn, u.id), users, now)
         == DeserializeUser.Deny(DeserializeUser.SessionExpired)
  {
    var u := CheckCredentials(users, input, comparePasswords).value;
    var token := codec.sign(u.id, ExpiresIn(AccessExpiry()));
    DeserializeUser.BearerToken(req, token);
    assert codec.verify(token) == Some(u.id);
    SignTokenSession(entries, u, loginAt, u.id, now, u, now);
    DeserializeUser.LoggedOutTokenRejected(req, codec, SessionAfterSign(entries, u, loginAt), users, now, u.id);
  }

  /** The controller module: its cookie options are built once, when it loads. */
  class AuthController {
    var accessTokenCookieOptions: CookieOptions
    var refreshTokenCookieOptions: CookieOptions

    constructor (loadTime: int, nodeEnv: string)
      ensures accessTokenCookieOptions == AccessCookieOptions(loadTime, nodeEnv)
      ensures refreshTokenCookieOptions == RefreshCookieOptions(loadTime)
    {
      accessTokenCookieOptions := CookieOptions(
        Some(loadTime + AccessTokenExpiresIn * 60 * 1000), AccessTokenExpiresIn * 60 * 1000,
        Some(true), Some("lax"), None);
      refreshTokenCookieOptions := CookieOptions(
        Some(loadTime + RefreshTokenExpiresIn * 60 * 1000), RefreshTokenExpiresIn * 60 * 1000,
        Some(true), Some("lax"), None);
      new;
      if nodeEnv == "production" {
        accessTokenCookieOptions := accessTokenCookieOptions.(secure := Some(true));
      }
    }

    /**
      registerHandler: 202 with the created user (no password); 409 'Email
      already exists' on a duplicate key; any other error goes to next unchanged.
     */
    method RegisterHandler(db: Db, body: CreateUserInput, newId: string, hooks: UserModelHooks, fault: Option<StoreError>)
      returns (outcome: Outcome)
      modifies db
      ensures fault.Some? ==> outcome == RegisterOutcome(Failure(fault.value)) && db.users == old(db.users)
      ensures fault.None? && FindUser(old(db.users), body.email).Some? ==>
        outcome == Respond(409, Fail("fail", EmailExists)) && db.users == old(db.users)
      ensures fault.None? && FindUser(old(db.users), body.email).None? ==>
        outcome == Respond(202, UserCreated(Omit(NewUser(body, newId, hooks))))
        && db.users == old(db.users) + [NewUser(body, newId, hooks)]
      ensures db.collections == old(db.collections)
    {
      var created := CreateUser(db, body, newId, hooks, fault);
      match created {
        case Success(user) =>
          outcome := Respond(202, UserCreated(user));
        case Failure(e) =>
          if e.code == Some(DuplicateKey) {
            return Respond(409, Fail("fail", EmailExists));
          }
          outcome := NextWith(Thrown(e));
      }
    }

    /**
      loginHandler: an unknown email and a wrong password get the same
      next(AppError('Invalid email or password', 401)) and change nothing.
      Otherwise signToken writes the session, three cookies are set and the
      answer is 200 with the access token. signToken returns no refresh
      token, so the `refreshToken` cookie is set to undefined.
     */
    method LoginHandler(body: LoginInput, db: Db, redis: RedisClient, res: Response, codec: Codec,
                        comparePasswords: (string, string) -> bool, now: int)
      returns (outcome: Outcome)
      modifies redis, res
      ensures var user := CheckCredentials(db.users, body, comparePasswords);
        user.None? ==>
          && outcome == NextWith(AppErr(InvalidCredentials, Some(401)))
          && redis.entries == old(redis.entries)
          && res.cookies == old(res.cookies)
      ensures var user := CheckCredentials(db.users, body, comparePasswords);
        user.Some? ==>
          var token := codec.sign(user.value.id, ExpiresIn(AccessExpiry()));
          && outcome == Respond(200, LoggedIn(token, user.value))
          && redis.entries == SessionAfterSign(old(redis.entries), user.value, now)
          && res.cookies == old(res.cookies) + LoginCookies(token, Undefined, accessTokenCookieOptions, refreshTokenCookieOptions)
      ensures res.localsUser == old(res.localsUser)
    {
      var user := FindUser(db.users, body.email);
      if user.None? || !comparePasswords(user.value.password, body.password) {
        return NextWith(AppErr(InvalidCredentials, Some(401)));
      }
      var tokens := SignToken(redis, codec, user.value, now);
      var refreshToken: CookieValue := Undefined;  // not a field of what signToken returns
      res.SetCookie("accessToken", Text(tokens.accessToken), accessTokenCookieOptions);
      res.SetCookie("refreshToken", refreshToken, refreshTokenCookieOptions);
      res.SetCookie("logged_in", Flag(true), LoggedInOptions(accessTokenCookieOptions));
      outcome := Respond(200, LoggedIn(tokens.accessToken, user.value));
    }

    /**
      logoutHandler (mounted after deserializeUser and requireUser, so a user
      is attached): deletes exactly the session key of that user, clears the
      three cookies and answers 200.
     */
    method LogoutHandler(res: Response, redis: RedisClient) returns (outcome: Outcome)
      requires res.localsUser.Some?
      modifies res, redis
      ensures redis.entries == WithoutKey(old(redis.entries), old(res.localsUser).value.id)
      ensures res.cookies == old(res.cookies) + LogoutCookies()
      ensures res.localsUser == old(res.localsUser)
      ensures outcome == Respond(200, Ok)
    {
      var user := res.localsUser.value;
      redis.Del(user.id);
      res.SetCookie("accessToken", Text(""), ExpireAtOnce);
      res.SetCookie("refreshToken", Text(""), ExpireAtOnce);
      res.SetCookie("logged_in", Text(""), ExpireAtOnce);
      outcome := Respond(200, Ok);
    }

    /**
      refreshAccessTokenHandler: every failing gate gives the same
      next(AppError('Could not refresh access token', 403)). On success a new
      access token is signed (the call passes the key name where the helper
      takes its options) and sent; no session is written and the refresh
      cookie is not replaced.
     */
    method RefreshAccessTokenHandler(req: Request, db: Db, redis: RedisClient, res: Response, codec: Codec, now: int)
      returns (outcome: Outcome)
      modifies res
      ensures var user := Refresh(req, codec, redis.entries, db.users, now);
        user.None? ==> outcome == NextWith(AppErr(RefreshFailed, Some(403))) && res.cookies == old(res.cookies)
      ensures var user := Refresh(req, codec, redis.entries, db.users, now);
        user.Some? ==>
          var token := codec.sign(user.value.id, KeyName(AccessKeyName));
          && outcome == Respond(200, Refreshed(token))
          && res.cookies == old(res.cookies) + RefreshCookies(token, accessTokenCookieOptions)
      ensures res.localsUser == old(res.localsUser)
    {
      var refreshToken := Lookup(req.cookies, "refreshToken");
      var decoded := VerifyJwt(codec, refreshToken);
      if decoded.None? {
        return NextWith(AppErr(RefreshFailed, Some(403)));
      }
      var session := redis.GetValue(decoded.value, now);
      if session.None? {
        return NextWith(AppErr(RefreshFailed, Some(403)));
      }
      var user := FindUserById(db.users, StoredId(session.value));
      if user.None? {
        return NextWith(AppErr(RefreshFailed, Some(403)));
      }
      var accessToken := SignJwt(codec, user.value.id, KeyName(AccessKeyName));
      res.SetCookie("accessToken", Text(accessToken), accessTokenCookieOptions);
      res.SetCookie("logged_in", Flag(true), LoggedInOptions(accessTokenCookieOptions));
      outcome := Respond(200, Refreshed(accessToken));
    }
  }
}
