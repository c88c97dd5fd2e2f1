/**
  src/api/middleware/deserializeUser.ts: finds the access token, then passes
  four gates in a fixed order (a token is present, it verifies, a session
  exists for its subject, the session's user exists) and attaches the user to
  res.locals. It only reads the session store and the user table.
 */
module DeserializeUser {
  import opened Wrappers
  import opened Models
  import opened Strings
  import opened Http
  import opened Jwt
  import opened Redis
  import opened Database
  import opened UserService

  const NotLoggedIn := "You are not logged in"
  const InvalidToken := "Invalid token or user doesn't exist"
  const SessionExpired := "User session has expired"
  const UserGone := "User with that token no longer exists"

  /** The cookie the middleware reads. */
  const TokenCookie := "access_token"

  /**
    The token candidate: an Authorization header starting with "Bearer" gives
    its second space-separated field (undefined when there is none) and the
    cookie is then not consulted; otherwise a non-empty `access_token` cookie.
   */
  function TokenCandidate(req: Request): Option<string> {
    if req.authorization.Some? && StartsWith(req.authorization.value, "Bearer") then
      var fields := Split(req.authorization.value, ' ');
      if |fields| > 1 then Some(fields[1]) else None
    else if TokenCookie in req.cookies && req.cookies[TokenCookie] != "" then
      Some(req.cookies[TokenCookie])
    else
      None
  }

  /** JavaScript truthiness of the candidate: present and not the empty string. */
  predicate HasToken(token: Option<string>) {
    token.Some? && token.value != ""
  }

  /** What the gate chain decides: the user to attach, or the message of the first gate that failed. */
  datatype Verdict = Admit(user: PublicUser) | Deny(message: string)

  /**
    The gate chain with the corrected findUserById: a user is admitted only
    with a token that verifies and a live session, and only a user of the
    table, without its password; a denial carries one of the four messages.
   */
  function Deserialize(req: Request, codec: Codec, entries: Entries, users: seq<User>, now: int): (r: Verdict)
    ensures r.Admit? ==>
      var sub := VerifyJwt(codec, TokenCandidate(req));
      HasToken(TokenCandidate(req)) && sub.Some? && Get(entries, sub.value, now).Some?
    ensures r.Admit? ==> exists u :: u in users && r.user == Omit(u)
    ensures r.Deny? ==> r.message in {NotLoggedIn, InvalidToken, SessionExpired, UserGone}
  {
    var token := TokenCandidate(req);
    if !HasToken(token) then Deny(NotLoggedIn)
    else
      match VerifyJwt(codec, token)
      case None => Deny(InvalidToken)
      case Some(sub) =>
        match Get(entries, sub, now)
        case None => Deny(SessionExpired)
        case Some(session) =>
          match FindUserById(users, StoredId(session))
          case None => Deny(UserGone)
          case Some(user) => Admit(user)
  }

  /** A denial is next(new AppError(message, 401)); an admission is next(). */
  function OutcomeOf(v: Verdict): Outcome {
    match v
    case Admit(_) => Next
    case Deny(message) => NextWith(AppErr(message, Some(401)))
  }

  /**
    The first failing gate decides: each message comes exactly when every
    earlier gate passed and this one failed, and the user is admitted exactly
    when all four pass, with the session's user, looked up by the `_id` in the
    session and not by the token's subject.
   */
  lemma GateOrder(req: Request, codec: Codec, entries: Entries, users: seq<User>, now: int)
    ensures var v := Deserialize(req, codec, entries, users, now);
      var token := TokenCandidate(req);
      var sub := VerifyJwt(codec, token);
      && (v == Deny(NotLoggedIn) <==> !HasToken(token))
      && (v == Deny(InvalidToken) <==> HasToken(token) && sub.None?)
      && (v == Deny(SessionExpired) <==> HasToken(token) && sub.Some? && Get(entries, sub.value, now).None?)
      && (v == Deny(UserGone) <==>
            HasToken(token) && sub.Some? && Get(entries, sub.value, now).Some?
            && FindUserById(users, StoredId(Get(entries, sub.value, now).value)).None?)
      && (v.Admit? <==>
            HasToken(token) && sub.Some? && Get(entries, sub.value, now).Some?
            && FindUserById(users, StoredId(Get(entries, sub.value, now).value)).Some?)
      && (v.Admit? ==> v.user == FindUserById(users, StoredId(Get(entries, sub.value, now).value)).value)
  {
  }

  /** Without a token nothing else is consulted: the codec, the sessions and the users do not matter. */
  lemma NoTokenShortCircuits(req: Request, codec: Codec, entries: Entries, users: seq<User>, now: int,
                             codec': Codec, entries': Entries, users': seq<User>, now': int)
    requires !HasToken(TokenCandidate(req))
    ensures Deserialize(req, codec, entries, users, now) == Deserialize(req, codec', entries', users', now')
    ensures OutcomeOf(Deserialize(req, codec, entries, users, now)) == NextWith(AppErr(NotLoggedIn, Some(401)))
  {
  }

  /** A "Bearer" header shadows the cookie: replacing the cookies changes nothing. */
  lemma BearerHeaderShadowsCookie(req: Request, cookies: map<string, string>)
    requires req.authorization.Some? && StartsWith(req.authorization.value, "Bearer")
    ensures TokenCandidate(req.(cookies := cookies)) == TokenCandidate(req)
  {
  }

  /** "Bearer" alone has no second field, so the request is not logged in even with a valid cookie. */
  lemma BareBearerIsNotLoggedIn(req: Request, codec: Codec, entries: Entries, users: seq<User>, now: int)
    requires req.authorization == Some("Bearer")
    ensures Deserialize(req, codec, entries, users, now) == Deny(NotLoggedIn)
  {
    assert Count("Bearer", ' ') == 0;
  }

  /** "Bearer <token>" gives the token, whatever the cookies hold. */
  lemma BearerToken(req: Request, token: string)
    requires ' ' !in token
    requires req.authorization == Some("Bearer " + token)
    ensures TokenCandidate(req) == Some(token)
  {
    assert "Bearer " + token == "Bearer" + [' '] + token;
    assert ' ' !in "Bearer";
    SplitAfterFirst("Bearer", ' ', token);
    SplitWithoutSeparator(token, ' ');
    assert StartsWith("Bearer " + token, "Bearer");
  }

  /**
    Login sets the cookie `accessToken`, but this middleware reads
    `access_token`: a request carrying only the login cookies is not logged in.
   */
  lemma LoginCookieIsNotRead(token: string, codec: Codec, entries: Entries, users: seq<User>, now: int)
    ensures Deserialize(Request(None, map["accessToken" := token, "logged_in" := "true"], map[], map[]),
                        codec, entries, users, now) == Deny(NotLoggedIn)
  {
  }

  /**
    Deleting a user's session rejects every token that still verifies for
    that user, with 'User session has expired'.
   */
  lemma LoggedOutTokenRejected(req: Request, codec: Codec, entries: Entries, users: seq<User>, now: int, sub: string)
    requires HasToken(TokenCandidate(req))
    requires VerifyJwt(codec, TokenCandidate(req)) == Some(sub)
    ensures Deserialize(req, codec, WithoutKey(entries, sub), users, now) == Deny(SessionExpired)
  {
    DelRemoves(entries, sub, sub, now);
  }

  /**
    The user is loaded by the `_id` inside the session, not by the token's
    subject: whatever subject the session is stored under, its user is
    admitted while it is in the table.
   */
  lemma SessionPayloadPicksUser(req: Request, codec: Codec, entries: Entries, users: seq<User>, now: int,
                                sub: string, holder: User)
    requires HasToken(TokenCandidate(req)) && VerifyJwt(codec, TokenCandidate(req)) == Some(sub)
    requires Get(entries, sub, now) == Some(SessionOf(holder))
    requires FindById(users, holder.id) == Some(holder)
    ensures Deserialize(req, codec, entries, users, now) == Admit(Omit(holder))
  {
  }

  /** The decision as written: the projection findUserById returns as written, `{}` for a missing user. */
  datatype VerdictAsWritten = AdmitAsWritten(projection: Projection) | DenyAsWritten(message: string)

  /**
    deserializeUser as written: the `!user` gate tests a projection, which is
    always truthy, so it never denies; every other gate decides as in the
    corrected chain.
   */
  function DeserializeAsWritten(req: Request, codec: Codec, entries: Entries, users: seq<User>, now: int): (r: VerdictAsWritten)
    ensures r.DenyAsWritten? ==> r.message != UserGone
    ensures var v := Deserialize(req, codec, entries, users, now);
      && (v.Admit? ==> r == AdmitAsWritten(Projected(v.user)))
      && (v.Deny? && v.message != UserGone ==> r == DenyAsWritten(v.message))
  {
    var token := TokenCandidate(req);
    if !HasToken(token) then DenyAsWritten(NotLoggedIn)
    else
      match VerifyJwt(codec, token)
      case None => DenyAsWritten(InvalidToken)
      case Some(sub) =>
        match Get(entries, sub, now)
        case None => DenyAsWritten(SessionExpired)
        case Some(session) =>
          var user := FindUserByIdAsWritten(users, StoredId(session));
          if !Truthy(user) then DenyAsWritten(UserGone) else AdmitAsWritten(user)
  }

  /**
    As written, a live session whose user is gone is admitted with `{}`
    attached, exactly where the corrected chain answers 'User with that
    token no longer exists'.
   */
  lemma {:induction false} AsWrittenAdmitsMissingUser(req: Request, codec: Codec, entries: Entries, users: seq<User>, now: int)
    ensures Deserialize(req, codec, entries, users, now) == Deny(UserGone)
            <==> DeserializeAsWritten(req, codec, entries, users, now) == AdmitAsWritten(EmptyObject)
  {
  }

  /**
    deserializeUser: the gate chain as the source runs it. res.locals.user is
    set exactly when every gate passes; the stores are only read.
   */
  method DeserializeUser(req: Request, res: Response, redis: RedisClient, db: Db, codec: Codec, now: int)
    returns (outcome: Outcome)
    modifies res
    ensures outcome == OutcomeOf(Deserialize(req, codec, redis.entries, db.users, now))
    ensures res.localsUser == match Deserialize(req, codec, redis.entries, db.users, now)
                              case Admit(user) => Some(user)
                              case Deny(_) => old(res.localsUser)
    ensures res.cookies == old(res.cookies)
  {
    var accessToken: Option<string> := None;
    if req.authorization.Some? && StartsWith(req.authorization.value, "Bearer") {
      var fields := Split(req.authorization.value, ' ');
      if |fields| > 1 {
        accessToken := Some(fields[1]);
      }
    } else if TokenCookie in req.cookies && req.cookies[TokenCookie] != "" {
      accessToken := Some(req.cookies[TokenCookie]);
    }

    if !HasToken(accessToken) {
      return NextWith(AppErr(NotLoggedIn, Some(401)));
    }

    var decoded := VerifyJwt(codec, accessToken);
    if decoded.None? {
      return NextWith(AppErr(InvalidToken, Some(401)));
    }

    var session := redis.GetValue(decoded.value, now);
    if session.None? {
      return NextWith(AppErr(SessionExpired, Some(401)));
    }

    var user := FindUserById(db.users, StoredId(session.value));
    if user.None? {
      return NextWith(AppErr(UserGone, Some(401)));
    }

    res.localsUser := user;
    outcome := Next;
  }
}
