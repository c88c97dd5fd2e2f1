/**
  src/api/services/user.service.ts: user lookups over the users in their
  natural order, user creation, and signToken, which signs an access token and
  writes the session.
 */
module UserService {
  import opened Wrappers
  import opened Models
  import opened Config
  import opened Strings
  import opened Http
  import opened Jwt
  import opened Redis
  import opened Database

  /** The session lifetime signToken sets: 60 * 60 seconds. */
  const SessionSeconds: nat := 60 * 60

  datatype CreateUserInput = CreateUserInput(email: string, username: string, password: string)

  /** findById: the first user with this id, password included. */
  function FindById(users: seq<User>, id: string): (r: Option<User>)
    ensures r.Some? <==> exists i :: 0 <= i < |users| && users[i].id == id
    ensures r.Some? ==> r.value.id == id && r.value in users
  {
    if users == [] then None
    else if users[0].id == id then Some(users[0])
    else FindById(users[1..], id)
  }

  /**
    findUser({ email }) with '+password': the first user with this email, and
    the only lookup whose result keeps the password hash.
   */
  function FindUser(users: seq<User>, email: string): (r: Option<User>)
    ensures r.Some? <==> exists i :: 0 <= i < |users| && users[i].email == email
    ensures r.Some? ==> exists i :: 0 <= i < |users| && users[i] == r.value && r.value.email == email
                          && forall j :: 0 <= j < i ==> users[j].email != email
  {
    if users == [] then None
    else if users[0].email == email then Some(users[0])
    else
      var r := FindUser(users[1..], email);
      if r.Some? then
        var i :| 0 <= i < |users[1..]| && users[1..][i] == r.value && r.value.email == email
                 && forall j :: 0 <= j < i ==> users[1..][j].email != email;
        assert users[i + 1] == r.value;
        r
      else r
  }

  /**
    findUserById, corrected: the user with this id without its password, or
    None when there is none.
   */
  function FindUserById(users: seq<User>, id: string): (r: Option<PublicUser>)
    ensures r.Some? <==> exists i :: 0 <= i < |users| && users[i].id == id
    ensures r.Some? ==> r.value.id == id && exists u :: u in users && r.value == Omit(u)
  {
    match FindById(users, id)
    case None => None
    case Some(u) => Some(Omit(u))
  }

  /** What omit(x, ['password']) gives: a projection, or `{}` when x is null. Both are objects. */
  datatype Projection = Projected(user: PublicUser) | EmptyObject

  /** JavaScript truthiness of a projection: every object is truthy. */
  predicate Truthy(p: Projection) {
    p.Projected? || p.EmptyObject?
  }

  /** findUserById as written: omit is applied to the null that findById gives for a missing id. */
  function FindUserByIdAsWritten(users: seq<User>, id: string): (r: Projection)
    ensures r.EmptyObject? <==> FindUserById(users, id).None?
  {
    match FindById(users, id)
    case None => EmptyObject
    case Some(u) => Projected(Omit(u))
  }

  /**
    As written, the `!user` checks after findUserById can never fire: a
    missing user comes back as `{}`, which is truthy.
   */
  lemma AsWrittenMissingUserIsTruthy(users: seq<User>, id: string)
    requires forall i :: 0 <= i < |users| ==> users[i].id != id
    ensures FindUserByIdAsWritten(users, id) == EmptyObject && Truthy(FindUserByIdAsWritten(users, id))
    ensures FindUserById(users, id) == None
  {
  }

  /** A concrete instance: in an empty user table, the as-written lookup of "u1" is the truthy `{}`. */
  lemma AsWrittenCounterexample()
    ensures Truthy(FindUserByIdAsWritten([], "u1")) && FindUserById([], "u1").None?
  {
  }

  /**
    What the user model (not part of this model) adds on create: its pre-save
    hook hashes the password, and its schema gives the role a default.
   */
  datatype UserModelHooks = UserModelHooks(hashPassword: string -> string, defaultRole: string)

  function NewUser(input: CreateUserInput, id: string, hooks: UserModelHooks): User {
    User(id, input.email, input.username, hooks.hashPassword(input.password), hooks.defaultRole)
  }

  /**
    createUser: inserts the user and returns it without the password. A
    second user with the same email is refused with the duplicate-key code
    11000; `fault` is any other error the store raises.
   */
  method CreateUser(db: Db, input: CreateUserInput, newId: string, hooks: UserModelHooks, fault: Option<StoreError>)
    returns (r: Result<PublicUser, StoreError>)
    modifies db
    ensures fault.Some? ==> r == Failure(fault.value) && db.users == old(db.users)
    ensures fault.None? && FindUser(old(db.users), input.email).Some? ==>
      r == Failure(StoreError(Some(DuplicateKey))) && db.users == old(db.users)
    ensures fault.None? && FindUser(old(db.users), input.email).None? ==>
      db.users == old(db.users) + [NewUser(input, newId, hooks)] && r == Success(Omit(NewUser(input, newId, hooks)))
    ensures db.collections == old(db.collections)
  {
    if fault.Some? {
      return Failure(fault.value);
    }
    if FindUser(db.users, input.email).Some? {
      return Failure(StoreError(Some(DuplicateKey)));
    }
    var user := NewUser(input, newId, hooks);
    db.users := db.users + [user];
    r := Success(Omit(user));
  }

  /** The `expiresIn` text signToken passes: "<minutes>m". */
  function AccessExpiry(): string {
    NatText(AccessTokenExpiresIn) + "m"
  }

  /** The single result field of signToken. */
  datatype SignedTokens = SignedTokens(accessToken: string)

  /** The session store after signToken: one entry, keyed by the user's id, holding the user, alive for an hour. */
  function SessionAfterSign(entries: Entries, user: User, now: int): Entries {
    WithSetEx(entries, user.id, SessionSeconds, SessionOf(user), now)
  }

  /**
    signToken writes exactly one session entry: the user's own id reads back
    the user for an hour, and every other key reads as before. A later
    sign-in of the same user overwrites it.
   */
  lemma SignTokenSession(entries: Entries, user: User, now: int, other: string, t: int, later: User, t2: int)
    ensures Get(SessionAfterSign(entries, user, now), user.id, t) == (if t < now + 3600 then Some(SessionOf(user)) else None)
    ensures other != user.id ==> Get(SessionAfterSign(entries, user, now), other, t) == Get(entries, other, t)
    ensures later.id == user.id ==>
      SessionAfterSign(SessionAfterSign(entries, user, now), later, t2) == SessionAfterSign(entries, later, t2)
  {
    GetAfterSetEx(entries, user.id, SessionSeconds, SessionOf(user), now, other, t);
  }

  /**
    signToken: signs { sub: user._id } for "15m" and writes the session
    (the write is not awaited in the source; here it happens in order).
    Only an access token comes back.
   */
  method SignToken(redis: RedisClient, codec: Codec, user: User, now: int) returns (tokens: SignedTokens)
    modifies redis
    ensures tokens == SignedTokens(codec.sign(user.id, ExpiresIn(AccessExpiry())))
    ensures redis.entries == SessionAfterSign(old(redis.entries), user, now)
  {
    var accessToken := SignJwt(codec, user.id, ExpiresIn(AccessExpiry()));
    redis.SetEx(user.id, SessionSeconds, SessionOf(user), now);
    tokens := SignedTokens(accessToken);
  }
}
