/**
  The parts of an Express request and response the core reads or writes, and
  what a middleware or handler does in the end: call next(), call next(err),
  or answer with a status and a JSON body.
 */
module Http {
  import opened Wrappers
  import opened Models

  /** The Mongo error code of a duplicate key. */
  const DuplicateKey: int := 11000

  /** An error thrown by a store call; `code` is its error code when it has one. */
  datatype StoreError = StoreError(code: Option<int>)

  /** The argument of next(err). */
  datatype Failure =
    | AppErr(message: string, statusCode: Option<int>)  // new AppError(message[, statusCode])
    | Thrown(error: StoreError)                          // a caught error, passed on unchanged

  /** The JSON bodies the core sends. */
  datatype Body =
    | Ok                                             // { status: 'success' }
    | Fail(status: string, message: string)          // { status, message }
    | Failed(error: string)                          // { status: 'failed', data: { error } }
    | UserCreated(created: PublicUser)               // { status: 'success', data: { user } }
    | LoggedIn(accessToken: string, account: User)   // { status: 'success', accessToken, user }
    | Refreshed(accessToken: string)                 // { status: 'success', accessToken }
    | CollectionCreated(collection: Collection)      // { status: 'success', data: { collection } }
    | CollectionList(collections: map<string, Collection>)
    | CollectionData(fromCache: bool, data: Stored)  // { status: 'success', data: { fromCache, data } }

  datatype Outcome =
    | Next                                 // next()
    | NextWith(failure: Failure)           // next(err)
    | Respond(status: int, body: Body)     // res.status(status).json(body)

  /** The value given to res.cookie: a string, a boolean, or undefined. */
  datatype CookieValue = Text(text: string) | Flag(flag: bool) | Undefined

  /** Express CookieOptions; `expires` is a time in milliseconds, `maxAge` a duration in milliseconds. */
  datatype CookieOptions = CookieOptions(
    expires: Option<int>,
    maxAge: int,
    httpOnly: Option<bool>,
    sameSite: Option<string>,
    secure: Option<bool>)

  datatype Cookie = Cookie(name: string, value: CookieValue, options: CookieOptions)

  datatype Request = Request(
    authorization: Option<string>,   // req.headers.authorization
    cookies: map<string, string>,    // req.cookies
    params: map<string, string>,     // req.params
    query: map<string, string>)      // req.query

  /** A named entry of req.params, req.query or req.cookies; undefined when absent. */
  function Lookup(m: map<string, string>, name: string): Option<string> {
    if name in m then Some(m[name]) else None
  }

  /** The text a cookie value is sent as: express writes String(value). */
  function CookieText(v: CookieValue): string {
    match v
    case Text(t) => t
    case Flag(b) => if b then "true" else "false"
    case Undefined => "undefined"
  }

  /**
    The cookies a client sends back after a response set `cs`, in order, on
    top of `jar` (expiry aside): a cookie that is not set keeps its value.
   */
  function StoreCookies(jar: map<string, string>, cs: seq<Cookie>): (r: map<string, string>)
    ensures forall name :: (forall i :: 0 <= i < |cs| ==> cs[i].name != name) ==> Lookup(r, name) == Lookup(jar, name)
    ensures forall i :: 0 <= i < |cs| ==> cs[i].name in r
    decreases |cs|
  {
    if cs == [] then jar
    else
      var r := StoreCookies(jar[cs[0].name := CookieText(cs[0].value)], cs[1..]);
      assert forall i :: 1 <= i < |cs| ==> cs[i] == cs[1..][i - 1];
      assert cs[0].name in r by {
        if forall i :: 0 <= i < |cs[1..]| ==> cs[1..][i].name != cs[0].name {
          assert Lookup(r, cs[0].name) == Some(CookieText(cs[0].value));
        }
      }
      r
  }

  /** The response state the core changes in place: res.locals.user and the cookies set, in order. */
  class Response {
    var localsUser: Option<PublicUser>
    var cookies: seq<Cookie>

    constructor ()
      ensures localsUser == None && cookies == []
    {
      localsUser := None;
      cookies := [];
    }

    /** res.cookie(name, value, options) */
    method SetCookie(name: string, value: CookieValue, options: CookieOptions)
      modifies this
      ensures cookies == old(cookies) + [Cookie(name, value, options)]
      ensures localsUser == old(localsUser)
    {
      cookies := cookies + [Cookie(name, value, options)];
    }
  }
}
