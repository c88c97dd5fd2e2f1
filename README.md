# Vocab builder backend: authentication, sessions and collection gates

This project models the request-handling core of an Express/TypeScript
vocabulary-builder backend and proves properties of it in Dafny:

- the authentication chain: `deserializeUser` finds an access token (a
  `Bearer` header or the `access_token` cookie) and passes four gates in
  order (a token is present, it verifies, a Redis session exists for its
  subject, the session's user exists) before attaching the user to
  `res.locals`; `requireUser` and `restrictTo` gate on that user;
- the auth controller: register, login (password check, session write,
  three cookies), logout (session delete, cookies cleared) and refresh;
- the user service: password-free projections, the `+password` lookup and
  `signToken`, which writes a one-hour session;
- the collection gates and handlers: `checkCollection` (404 before 403),
  the Redis cache middleware (`cacheData`, `deleteCacheData`), the
  collection controller and the collection service, including `createCard`;
- the zod request-body schemas, the `AppError` class and the text helpers.

State is explicit. The user table is a sequence of users in their natural
order (a `findOne` returns the first match); the collection table maps ids to
collections (`Database.Db`); Redis is one key space of entries with an
optional expiry time, read at an explicit `now` (`Redis.RedisClient`);
`res.locals.user` and the cookies set live in `Http.Response`. Handlers
return an `Http.Outcome`: `Next` (next()), `NextWith` (next(err)) or
`Respond` (a status and a JSON body). Signing and verifying tokens, password
comparison, password hashing, lodash `startCase`, and fresh ids come in as
parameters (`Jwt.Codec`, a comparison function, `UserService.UserModelHooks`,
a `startCase` function, id strings), since their definitions are outside the
modelled code.

The source mixes revisions, and the model follows the code as written,
with two exceptions. First, the gate chains of `deserializeUser` and of
refresh are built on the corrected `findUserById` of "## Findings", which
gives nothing for a missing user; `DeserializeUser.DeserializeAsWritten` and
`AuthController.RefreshAsWritten` are those chains on the lookup as written,
where the `!user` gate never fires. Second, ids are strings, so logout's
Redis delete, which is given the ObjectId itself, is modelled as a delete of
the id's text (see `AuthController.AuthController.LogoutHandler` under
"## Left out"). Otherwise:

- `signJwt`/`verifyJwt` take no key-name argument (src/api/helpers/jwt.ts:9,
  :25) but the controllers pass one. In JavaScript the extra argument of
  `verifyJwt` is ignored, so refresh tokens are checked with the access key;
  in refresh the key name lands in `signJwt`'s options slot
  (`Jwt.SignArg.KeyName`).
- `signToken` returns only `accessToken`, so login sets the `refreshToken`
  cookie to `undefined` (`Http.CookieValue.Undefined`).
- Login sets the cookie `accessToken` while `deserializeUser` reads
  `access_token` (`DeserializeUser.LoginCookieIsNotRead`).
- The routes declare `:collectionId` but the collection handlers read
  `req.params.id`, which is then undefined; Mongoose's `findById(undefined)`
  finds nothing (`CollectionController.RouteParameterMismatch`).

## Model

| member | source | states |
|---|---|---|
| DeserializeUser.GateOrder | src/api/middleware/deserializeUser.ts:30-62 | with the corrected lookup, the first failing gate decides: each of the four messages comes exactly when the earlier gates passed and this one failed; the user is admitted exactly when all four pass, with the session's user |
| DeserializeUser.NoTokenShortCircuits | src/api/middleware/deserializeUser.ts:30-32 | with no token the answer is next(401 'You are not logged in') whatever the codec, sessions and users are |
| DeserializeUser.BearerHeaderShadowsCookie | src/api/middleware/deserializeUser.ts:21-28 | a header starting with "Bearer" decides the token; the cookies are not consulted |
| DeserializeUser.BareBearerIsNotLoggedIn | src/api/middleware/deserializeUser.ts:21-32 | the header "Bearer" alone gives no token, so the request is not logged in even with a cookie |
| DeserializeUser.BearerToken | src/api/middleware/deserializeUser.ts:25 | "Bearer <token>" with a space-free token yields exactly that token |
| DeserializeUser.LoginCookieIsNotRead | src/api/middleware/deserializeUser.ts:26 | a request carrying only the cookies login sets (`accessToken`, `logged_in`) is not logged in |
| DeserializeUser.LoggedOutTokenRejected | src/api/middleware/deserializeUser.ts:45-50 | once the session key of the token's subject is deleted, a token that still verifies is refused with 'User session has expired' |
| DeserializeUser.Deserialize | src/api/middleware/deserializeUser.ts:19-62 | with the corrected lookup, a user is admitted only with a token that verifies and a live session, and only a user of the table without its password; a denial carries one of the four messages |
| DeserializeUser.SessionPayloadPicksUser | src/api/middleware/deserializeUser.ts:45-53 | for every request, the session is found by the token's subject but the user admitted is the one whose `_id` the session holds |
| DeserializeUser.DeserializeAsWritten | src/api/middleware/deserializeUser.ts:19-62 | as written, the `!user` gate never denies; an admitted user of the corrected chain is admitted with its projection, and every other denial is the same |
| DeserializeUser.AsWrittenAdmitsMissingUser | src/api/middleware/deserializeUser.ts:52-58 | as written, `{}` is attached exactly where the corrected chain answers 'User with that token no longer exists' |
| DeserializeUser.DeserializeUser | src/api/middleware/deserializeUser.ts:13-66 | the imperative chain, with the corrected lookup, answers as the gate specification; res.locals.user is set exactly when every gate passes; cookies unchanged; the stores are only read |
| ApiRequireUser.RequireUser | src/api/middleware/requireUser.ts:8-24 | next() exactly when a user is attached; otherwise next(AppError('Invalid token or session has expired')) with no status code |
| ApiRequireUser.AnyUserPasses | src/api/middleware/requireUser.ts:16-20 | every attached user passes, whichever it is |
| RequireUser.RequireUser | src/middleware/requireUser.ts:8-24 | next() exactly when a user is attached; otherwise next(AppError('Invalid token or session has expired')) with no status code, which is a 500 AppError with status 'error' |
| RequireUser.RejectionError | src/middleware/requireUser.ts:17 | the rejection error has status code 500, status 'error', the message and isOperational |
| RestrictTo.RestrictTo | src/middleware/restrictTo.ts:8-19 | next() exactly when the user's role equals one of the allowed roles; otherwise next(AppError 403 'You are not allowed to perform this action') |
| RestrictTo.EmptyRolesRejectAll | src/middleware/restrictTo.ts:9-15 | an empty list of roles rejects every user |
| RestrictTo.OnlyRoleMatters | src/middleware/restrictTo.ts:12 | users with the same role get the same answer, and reordering the roles changes nothing |
| RestrictTo.RejectionFails | src/middleware/restrictTo.ts:13-15 | a rejection is an AppError with status code 403 and status 'fail' |
| AppErrors.NewAppError | src/utils/appError.ts:8-12 | the message is kept, isOperational is true, the status code defaults to 500, the status is 'fail' or 'error' |
| AppErrors.FailIffLeadingFour | src/utils/appError.ts:11 | the status is 'fail' exactly when the decimal text of the code starts with '4' |
| AppErrors.ThreeDigitCodes | src/utils/appError.ts:11 | for codes 100 to 999, 'fail' exactly for 400 to 499 |
| AppErrors.PrefixNotRange | src/utils/appError.ts:11 | 4, 40 and 4000 are 'fail' too; a negative code is 'error' |
| AppErrors.DefaultIsServerError | src/utils/appError.ts:8-11 | with no code the error is 500 with status 'error' |
| AuthController.CookieLifetimes | src/api/controllers/auth.controller.ts:17-34 | the cookie maxAge is minutes × 60 × 1000, 900000 and 3540000 with the defaults, and the options' expires is the load time plus that |
| AuthController.SecureOnlyInProduction | src/api/controllers/auth.controller.ts:36-38 | the access-token options are secure exactly when NODE_ENV is 'production'; the refresh options never are |
| AuthController.LoginCookiesShape | src/api/controllers/auth.controller.ts:110-115 | login sets `accessToken`, `refreshToken`, `logged_in` in that order and only `logged_in` is not httpOnly |
| AuthController.LogoutCookies | src/api/controllers/auth.controller.ts:129-135 | logout sets `accessToken`, `refreshToken` and `logged_in`, each to the empty string with maxAge 1 |
| AuthController.LogoutClearsLoginCookies | src/api/controllers/auth.controller.ts:129-135 | logout clears the same three cookies login sets, each with maxAge 1 |
| AuthController.CheckCredentials | src/api/controllers/auth.controller.ts:96-104 | a user is accepted exactly when the email is found and the password matches its hash; the accepted user has that email |
| AuthController.RegisterOutcome | src/api/controllers/auth.controller.ts:55-77 | 202 with the created user on success, 409 'Email already exists' on code 11000, any other error forwarded to next |
| AuthController.Refresh | src/api/controllers/auth.controller.ts:174-204 | with the corrected lookup, refresh passes its gates exactly when the refresh cookie verifies, a session exists for its subject and the session's user exists |
| AuthController.RefreshAsWritten | src/api/controllers/auth.controller.ts:174-204 | as written, the gates pass exactly when the refresh cookie verifies and a session exists; a missing user passes as `{}` |
| AuthController.RefreshRepeats | src/api/controllers/auth.controller.ts:206-216 | the cookies a refresh sets leave the `refreshToken` cookie alone, so the next refresh passes the same gates with the same user: no rotation |
| AuthController.AccessTokenRefreshes | src/api/controllers/auth.controller.ts:177-180 | with one key pair, an access token in the `refreshToken` cookie refreshes while its session lives |
| AuthController.LoginLogoutScenario | src/api/controllers/auth.controller.ts:96-153 | after a login, the access token sent as a Bearer header admits the user; after the session is deleted, the same token is refused with 'User session has expired' |
| AuthController.AuthController.constructor | src/api/controllers/auth.controller.ts:17-38 | the cookie options are those of the specification functions, secure added in production |
| AuthController.AuthController.RegisterHandler | src/api/controllers/auth.controller.ts:47-78 | 202 with the created user; 409 'Email already exists' on a duplicate email or code 11000; any other error forwarded unchanged |
| AuthController.AuthController.LoginHandler | src/api/controllers/auth.controller.ts:88-126 | unknown email and wrong password give the same next(401 'Invalid email or password') and change nothing; otherwise the session is written, three cookies set (refresh value undefined) and 200 with the token and user |
| AuthController.AuthController.LogoutHandler | src/api/controllers/auth.controller.ts:144-157 | with ids as strings, deletes exactly the user's session key, clears the three cookies, answers 200 |
| AuthController.AuthController.RefreshAccessTokenHandler | src/api/controllers/auth.controller.ts:166-226 | with the corrected lookup, every failing gate gives next(403 'Could not refresh access token'); success signs a new access token, sets `accessToken` and `logged_in` only, answers 200; no session write |
| UserService.FindById | src/api/services/user.service.ts:21-22 | found exactly when some user has the id; the result has that id and is in the table |
| UserService.FindUser | src/api/services/user.service.ts:32-37 | the first user with the email, password included; none exactly when no user has it |
| UserService.FindUserById | src/api/services/user.service.ts:21-24 | corrected: the user with the id without its password, or nothing when there is none |
| UserService.FindUserByIdAsWritten | src/api/services/user.service.ts:21-24 | as written: a missing id gives the empty object exactly when the corrected lookup gives nothing |
| UserService.AsWrittenMissingUserIsTruthy | src/api/services/user.service.ts:23 | as written, a missing user comes back as `{}`, which is truthy, so the callers' `!user` checks never fire |
| UserService.AsWrittenCounterexample | src/api/services/user.service.ts:23 | in an empty user table, the lookup of "u1" is truthy as written |
| UserService.CreateUser | src/api/services/user.service.ts:15-18 | inserts the new user and returns it without the password; a duplicate email is error 11000; another store error is passed on; the collections are untouched |
| UserService.SignTokenSession | src/api/services/user.service.ts:51 | signToken's write makes the user's id read back the user for 3600 seconds, leaves every other key alone, and a later sign-in overwrites it |
| UserService.SignToken | src/api/services/user.service.ts:40-55 | signs the user's id with expiresIn "15m", writes exactly that session, returns only the access token |
| Models.OmitForgetsOnlyPassword | src/api/controllers/auth.controller.ts:14 | two users project alike exactly when they differ at most in the password |
| Redis.GetAfterSetEx | src/api/services/user.service.ts:51 | after SETEX the key reads its value until the lifetime ends, and no other key changes |
| Redis.SetExLastWriteWins | src/api/services/user.service.ts:51 | the last SETEX on a key wins |
| Redis.SetNxKeepsLiveValue | src/api/controllers/collection.controller.ts:111-114 | SET NX never replaces a live value and writes an absent key |
| Redis.DelRemoves | src/api/controllers/auth.controller.ts:151 | after DEL the key is absent at every time, other keys are untouched, and deleting again changes nothing |
| CheckCollection.CheckCollection | src/api/middleware/checkCollection.ts:7-45 | 404 exactly when the collection is missing, 403 exactly when it belongs to someone else, next() exactly for the owner |
| CheckCollection.NotFoundBeforeOwnership | src/api/middleware/checkCollection.ts:22-38 | a missing collection is 404 for every user: not found is checked first |
| CheckCollection.OnlyCollectionIdIsRead | src/api/middleware/checkCollection.ts:16-19 | only the `collectionId` parameter of the request decides |
| CacheData.CacheData | src/api/middleware/cacheData.ts:10-67 | a miss is next(); an owned hit is 202 with fromCache true and the cached value; any other hit is 401; the cache is not written |
| CacheData.SessionIsNeverServed | src/api/middleware/cacheData.ts:33 | a session stored under the key has no `user_id` and is refused with 401 |
| CacheData.DeleteCacheData | src/api/middleware/cacheData.ts:78-129 | an owner's hit is deleted and then next(); a non-owner's hit is 401 and kept; a miss is next() with the cache unchanged |
| CollectionService.CallerOwnsNewCollection | src/api/services/collection.service.ts:12 | the caller's id overrides any `user_id` in the input |
| CollectionService.CreateCollection | src/api/services/collection.service.ts:9-16 | stores the input with the caller as owner under a fresh id; a taken id is error 11000; another store error is passed on |
| CollectionService.FindAllCollections | src/api/services/collection.service.ts:19-25 | every listed collection is the caller's and is stored as listed |
| CollectionService.FindAllByTitle | src/api/services/collection.service.ts:19-25 | with a non-empty title, a collection is listed exactly when it is the caller's and its title contains the query, ignoring case |
| CollectionService.FindAllWithoutTitle | src/api/services/collection.service.ts:22-24 | without a title, or with an empty one, exactly the caller's collections are listed |
| CollectionService.TitleNarrows | src/api/services/collection.service.ts:22 | a title only removes collections from the list |
| CollectionService.TitleIgnoresCase | src/api/services/collection.service.ts:22 | the title match ignores the case of the query |
| CollectionService.FindCollectionById | src/api/services/collection.service.ts:28-30 | found exactly when an id is given and stored; the result is the stored collection |
| CollectionService.PatchProperties | src/api/services/collection.service.ts:33-38 | an update keeps the id, an empty patch changes nothing, a patch is idempotent, fields it does not carry are kept |
| CollectionService.UpdatedTable | src/api/services/collection.service.ts:33-38 | the update changes only the collection with the id, by the patch |
| CollectionService.UpdateCollectionById | src/api/services/collection.service.ts:33-38 | the table becomes the updated table and the old collection is returned |
| CollectionService.DeletedTable | src/api/services/collection.service.ts:41-43 | the delete removes only the collection with the id |
| CollectionService.DeleteCollectionById | src/api/services/collection.service.ts:41-43 | the table becomes the deleted table and the removed collection is returned |
| CollectionService.WithCard | src/api/services/collection.service.ts:57-60 | one more card at the end, earlier cards and other fields unchanged |
| CollectionService.CreateCard | src/api/services/collection.service.ts:46-67 | a missing collection is the error 'Collection with ID … not found.' with no change; otherwise the card with its fresh id is appended and returned |
| CollectionController.CreateOutcome | src/api/controllers/collection.controller.ts:24-40 | 202 with the collection on success, 409 'Collection already exists' on code 11000, any other error forwarded |
| CollectionController.CreateCollectionHandler | src/api/controllers/collection.controller.ts:11-41 | creates the collection for the attached user and answers by that outcome |
| CollectionController.FindAllCollectionsHandler | src/api/controllers/collection.controller.ts:46-71 | 202 with exactly the list findAllCollections gives for the caller's id and the `title` query, so only the caller's collections |
| CollectionController.FindAllReadsOnlyTitle | src/api/controllers/collection.controller.ts:53-60 | only the caller's id and the `title` query decide the list; without a title all the caller's collections are listed |
| CollectionController.FindOne | src/api/controllers/collection.controller.ts:90-138 | 404 exactly when missing, 401 exactly when someone else's, 202 with fromCache false and the collection exactly for the owner |
| CollectionController.FindOneCollectionHandler | src/api/controllers/collection.controller.ts:76-143 | answers as FindOne; for the owner the collection is cached with NX for 180 seconds, otherwise the cache is unchanged |
| CollectionController.FindOneCacheWrite | src/api/controllers/collection.controller.ts:111-114 | the cache write never replaces a live value, and otherwise caches the collection for 180 seconds |
| CollectionController.UpdateCollectionHandler | src/api/controllers/collection.controller.ts:148-188 | anyone but the owner, a missing collection included, gets 401 with the table unchanged; the owner's collection is patched and 202 |
| CollectionController.DeleteCollectionHandler | src/api/controllers/collection.controller.ts:193-233 | anyone but the owner gets 401 with the table unchanged; the owner's collection is deleted and 202 |
| CollectionController.MissingIsUnauthorized | src/api/controllers/collection.controller.ts:164 | a missing collection fails the ownership test of update and delete (401), while findOne says 404 |
| CollectionController.RouteParameterMismatch | src/api/routes/collection.route.ts:202 | with only the declared `collectionId` parameter, findOne answers 404 and update/delete answer 401 whatever is stored |
| CollectionController.WithoutCollectionsOf | src/api/controllers/collection.controller.ts:250-258 | exactly the collections of other users remain, unchanged |
| CollectionController.DeleteAllCollectionsHandler | src/api/controllers/collection.controller.ts:238-267 | deletes every collection of the user, one at a time, keeps all others, then answers 402 |
| Jwt.SignJwt | src/api/helpers/jwt.ts:9-22 | with a codec that round-trips, the signed token is non-empty and verifies to the subject it was signed for |
| Jwt.VerifyJwt | src/api/helpers/jwt.ts:25-41 | a missing or empty token is rejected |
| Jwt.SignThenVerify | src/api/helpers/jwt.ts:9-41 | what signJwt makes, verifyJwt accepts with the same subject, whatever the options |
| Http.StoreCookies | src/api/controllers/auth.controller.ts:212-216 | after a response sets cookies, every cookie it set is present and every cookie it did not set keeps its value |
| CollectionSchema.CheckString | src/api/schemas/collection.schema.ts:8-9 | a field passes exactly when it is a string; a missing field reports its required message |
| CollectionSchema.ParsePair | src/api/schemas/collection.schema.ts:6-21 | a body passes exactly when both fields are strings, keeping just those two; a failure has at least one issue |
| CollectionSchema.ParseCard | src/api/schemas/collection.schema.ts:6-11 | a card body is accepted exactly when it is an object whose `lexi` and `prompt` are strings, keeping just those two; a rejection has at least one issue |
| CollectionSchema.CardMissingFields | src/api/schemas/collection.schema.ts:8-9 | a missing `lexi` reports 'Lexi is required', a missing `prompt` 'Prompt is required' |
| CollectionSchema.ParseCollectionInfo | src/api/schemas/collection.schema.ts:16-21 | a collection-info body is accepted exactly when it is an object whose `title` and `description` are strings, keeping just those two; a rejection has at least one issue |
| CollectionSchema.CollectionInfoMissingFields | src/api/schemas/collection.schema.ts:18-19 | a missing `title` reports 'Title is required', a missing `description` 'Description is required' |
| CollectionSchema.EmptyBodyReportsBoth | src/api/schemas/collection.schema.ts:6-21 | an empty body reports both missing fields, in declaration order |
| CollectionSchema.EmptyStringsAccepted | src/api/schemas/collection.schema.ts:8-9 | empty strings are accepted |
| FormatText.StandardizeTextInput | src/api/helpers/formatText.ts:6-11 | the result is a slice of the lower-cased input with only white space before and after it, has no white space at either end and no upper-case letter, and is no longer than the input |
| FormatText.StandardizeIdempotent | src/api/helpers/formatText.ts:9 | standardizing twice is standardizing once |
| FormatText.TitleCase | src/api/helpers/formatText.ts:16-23 | titleCase is startCase applied to the standardized text |
| FormatText.TitleCaseAbsorbsStandardize | src/api/helpers/formatText.ts:16-23 | titleCase(v) equals titleCase(standardizeTextInput(v)) |
| FormatText.SentenceCase | src/api/helpers/formatText.ts:29-39 | sentenceCase cuts the standardized text at every '.', start-cases each piece and joins them with ". " |
| FormatText.SentenceCasePieces | src/api/helpers/formatText.ts:29-39 | the standardized text is split into one piece more than it has dots, the pieces rejoin to it, and each is start-cased and joined with ". " |
| FormatText.SentenceCaseSpacesDots | src/api/helpers/formatText.ts:31-35 | with an identity startCase, sentenceCase widens every '.' to ". " |
| StandardizeText.StandardizeTextInput | src/api/helpers/standardize-text-input.ts:5-10 | a slice of the lower-cased input with only white space before and after it, no white space at either end, never longer than the input |
| StandardizeText.Idempotent | src/api/helpers/standardize-text-input.ts:8 | standardizing twice is standardizing once |
| StandardizeText.AgreesWithFormatText | src/api/helpers/standardize-text-input.ts:5-10 | agrees with formatText's standardizeTextInput on every input |

## Left out

- I/O: the Redis and MongoDB connections and their retry, Express routing and
  body parsing, logging and the global error handler are not modelled; the
  stores are in-memory maps and sequences.
- Asynchrony: every awaited or un-awaited store call (the session write in
  `signToken`, the deletes inside `deleteAllCollectionsHandler`) happens in
  order, to completion.
- Thrown exceptions from the stores other than the create calls' duplicate-key
  and generic `fault` parameters, and the `catch (err) { next(err) }` paths
  they lead to, are not modelled. `requireUser`'s catch block is unreachable:
  nothing in its `try` throws, so it is not modelled either.
- jsonwebtoken: RS256, PEM keys, token expiry and option validation are the
  `Jwt.Codec` parameter, which signs whatever options it is given.
- AuthController.AuthController.RefreshAccessTokenHandler: as written, refresh
  spreads the string 'accessTokenPrivateKey' into jsonwebtoken's sign options,
  which jsonwebtoken rejects (`"0" is not allowed in "options"`); the throw
  reaches `catch (err) { next(err) }`, so every request that passes the gates
  ends in next(err), never the 200. The model's sign oracle is total, so its
  200 answer and `AuthController.RefreshRepeats` describe refresh as if the
  options were accepted.
- bcrypt password comparison and the user model's hashing hook and role
  default are parameters; the user model file is not part of this model.
- lodash `startCase` is a parameter; `omit` is the `PublicUser` projection.
- Text: `toLowerCase` lowers ASCII letters only; `trim` uses the ECMAScript
  white-space and line-terminator set.
- CollectionService.FindAllCollections: MongoDB's `$regex` with option "i" is
  modelled as case-insensitive substring search, so regular-expression
  metacharacters in the title are taken literally; the result is a map by id,
  without the order MongoDB returns.
- Ids: ObjectIds and their `toString()` are plain strings; fresh ids (`uuid`,
  new ObjectIds) are parameters.
- AuthController.AuthController.LogoutHandler: every other Redis key and id
  comparison in the source goes through `toString()`, but logout calls
  `redisClient.del(user._id)` (src/api/controllers/auth.controller.ts:151)
  with the ObjectId of the lean user. The node-redis client accepts only
  string or Buffer arguments and rejects anything else with a TypeError, so
  as written logout probably ends in `next(err)` (a 500), with the session
  kept and no cookie cleared. The model deletes the session under the id's
  text and answers 200, as if the id had been converted.
- RestrictTo.RestrictTo: takes the attached user; the TypeError the source
  raises when no user is attached is not modelled.
- CacheData.CacheData and CacheData.DeleteCacheData: take the collection id
  as given; the middleware is mounted on no route, so what `req.params.id`
  would hold is not modelled.
- CollectionService.CreateCollection: the only unique index modelled is the
  id; a MongoDB duplicate-key error from other indexes arrives as `fault`.
- The `validate` middleware that runs the schemas is not part of this model;
  the schemas are modelled as parsers of the request body.
- `createCardHandler`, `updateCardHandler` and `deleteCardHandler` are not
  part of this model; `createCard` is modelled at the service.
- The Card model declares `description` while `cardSchema` declares `prompt`;
  both are kept as written.
- Cookie `expires` is computed once at module load (`loadTime`), as in the
  source, and AuthController.CookieLifetimes states the options as the module
  builds them. Express's `res.cookie` replaces `expires` with the response
  time plus `maxAge` whenever `maxAge` is set, so the client receives that
  expiry, not the load-time one; that rewrite is not modelled. Clocks are
  parameters.

## Findings

| source | as written | input that shows it | evidently intended | confidence | as-written member | corrected member |
|---|---|---|---|---|---|---|
| src/api/services/user.service.ts:21-24 | `omit(user, ['password'])` is applied to the `null` `findById` gives for a missing id, and lodash returns `{}`, which is truthy; the `!user` checks in deserializeUser.ts:55 and auth.controller.ts:202 never fire, so a missing user is attached as `{}` (`DeserializeUser.AsWrittenAdmitsMissingUser`, `AuthController.RefreshAsWritten`) | a session whose `_id` is "u1" while the user table is empty | a missing user yields nothing, so the callers refuse with 'User with that token no longer exists' or 403 | not executed | UserService.FindUserByIdAsWritten | UserService.FindUserById |
