/**
  src/middleware/requireUser.ts: the same gate as the api revision, wired to
  the AppError of src/utils/appError.ts.
 */
module RequireUser {
  import opened Wrappers
  import opened Models
  import opened Http
  import opened AppErrors

  const NoUser := "Invalid token or session has expired"

  /** The error passed on for a missing user: no code is given, so it is a 500 with status 'error'. */
  function RejectionError(): (e: AppError)
    ensures e.message == NoUser && e.statusCode == 500 && e.status == "error" && e.isOperational
  {
    DefaultIsServerError(NoUser);
    NewAppError(NoUser, None)
  }

  /**
    requireUser: next() when a user is attached, otherwise next(new
    AppError(message)), which is the 500 'error' AppError above.
   */
  function RequireUser(localsUser: Option<PublicUser>): (r: Outcome)
    ensures r == Next <==> localsUser.Some?
    ensures r != Next ==>
      && r == NextWith(AppErr(NoUser, None))
      && NewAppError(r.failure.message, r.failure.statusCode) == RejectionError()
  {
    if localsUser.None? then NextWith(AppErr(NoUser, None)) else Next
  }
}
