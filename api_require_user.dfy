/**
  src/api/middleware/requireUser.ts: runs after deserializeUser and lets the
  request on only when a user is attached to res.locals. Its AppError comes
  from a helper that is not part of this model, so only the message and the
  absence of a status code are stated.
 */
module ApiRequireUser {
  import opened Wrappers
  import opened Models
  import opened Http

  const NoUser := "Invalid token or session has expired"

  /** requireUser: next() when a user is attached, otherwise next(new AppError(message)) with no status code. */
  function RequireUser(localsUser: Option<PublicUser>): (r: Outcome)
    ensures r == Next <==> localsUser.Some?
    ensures r != Next ==> r == NextWith(AppErr(NoUser, None))
  {
    if localsUser.None? then NextWith(AppErr(NoUser, None)) else Next
  }

  /** The gate looks only at whether a user is attached, never at which one. */
  lemma AnyUserPasses(u: PublicUser, v: PublicUser)
    ensures RequireUser(Some(u)) == RequireUser(Some(v)) == Next
  {
  }
}
