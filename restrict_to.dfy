/**
  src/middleware/restrictTo.ts: restrictTo(...allowedRoles) builds a
  middleware that lets a user on when the user's role is one of the allowed
  roles, compared by exact string equality.
 */
module RestrictTo {
  import opened Models
  import opened Http
  import opened Wrappers
  import opened AppErrors

  const NotAllowed := "You are not allowed to perform this action"

  function RestrictTo(allowedRoles: seq<string>, user: PublicUser): (r: Outcome)
    ensures r == Next <==> exists i :: 0 <= i < |allowedRoles| && allowedRoles[i] == user.role
    ensures r != Next ==> r == NextWith(AppErr(NotAllowed, Some(403)))
  {
    if user.role !in allowedRoles then NextWith(AppErr(NotAllowed, Some(403))) else Next
  }

  /** An empty list of roles rejects every user. */
  lemma EmptyRolesRejectAll(user: PublicUser)
    ensures RestrictTo([], user) == NextWith(AppErr(NotAllowed, Some(403)))
  {
  }

  /** Only the role matters: users with the same role are treated alike, and the order of the roles does not matter. */
  lemma OnlyRoleMatters(allowedRoles: seq<string>, u: PublicUser, v: PublicUser, reordered: seq<string>)
    requires u.role == v.role
    requires multiset(reordered) == multiset(allowedRoles)
    ensures RestrictTo(allowedRoles, u) == RestrictTo(reordered, v)
  {
    assert (u.role in allowedRoles) == (u.role in multiset(allowedRoles));
    assert (v.role in reordered) == (v.role in multiset(reordered));
  }

  /** A rejection is an AppError with status 'fail'. */
  lemma RejectionFails(user: PublicUser, allowedRoles: seq<string>)
    ensures var r := RestrictTo(allowedRoles, user);
      r != Next ==>
        var e := NewAppError(r.failure.message, r.failure.statusCode);
        e.statusCode == 403 && e.status == "fail"
  {
    ThreeDigitCodes(NotAllowed, 403);
  }
}
