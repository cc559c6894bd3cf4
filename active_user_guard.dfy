// ActiveUserGuard (apps/api/src/modules/auth/guards/active-user.guard.ts):
// the account-status gate.
module ActiveUserGuard {
  import opened Common
  import opened Entities

  const PendingMessage: string := "ACCOUNT_PENDING_APPROVAL"
  const RejectedMessage: string := "ACCOUNT_REJECTED"

  /** `ActiveUserGuard.canActivate`: false without a user, Forbidden for Pending and Rejected, true otherwise. */
  function CanActivate(user: Option<User>): (r: Result<bool>)
    ensures r.Ok? && r.value <==> user.Some? && user.value.status == Active
  {
    if user.None? then Ok(false)
    else match user.value.status
      case Pending => Err(Forbidden(PendingMessage))
      case Rejected => Err(Forbidden(RejectedMessage))
      case Active => Ok(true)
  }

  /** Each case of the gate, with its machine-readable reason. */
  lemma GateCases(user: Option<User>)
    ensures user.None? ==> CanActivate(user) == Ok(false)
    ensures user.Some? && user.value.status == Pending ==> CanActivate(user) == Err(Forbidden("ACCOUNT_PENDING_APPROVAL"))
    ensures user.Some? && user.value.status == Rejected ==> CanActivate(user) == Err(Forbidden("ACCOUNT_REJECTED"))
  {
  }

  /** The decision depends only on presence and status, never on role or organization. */
  lemma OnlyStatusMatters(u: User, v: User)
    requires u.status == v.status
    ensures CanActivate(Some(u)) == CanActivate(Some(v))
  {
  }
}
