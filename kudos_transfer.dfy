/** `KoboldKudosTransfer.post`: kudos sent over from the KoboldAI Horde. */
module KudosTransfer {
  import opened Exceptions
  import opened Accounts

  /** The only caller address the endpoint accepts. */
  const KoboldAiHordeAddress: string := "167.86.124.45"

  /** The parsed JSON body: `kai_id`, `kudos_amount`, `trusted`. */
  datatype TransferArgs = TransferArgs(kaiId: int, kudosAmount: int, trusted: bool)

  /** `user` is what `find_user_by_id(userId)` found, `null` when nothing was.
      On success the response carries the user's new kudos. */
  method Post(remoteAddr: string, userId: string, user: User?, args: TransferArgs) returns (r: Result<int>)
    modifies user
    ensures remoteAddr != KoboldAiHordeAddress ==> r == Err(BadRequest("Access Denied", None))
    ensures remoteAddr != KoboldAiHordeAddress && user != null ==>
              user.kudos == old(user.kudos) && user.trusted == old(user.trusted)
    ensures remoteAddr == KoboldAiHordeAddress && user == null ==> r == Err(UserNotFound(userId))
    ensures remoteAddr == KoboldAiHordeAddress && user != null ==>
              && user.kudos == old(user.kudos) + args.kudosAmount
              && r == Ok(user.kudos)
              && user.trusted == (old(user.trusted) || args.trusted)
    // trust is only ever granted here, never revoked
    ensures user != null && old(user.trusted) ==> user.trusted
  {
    if remoteAddr != KoboldAiHordeAddress {
      return Err(BadRequest("Access Denied", None));
    }
    if user == null {
      return Err(UserNotFound(userId));
    }
    if !user.trusted && args.trusted {
      user.trusted := true;
    }
    user.kudos := user.kudos + args.kudosAmount;
    return Ok(user.kudos);
  }
}
