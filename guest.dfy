/** The invitation record shared by the guest-facing functions, and the
    token-and-expiry check every guest-facing call runs first. */
module Guest {
  import opened Js

  /** One named companion of the primary invitee, embedded in the invitation.
      Absent string fields are "". */
  datatype Companion = Companion(
    guestId: string,
    name: string,
    email: string,
    demographicSubmitted: bool,
    menuSubmitted: bool,
    menuResponseId: string,
    menuSubmittedAt: Option<int>)

  /** The outcome of the invitation e-mail, as recorded on the invitation. */
  datatype Delivery =
    | NotAttempted
    | Delivered(messageId: string)
    | Undelivered(error: string, status: Value)

  /** An invitation document of the `invitations` collection. Absent string
      fields are ""; timestamps are milliseconds. `companions` is the list the
      functions read (`[]` when the stored field is not an array). */
  datatype Invitation = Invitation(
    invitationId: string,
    eventId: string,
    organisationId: string,
    guestId: string,
    guestEmail: string,
    guestName: string,
    maxGuestInvite: real,
    demographicQuestionSetId: string,
    token: string,
    used: bool,
    createdAt: int,
    expiresAt: Option<int>,
    sent: bool,
    delivery: Delivery,
    invitationCode: Option<string>,
    batchId: Option<string>,
    menuSelectionSubmitted: bool,
    menuSelectionSubmittedAt: Option<int>,
    companions: seq<Companion>)

  /** `expiresAt` is set and strictly before `now`. */
  predicate Expired(inv: Invitation, now: int)
  {
    inv.expiresAt.Some? && inv.expiresAt.value < now
  }

  /** The token-and-expiry guard: the invitation must exist, its stored token
      must equal the presented one exactly, and it must not have expired.
      The checks run in that order, so an expired invitation presented with
      a wrong token reports the token. */
  function CheckAccess(invitations: map<string, Invitation>, id: string, token: string, now: int): (r: Result<Invitation>)
    ensures r.Ok? <==> id in invitations && invitations[id].token == token && !Expired(invitations[id], now)
    ensures r.Ok? ==> r.value == invitations[id]
    ensures r == Err(NotFound) <==> id !in invitations
    ensures r == Err(PermissionDenied) <==> id in invitations && invitations[id].token != token
    ensures r == Err(FailedPrecondition) <==>
      id in invitations && invitations[id].token == token && Expired(invitations[id], now)
  {
    if id !in invitations then Err(NotFound)
    else if invitations[id].token != token then Err(PermissionDenied)
    else if Expired(invitations[id], now) then Err(FailedPrecondition)
    else Ok(invitations[id])
  }
}
