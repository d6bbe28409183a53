/** The connect-status route: tells the connect page whether the user has a
    provider account linked, unlinking it first when the same provider account
    is also linked to another user. */
module ConnectStatus {

  import opened Common
  import opened Store
  import opened UserService

  /** The JSON body `{ success, status, message?, isConnected?, duplicateAccount?,
      accountId?, linkedinDetails? }` with its HTTP status. */
  datatype StatusReply = StatusReply(
    httpStatus: nat,
    success: bool,
    status: string,
    message: Option<string>,
    isConnected: Option<bool>,
    duplicateAccount: Option<bool>,
    accountId: Option<string>,
    linkedinDetails: Option<Option<ProfileSummary>>)

  const MissingUser: StatusReply :=
    StatusReply(400, false, "FAILED", Some("User id is required"), None, None, None, None)
  const Failed: StatusReply := StatusReply(200, false, "FAILED", None, None, None, None, None)
  const NotConnected: StatusReply := StatusReply(200, true, "SUCCESS", None, Some(false), None, None, None)
  const Duplicate: StatusReply := StatusReply(200, true, "SUCCESS", None, Some(false), Some(true), None, None)

  /** GET with the `userId` query parameter. `providerDeleteFails` and `own` stand for
      the provider calls: deleting the provider account, and reading the linked
      account's own profile. */
  method Status(db: Database, userId: Option<Id>, providerDeleteFails: bool, own: OwnProfileReply) returns (r: StatusReply)
    requires db.Valid()
    modifies db`details
    ensures db.Valid()
    ensures userId.None? ==> r == MissingUser && unchanged(db)
    ensures userId.Some? && DetailsOf(old(db.details), userId.value).None? ==> r == NotConnected && unchanged(db)
    ensures userId.Some? && DetailsOf(old(db.details), userId.value).Some? ==>
              var d := DetailsOf(old(db.details), userId.value).value;
              if |Matching(old(db.details), d.email, d.username)| <= 1 then
                && r == StatusReply(200, true, "SUCCESS", None, Some(true), None, Some(d.accountId), Some(GetLinkedinProfile(own)))
                && unchanged(db)
              else
                && r == (if providerDeleteFails then Failed else Duplicate)
                && DetailsOf(db.details, userId.value).None?
                && (exists i :: 0 <= i < |old(db.details)| && old(db.details)[i].userId == userId.value &&
                      db.details == old(db.details)[..i] + old(db.details)[i + 1..])
                && exists e :: e in old(db.details) && e.userId != userId.value && (e.email == d.email || e.username == d.username)
  {
    if userId.None? {
      return MissingUser;
    }
    var uid := userId.value;
    var linked := DetailsOf(db.details, uid);
    if linked.None? {
      return NotConnected;
    }
    var d := linked.value;
    if |Matching(db.details, d.email, d.username)| > 1 {
      SeveralMatchesIncludeAnotherUser(db.details, d.email, d.username, uid);
    }
    var conflict := CheckForAccountConflictAndDelete(db, d.email, uid, d.username, providerDeleteFails);
    if conflict.Err? {
      return Failed;
    }
    if conflict.value {
      return Duplicate;
    }
    r := StatusReply(200, true, "SUCCESS", None, Some(true), None, Some(d.accountId), Some(GetLinkedinProfile(own)));
  }
}
