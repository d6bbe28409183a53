/** Bookkeeping of the provider account linked to each user: the two conflict
    checks, the upsert that records a link, and the projections read back by
    the connect flow. */
module UserService {

  import opened Common
  import opened Seqs
  import opened Store

  /** `checkForAccountConflict`: the first details row carrying `email` belongs to someone else. */
  function CheckForAccountConflict(details: seq<LinkedinDetails>, email: string, userId: Id): (conflict: bool)
    ensures conflict ==> exists d :: d in details && d.email == email && d.userId != userId
    ensures (forall d :: d in details && d.email == email ==> d.userId != userId) ==>
              (conflict <==> exists d :: d in details && d.email == email)
  {
    var first := FirstWhere(details, (d: LinkedinDetails) => d.email == email);
    first.Some? && first.value.userId != userId
  }

  /** When every email is linked at most once, a conflict is exactly a row with that
      email owned by another user. */
  lemma ConflictWithUniqueEmails(details: seq<LinkedinDetails>, email: string, userId: Id)
    requires forall i, j :: 0 <= i < j < |details| ==> details[i].email != details[j].email
    ensures CheckForAccountConflict(details, email, userId) <==>
              exists d :: d in details && d.email == email && d.userId != userId
  {
    if d :| d in details && d.email == email && d.userId != userId {
      var first := FirstWhere(details, (x: LinkedinDetails) => x.email == email);
      assert first.Some?;
      var i :| 0 <= i < |details| && details[i] == first.value;
      var j :| 0 <= j < |details| && details[j] == d;
      assert i == j;
    }
  }

  /** The rows `findMany({ where: { OR: [{ email }, { username }] } })` returns. */
  function Matching(details: seq<LinkedinDetails>, email: string, username: string): (r: seq<LinkedinDetails>)
    ensures forall d :: d in r <==> d in details && (d.email == email || d.username == username)
  {
    Filter(details, (d: LinkedinDetails) => d.email == email || d.username == username)
  }

  /** With one link per user, two matching rows always include someone else's. */
  lemma {:induction false} SeveralMatchesIncludeAnotherUser(details: seq<LinkedinDetails>, email: string, username: string, userId: Id)
    requires Unique(details, DetailsOwner)
    requires |Matching(details, email, username)| > 1
    ensures exists d :: d in details && (d.email == email || d.username == username) && d.userId != userId
  {
    var m := Matching(details, email, username);
    FilterUnique(details, (d: LinkedinDetails) => d.email == email || d.username == username, DetailsOwner);
    assert DetailsOwner(m[0]) != DetailsOwner(m[1]);
    if m[0].userId != userId {
      assert m[0] in m;
    } else {
      assert m[1] in m;
    }
  }

  const ConflictCheckFailed: string := "Error checking linkedin details"

  /** `checkForAccountConflictAndDelete`: when more than one row matches the email or
      the username, deletes the caller's own row, then the caller's provider account,
      and answers true. Deleting a missing row throws; `providerDeleteFails` says
      whether the provider's account deletion throws, which happens after the row is
      gone. Thrown errors come back as `Err`. */
  method CheckForAccountConflictAndDelete(db: Database, email: string, userId: Id, username: string, providerDeleteFails: bool)
    returns (r: Result<bool>)
    requires db.Valid()
    modifies db`details
    ensures db.Valid()
    ensures |Matching(old(db.details), email, username)| <= 1 ==> r == Ok(false) && unchanged(db)
    ensures |Matching(old(db.details), email, username)| > 1 && DetailsOf(old(db.details), userId).None? ==>
              r == Err(ConflictCheckFailed) && unchanged(db)
    ensures |Matching(old(db.details), email, username)| > 1 && DetailsOf(old(db.details), userId).Some? ==>
              && r == (if providerDeleteFails then Err(ConflictCheckFailed) else Ok(true))
              && DetailsOf(db.details, userId).None?
              && exists i :: 0 <= i < |old(db.details)| && old(db.details)[i].userId == userId &&
                   db.details == old(db.details)[..i] + old(db.details)[i + 1..]
  {
    var matches := Matching(db.details, email, username);
    if |matches| <= 1 {
      return Ok(false);
    }
    var i := IndexWhere(db.details, (d: LinkedinDetails) => d.userId == userId);
    if i == |db.details| {
      return Err(ConflictCheckFailed);
    }
    ghost var before := db.details;
    RemoveAtUnique(db.details, DetailsOwner, i);
    db.details := db.details[..i] + db.details[i + 1..];
    forall d | d in db.details ensures d.userId != userId {
      var j :| 0 <= j < |db.details| && db.details[j] == d;
      if j < i {
        assert d == before[j];
        assert DetailsOwner(before[j]) != DetailsOwner(before[i]);
      } else {
        assert d == before[j + 1];
        assert DetailsOwner(before[i]) != DetailsOwner(before[j + 1]);
      }
    }
    if providerDeleteFails {
      return Err(ConflictCheckFailed);
    }
    r := Ok(true);
  }

  /** The profile fields handed to `saveLinkedinDetails`; "" stands for a missing field. */
  datatype ProfileSummary = ProfileSummary(
    name: string,
    email: string,
    username: string,
    headline: string,
    avatar: string,
    isPremium: bool)

  const SaveFailed: string := "Error saving linkedin details"

  /** `saveLinkedinDetails`: upsert keyed by `userId`. An existing row only gets the
      new account id; otherwise a row is created from the profile. The upsert's
      arguments are built before it runs, so a missing profile (`None`, what a failed
      profile lookup hands on) throws before any write, even when the row exists. */
  method SaveLinkedinDetails(db: Database, userId: Id, accountId: string, profile: Option<ProfileSummary>)
    returns (r: Result<LinkedinDetails>)
    requires db.Valid()
    modifies db`details
    ensures db.Valid()
    ensures r.Err? <==> profile.None?
    ensures r.Err? ==> r.error == SaveFailed && unchanged(db)
    ensures r.Ok? ==> r.value.userId == userId && r.value.accountId == accountId
    ensures r.Ok? ==> DetailsOf(db.details, userId) == Some(r.value)
    ensures r.Ok? && old(DetailsOf(db.details, userId)).Some? ==>
              && r.value == old(DetailsOf(db.details, userId)).value.(accountId := accountId)
              && |db.details| == |old(db.details)|
              && forall j :: 0 <= j < |db.details| ==>
                   db.details[j] == if old(db.details)[j].userId == userId then r.value else old(db.details)[j]
    ensures r.Ok? && old(DetailsOf(db.details, userId)).None? ==>
              var p := profile.value;
              && r.value == LinkedinDetails(userId, accountId, p.email, p.name, p.username, p.avatar, p.headline, p.isPremium)
              && db.details == old(db.details) + [r.value]
  {
    if profile.None? {
      return Err(SaveFailed);
    }
    var p := profile.value;
    var row: LinkedinDetails;
    var i := IndexWhere(db.details, (d: LinkedinDetails) => d.userId == userId);
    if i < |db.details| {
      row := db.details[i].(accountId := accountId);
      forall j | 0 <= j < |db.details| && j != i ensures db.details[j].userId != userId {
        assert DetailsOwner(db.details[i]) == userId;
      }
      db.details := db.details[i := row];
      assert Unique(db.details, DetailsOwner) by {
        forall a, b | 0 <= a < b < |db.details| ensures db.details[a].userId != db.details[b].userId {
          assert db.details[a].userId == old(db.details)[a].userId;
          assert db.details[b].userId == old(db.details)[b].userId;
        }
      }
    } else {
      row := LinkedinDetails(userId, accountId, p.email, p.name, p.username, p.avatar, p.headline, p.isPremium);
      db.details := db.details + [row];
    }
    assert db.details[i] == row;
    r := Ok(row);
  }

  /** What `getOwnProfile` gave: it threw, gave nothing, or a profile. Missing name
      parts are `None`; the other fields use "" for missing. */
  datatype OwnProfileReply = OwnThrew | OwnEmpty | Own(profile: OwnProfile)

  datatype OwnProfile = OwnProfile(
    firstName: Option<string>,
    lastName: Option<string>,
    email: string,
    publicIdentifier: string,
    occupation: string,
    pictureUrl: string,
    premium: bool)

  /** How string concatenation renders a value that may be missing. */
  function Text(s: Option<string>): string
  {
    if s.Some? then s.value else "undefined"
  }

  /** `getLinkedinProfile`: the caller's own profile, in the shape stored for a link. */
  function GetLinkedinProfile(reply: OwnProfileReply): (r: Option<ProfileSummary>)
    ensures r.Some? <==> reply.Own?
    ensures r.Some? ==>
              var p := reply.profile;
              && r.value.name == Text(p.firstName) + " " + Text(p.lastName)
              && r.value.email == p.email
              && r.value.username == p.publicIdentifier
              && r.value.headline == p.occupation
              && r.value.avatar == p.pictureUrl
              && r.value.isPremium == p.premium
  {
    match reply
    case Own(p) =>
      Some(ProfileSummary(Text(p.firstName) + " " + Text(p.lastName), p.email, p.publicIdentifier,
                          p.occupation, p.pictureUrl, p.premium))
    case _ => None
  }

  /** The name the link shows starts with the first name and ends with the last one. */
  lemma ProfileNameParts(first: string, last: string, p: OwnProfile)
    requires p.firstName == Some(first) && p.lastName == Some(last)
    ensures var name := GetLinkedinProfile(Own(p)).value.name;
            && |name| == |first| + 1 + |last|
            && name[..|first|] == first && name[|first|] == ' ' && name[|first| + 1..] == last
  {
    var name := GetLinkedinProfile(Own(p)).value.name;
    assert name == first + " " + last;
  }

  /** The stored link without its owner: what `getLinkedinDetails` returns. */
  datatype DetailsView = DetailsView(
    name: string,
    email: string,
    username: string,
    headline: string,
    avatar: string,
    accountId: string,
    isPremium: bool)

  function GetLinkedinDetails(details: seq<LinkedinDetails>, userId: Id): (r: Option<DetailsView>)
    ensures r.None? <==> forall d :: d in details ==> d.userId != userId
    ensures r.Some? ==>
              exists d :: d in details && d.userId == userId &&
                r.value == DetailsView(d.name, d.email, d.username, d.headline, d.avatar, d.accountId, d.isPremium)
  {
    var d := DetailsOf(details, userId);
    if d.None? then None
    else
      var row := d.value;
      Some(DetailsView(row.name, row.email, row.username, row.headline, row.avatar, row.accountId, row.isPremium))
  }

  /** After a link is saved, reading it back shows the new account id. */
  lemma SavedAccountIsRead(details: seq<LinkedinDetails>, userId: Id, row: LinkedinDetails)
    requires DetailsOf(details, userId) == Some(row)
    ensures GetLinkedinDetails(details, userId).Some?
    ensures GetLinkedinDetails(details, userId).value.accountId == row.accountId
  {
  }
}
