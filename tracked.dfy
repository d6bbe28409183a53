/** The tracked-person routes: list the profiles the caller monitors, start
    monitoring a profile (at most once per caller and username), and stop
    monitoring one together with everything recorded for it. */
module Tracked {

  import opened Common
  import opened Seqs
  import opened Store

  function CreatedAt(t: TrackPerson): int { t.createdAt }

  /** GET: the profiles the caller added, newest first. */
  function List(people: seq<TrackPerson>, session: Option<Principal>): (r: Reply<seq<TrackPerson>>)
    ensures session.None? ==> r == Failure(401, "Unauthorized")
    ensures r.success <==> session.Some?
    ensures r.success ==> r.status == 200 && r.data.Some?
    ensures r.success ==>
              var rows := r.data.value;
              && SortedDesc(rows, CreatedAt)
              && (forall t :: t in rows <==> t in people && t.addedBy == session.value.id)
              && multiset(rows) == multiset(Filter(people, (t: TrackPerson) => t.addedBy == session.value.id))
  {
    if session.None? then Failure(401, "Unauthorized")
    else
      var mine := Filter(people, (t: TrackPerson) => t.addedBy == session.value.id);
      SortDescMembers(mine, CreatedAt);
      Success(SortDesc(mine, CreatedAt))
  }

  /** The provider's profile record; "" stands for a missing field. */
  datatype ProviderProfile = ProviderProfile(
    firstName: string,
    lastName: string,
    pictureUrl: Option<string>,
    headline: string,
    location: string,
    publicProfileUrl: string)

  /** What the provider's profile lookup gave: it threw, gave nothing, or found the profile. */
  datatype ProfileLookup = LookupThrew | LookupEmpty | Found(profile: ProviderProfile)

  const ProfileBaseUrl: string := "https://www.linkedin.com/in/"

  /** The row created for `username`, with the fallbacks of the create call. */
  function NewTrackPerson(id: Id, addedBy: Id, username: string, p: ProviderProfile, now: Timestamp): (t: TrackPerson)
    ensures t.id == id && t.addedBy == addedBy && t.username == username && t.createdAt == now
    ensures t.name == p.firstName + " " + p.lastName
    ensures t.avatar == p.pictureUrl && t.title == p.headline && t.location == p.location
    ensures t.profileUrl != ""
    ensures p.publicProfileUrl != "" ==> t.profileUrl == p.publicProfileUrl
    ensures p.publicProfileUrl == "" ==> t.profileUrl == ProfileBaseUrl + username
  {
    TrackPerson(
      id, addedBy, username,
      p.firstName + " " + p.lastName,
      p.pictureUrl,
      p.headline,
      p.location,
      if p.publicProfileUrl != "" then p.publicProfileUrl else ProfileBaseUrl + username,
      now)
  }

  /** The stored name reads back as the first name, one space, then the last name; a
      profile with neither part is stored as `" "`. */
  lemma TrackedNameParts(id: Id, addedBy: Id, username: string, p: ProviderProfile, now: Timestamp)
    ensures var name := NewTrackPerson(id, addedBy, username, p, now).name;
            && |name| == |p.firstName| + 1 + |p.lastName|
            && name[..|p.firstName|] == p.firstName
            && name[|p.firstName|] == ' '
            && name[|p.firstName| + 1..] == p.lastName
  {
  }

  function Tracking(people: seq<TrackPerson>, addedBy: Id, username: string): Option<TrackPerson>
  {
    FirstWhere(people, (t: TrackPerson) => t.addedBy == addedBy && t.username == username)
  }

  /** POST: starts tracking `username` for the caller. `body` is the username from
      the request body (`None` when it is not JSON; "" when missing), `lookup` what
      the provider's profile lookup gives, and `now` the creation instant. */
  method Add(db: Database, session: Option<Principal>, body: Option<string>, lookup: ProfileLookup, now: Timestamp)
    returns (r: Reply<TrackPerson>)
    requires db.Valid()
    modifies db`trackPersons, db`nextId
    ensures db.Valid()
    ensures session.None? ==> r == Failure(401, "Unauthorized")
    ensures session.Some? && body.None? ==> r == Failure(500, "Failed to add tracked profile")
    ensures session.Some? && body == Some("") ==> r == Failure(200, "LinkedIn username is required")
    ensures session.Some? && body.Some? && Tracking(old(db.trackPersons), session.value.id, body.value).Some? ==>
              !r.success
    ensures r.success <==>
              && session.Some? && body.Some? && body.value != ""
              && Tracking(old(db.trackPersons), session.value.id, body.value).None?
              && DetailsOf(db.details, session.value.id).Some?
              && DetailsOf(db.details, session.value.id).value.accountId != ""
              && lookup.Found?
    ensures !r.success ==> unchanged(db)
    ensures r.success ==> r.data.Some?
    ensures r.success ==>
              && db.trackPersons == old(db.trackPersons) + [r.data.value]
              && r.data.value == NewTrackPerson(old(db.nextId), session.value.id, body.value, lookup.profile, now)
  {
    if session.None? {
      return Failure(401, "Unauthorized");
    }
    if body.None? {
      return Failure(500, "Failed to add tracked profile");
    }
    var username := body.value;
    if username == "" {
      return Failure(200, "LinkedIn username is required");
    }
    var userId := session.value.id;
    var existing := Tracking(db.trackPersons, userId, username);
    if existing.Some? {
      return Failure(200, "Profile is already being tracked");
    }
    var linked := DetailsOf(db.details, userId);
    if linked.None? || linked.value.accountId == "" {
      return Failure(200, "LinkedIn account not connected");
    }
    match lookup {
      case LookupThrew =>
        return Failure(500, "Failed to add tracked profile");
      case LookupEmpty =>
        return Failure(200, "LinkedIn profile not found");
      case Found(profile) =>
        var row := NewTrackPerson(db.nextId, userId, username, profile, now);
        db.InsertTrackPerson(row);
        r := Success(row);
    }
  }

  function OwnedProfile(people: seq<TrackPerson>, id: Id, owner: Id): Option<TrackPerson>
  {
    FirstWhere(people, (t: TrackPerson) => t.id == id && t.addedBy == owner)
  }

  /** The transaction of DELETE: the profile's connections, then its search URLs, then
      the profile at position `j`. The statements run in order; when statement `failAt`
      (1 to 3) throws, the ones before it are rolled back and nothing is committed. */
  method DeleteTracked(db: Database, tp: Id, j: nat, failAt: nat) returns (committed: bool)
    requires db.Valid() && j < |db.trackPersons| && db.trackPersons[j].id == tp
    modifies db`connections, db`searchUrls, db`trackPersons
    ensures db.Valid()
    ensures committed <==> !(1 <= failAt <= 3)
    ensures !committed ==> unchanged(db)
    ensures committed ==>
              && db.connections == Filter(old(db.connections), (c: Connection) => c.trackPersonId != tp)
              && db.searchUrls == Filter(old(db.searchUrls), (s: SearchUrl) => s.trackPersonId != tp)
              && db.trackPersons == old(db.trackPersons)[..j] + old(db.trackPersons)[j + 1..]
  {
    var connections, searchUrls := db.connections, db.searchUrls;
    if failAt == 1 {
      return false;
    }
    db.DeleteConnectionsOf(tp);
    if failAt == 2 {
      db.connections := connections;
      return false;
    }
    db.DeleteSearchUrlsOf(tp);
    if failAt == 3 {
      db.connections, db.searchUrls := connections, searchUrls;
      return false;
    }
    db.RemoveTrackPersonAt(j);
    committed := true;
  }

  /** DELETE: stops tracking profile `id` (the query parameter). In one transaction it
      deletes the profile's connections, then its search URLs, then the profile;
      `failAt` names the statement of the transaction that throws (1 to 3), or 0. */
  method Remove(db: Database, session: Option<Principal>, id: Option<Id>, failAt: nat) returns (r: Reply<()>)
    requires db.Valid()
    modifies db`connections, db`searchUrls, db`trackPersons
    ensures db.Valid()
    ensures session.None? ==> r == Failure(401, "Unauthorized")
    ensures session.Some? && id.None? ==> r == Failure(400, "Profile ID is required")
    ensures session.Some? && id.Some? && OwnedProfile(old(db.trackPersons), id.value, session.value.id).None? ==>
              r == Failure(404, "Profile not found")
    ensures r.success <==>
              session.Some? && id.Some? && OwnedProfile(old(db.trackPersons), id.value, session.value.id).Some? &&
              !(1 <= failAt <= 3)
    ensures !r.success ==> unchanged(db)
    ensures r.success ==>
              && r == Reply(200, true, None, Some("Profile deleted successfully"), None)
              && db.connections == Filter(old(db.connections), (c: Connection) => c.trackPersonId != id.value)
              && db.searchUrls == Filter(old(db.searchUrls), (s: SearchUrl) => s.trackPersonId != id.value)
              && exists j :: 0 <= j < |old(db.trackPersons)| && old(db.trackPersons)[j].id == id.value &&
                   db.trackPersons == old(db.trackPersons)[..j] + old(db.trackPersons)[j + 1..]
  {
    if session.None? {
      return Failure(401, "Unauthorized");
    }
    if id.None? {
      return Failure(400, "Profile ID is required");
    }
    var profile := OwnedProfile(db.trackPersons, id.value, session.value.id);
    if profile.None? {
      return Failure(404, "Profile not found");
    }
    var tp := id.value;
    var j := IndexWhere(db.trackPersons, (t: TrackPerson) => t.id == tp);
    var committed := DeleteTracked(db, tp, j, failAt);
    if !committed {
      return Failure(500, "Failed to delete tracked profile");
    }
    r := Reply(200, true, None, Some("Profile deleted successfully"), None);
  }
}
