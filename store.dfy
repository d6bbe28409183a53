/** The relational store behind the application: its five tables, the unique
    constraints the handlers rely on, and the lookups they issue. */
module Store {

  import opened Common
  import opened Seqs

  datatype User = User(id: Id, name: string, email: string, password: Option<string>)

  /** The provider account linked to a user ("" stands for a null column). */
  datatype LinkedinDetails = LinkedinDetails(
    userId: Id,
    accountId: string,
    email: string,
    name: string,
    username: string,
    avatar: string,
    headline: string,
    isPremium: bool)

  /** A profile a user monitors. */
  datatype TrackPerson = TrackPerson(
    id: Id,
    addedBy: Id,
    username: string,
    name: string,
    avatar: Option<string>,
    title: string,
    location: string,
    profileUrl: string,
    createdAt: Timestamp)

  /** A saved people-search query attached to one tracked person. */
  datatype SearchUrl = SearchUrl(
    id: Id,
    title: string,
    url: string,
    userId: Id,
    trackPersonId: Id,
    createdAt: Timestamp)

  /** One discovered profile of a tracked person, stamped with its sync run. */
  datatype Connection = Connection(
    userId: Id,
    trackPersonId: Id,
    username: string,
    name: string,
    avatar: string,
    title: string,
    location: string,
    insight: Option<string>,
    profileUrl: string,
    degree: string,
    syncedAt: Timestamp,
    searchUrlId: Option<Id>)

  function UserId(u: User): Id { u.id }
  function UserEmail(u: User): string { u.email }
  function DetailsOwner(d: LinkedinDetails): Id { d.userId }
  function TrackPersonId(t: TrackPerson): Id { t.id }
  function TrackPersonKey(t: TrackPerson): (Id, string) { (t.addedBy, t.username) }
  function SearchUrlId(s: SearchUrl): Id { s.id }
  function ConnectionKey(c: Connection): (Id, Id, string) { (c.userId, c.trackPersonId, c.username) }

  /** `prisma.user.findUnique({ where: { email } })` */
  function UserByEmail(users: seq<User>, email: string): (r: Option<User>)
    ensures r.Some? ==> r.value in users && r.value.email == email
    ensures r.None? ==> forall u :: u in users ==> u.email != email
  {
    FirstWhere(users, (u: User) => u.email == email)
  }

  /** `prisma.linkedinDetails.findUnique({ where: { userId } })` */
  function DetailsOf(details: seq<LinkedinDetails>, userId: Id): (r: Option<LinkedinDetails>)
    ensures r.Some? ==> r.value in details && r.value.userId == userId
    ensures r.None? ==> forall d :: d in details ==> d.userId != userId
  {
    FirstWhere(details, (d: LinkedinDetails) => d.userId == userId)
  }

  class Database {
    var users: seq<User>
    var details: seq<LinkedinDetails>
    var trackPersons: seq<TrackPerson>
    var searchUrls: seq<SearchUrl>
    var connections: seq<Connection>
    /** Next identifier to hand out; every id in use is below it. */
    var nextId: nat

    /** The unique constraints of the schema, and freshness of the id counter. */
    ghost predicate Valid()
      reads this
    {
      && Unique(users, UserId) && Unique(users, UserEmail)
      && (forall u :: u in users ==> u.id < nextId)
      && Unique(details, DetailsOwner)
      && Unique(trackPersons, TrackPersonId) && Unique(trackPersons, TrackPersonKey)
      && (forall t :: t in trackPersons ==> t.id < nextId)
      && Unique(searchUrls, SearchUrlId)
      && (forall s :: s in searchUrls ==> s.id < nextId)
      && Unique(connections, ConnectionKey)
    }

    constructor ()
      ensures Valid()
      ensures users == [] && details == [] && trackPersons == [] && searchUrls == [] && connections == []
    {
      users, details, trackPersons, searchUrls, connections := [], [], [], [], [];
      nextId := 0;
    }

    /** `trackPerson.create`: a new row under the next id. The handlers check the
        (addedBy, username) constraint before they create. */
    method InsertTrackPerson(row: TrackPerson)
      requires Valid()
      requires row.id == nextId
      requires forall t :: t in trackPersons ==> TrackPersonKey(t) != TrackPersonKey(row)
      modifies `trackPersons, `nextId
      ensures Valid()
      ensures trackPersons == old(trackPersons) + [row] && nextId == old(nextId) + 1
    {
      trackPersons := trackPersons + [row];
      nextId := nextId + 1;
    }

    /** `trackPerson.delete` of the row at position `i`. */
    method RemoveTrackPersonAt(i: nat)
      requires Valid() && i < |trackPersons|
      modifies `trackPersons
      ensures Valid()
      ensures trackPersons == old(trackPersons)[..i] + old(trackPersons)[i + 1..]
    {
      RemoveAtUnique(trackPersons, TrackPersonId, i);
      RemoveAtUnique(trackPersons, TrackPersonKey, i);
      trackPersons := trackPersons[..i] + trackPersons[i + 1..];
    }

    /** `searchUrls.create`: a new row under the next id. */
    method InsertSearchUrl(row: SearchUrl)
      requires Valid() && row.id == nextId
      modifies `searchUrls, `nextId
      ensures Valid()
      ensures searchUrls == old(searchUrls) + [row] && nextId == old(nextId) + 1
    {
      searchUrls := searchUrls + [row];
      nextId := nextId + 1;
    }

    /** `searchUrls.update` of the row at position `i`; the id does not change. */
    method ReplaceSearchUrl(i: nat, row: SearchUrl)
      requires Valid() && i < |searchUrls| && row.id == searchUrls[i].id
      modifies `searchUrls
      ensures Valid()
      ensures searchUrls == old(searchUrls)[i := row]
    {
      searchUrls := searchUrls[i := row];
      assert Unique(searchUrls, SearchUrlId) by {
        forall a, b | 0 <= a < b < |searchUrls| ensures searchUrls[a].id != searchUrls[b].id {
          assert searchUrls[a].id == old(searchUrls)[a].id;
          assert searchUrls[b].id == old(searchUrls)[b].id;
        }
      }
      assert forall s :: s in searchUrls ==> s.id < nextId by {
        forall s | s in searchUrls ensures s.id < nextId {
          var j :| 0 <= j < |searchUrls| && searchUrls[j] == s;
          assert s.id == old(searchUrls)[j].id;
        }
      }
    }

    /** `searchUrls.delete` of the row at position `i`. */
    method RemoveSearchUrlAt(i: nat)
      requires Valid() && i < |searchUrls|
      modifies `searchUrls
      ensures Valid()
      ensures searchUrls == old(searchUrls)[..i] + old(searchUrls)[i + 1..]
    {
      RemoveAtUnique(searchUrls, SearchUrlId, i);
      searchUrls := searchUrls[..i] + searchUrls[i + 1..];
    }

    /** `searchUrls.deleteMany({ where: { trackPersonId } })` */
    method DeleteSearchUrlsOf(trackPersonId: Id)
      requires Valid()
      modifies `searchUrls
      ensures Valid()
      ensures searchUrls == Filter(old(searchUrls), (s: SearchUrl) => s.trackPersonId != trackPersonId)
    {
      FilterUnique(searchUrls, (s: SearchUrl) => s.trackPersonId != trackPersonId, SearchUrlId);
      searchUrls := Filter(searchUrls, (s: SearchUrl) => s.trackPersonId != trackPersonId);
    }

    /** `connection.deleteMany({ where: { trackPersonId } })` */
    method DeleteConnectionsOf(trackPersonId: Id)
      requires Valid()
      modifies `connections
      ensures Valid()
      ensures connections == Filter(old(connections), (c: Connection) => c.trackPersonId != trackPersonId)
    {
      FilterUnique(connections, (c: Connection) => c.trackPersonId != trackPersonId, ConnectionKey);
      connections := Filter(connections, (c: Connection) => c.trackPersonId != trackPersonId);
    }
  }
}
