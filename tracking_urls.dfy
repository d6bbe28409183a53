/** The search-URL routes: list, add, edit and delete the caller's saved search
    queries. Every handler resolves the caller by the session's email first, and
    edits and deletions check that the row belongs to the caller before writing. */
module TrackingUrls {

  import opened Common
  import opened Seqs
  import opened Store

  /** `session?.user?.email` is present and not empty. */
  predicate SignedIn(session: Option<Principal>)
  {
    session.Some? && session.value.email != ""
  }

  /** The row of the signed-in caller in the users table, looked up by email. */
  function Caller(users: seq<User>, session: Option<Principal>): Option<User>
    requires SignedIn(session)
  {
    UserByEmail(users, session.value.email)
  }

  function CreatedAt(s: SearchUrl): int { s.createdAt }

  /** GET: the caller's search URLs, newest first. */
  function List(users: seq<User>, urls: seq<SearchUrl>, session: Option<Principal>): (r: Reply<seq<SearchUrl>>)
    ensures !SignedIn(session) ==> r == Failure(401, "Unauthorized")
    ensures SignedIn(session) && Caller(users, session).None? ==> r == Failure(404, "User not found")
    ensures r.success <==> SignedIn(session) && Caller(users, session).Some?
    ensures r.success ==> r.status == 200 && r.data.Some?
    ensures r.success ==>
              var rows, owner := r.data.value, Caller(users, session).value.id;
              && SortedDesc(rows, CreatedAt)
              && (forall s :: s in rows <==> s in urls && s.userId == owner)
              && multiset(rows) == multiset(Filter(urls, (s: SearchUrl) => s.userId == owner))
  {
    if !SignedIn(session) then Failure(401, "Unauthorized")
    else
      var user := Caller(users, session);
      if user.None? then Failure(404, "User not found")
      else
        var owned := Filter(urls, (s: SearchUrl) => s.userId == user.value.id);
        SortDescMembers(owned, CreatedAt);
        Success(SortDesc(owned, CreatedAt))
  }

  /** The JSON body of POST; "" stands for a missing title or url. */
  datatype NewSearchUrl = NewSearchUrl(title: string, url: string, trackPersonId: Option<Id>)

  predicate HasRequiredFields(b: NewSearchUrl)
  {
    b.title != "" && b.url != "" && b.trackPersonId.Some?
  }

  /** POST: adds one search URL owned by the caller. `body` is `None` when the
      request body is not JSON; `now` is the creation instant. */
  method Create(db: Database, session: Option<Principal>, body: Option<NewSearchUrl>, now: Timestamp)
    returns (r: Reply<SearchUrl>)
    requires db.Valid()
    modifies db`searchUrls, db`nextId
    ensures db.Valid()
    ensures !SignedIn(session) ==> r == Failure(401, "Unauthorized")
    ensures SignedIn(session) && body.None? ==> r == Failure(500, "Failed to create tracking URL")
    ensures SignedIn(session) && body.Some? && !HasRequiredFields(body.value) ==>
              r == Failure(400, "Missing required fields")
    ensures SignedIn(session) && body.Some? && HasRequiredFields(body.value) && Caller(db.users, session).None? ==>
              r == Failure(404, "User not found")
    ensures r.success <==> SignedIn(session) && body.Some? && HasRequiredFields(body.value) && Caller(db.users, session).Some?
    ensures !r.success ==> unchanged(db)
    ensures r.success ==> r.data.Some?
    ensures r.success ==>
              var row := r.data.value;
              && db.searchUrls == old(db.searchUrls) + [row]
              && row.userId == Caller(db.users, session).value.id
              && row.title == body.value.title && row.url == body.value.url
              && row.trackPersonId == body.value.trackPersonId.value
              && row.createdAt == now
              && (forall s :: s in old(db.searchUrls) ==> s.id != row.id)
  {
    if !SignedIn(session) {
      return Failure(401, "Unauthorized");
    }
    if body.None? {
      return Failure(500, "Failed to create tracking URL");
    }
    var b := body.value;
    if !HasRequiredFields(b) {
      return Failure(400, "Missing required fields");
    }
    var user := UserByEmail(db.users, session.value.email);
    if user.None? {
      return Failure(404, "User not found");
    }
    var row := SearchUrl(db.nextId, b.title, b.url, user.value.id, b.trackPersonId.value, now);
    db.InsertSearchUrl(row);
    r := Success(row);
  }

  /** The JSON body of PUT; "" stands for a missing title or url. */
  datatype SearchUrlEdit = SearchUrlEdit(id: Option<Id>, title: string, url: string)

  /** `{ ...(title && { title }), ...(url && { url }) }` applied to a row. */
  function Edited(s: SearchUrl, e: SearchUrlEdit): (t: SearchUrl)
    ensures t.id == s.id && t.userId == s.userId && t.trackPersonId == s.trackPersonId && t.createdAt == s.createdAt
    ensures t.title == (if e.title != "" then e.title else s.title)
    ensures t.url == (if e.url != "" then e.url else s.url)
  {
    s.(title := if e.title != "" then e.title else s.title,
       url := if e.url != "" then e.url else s.url)
  }

  /** `findFirst({ where: { id, userId } })`: the row exists and belongs to `owner`. */
  function OwnedRow(urls: seq<SearchUrl>, id: Id, owner: Id): Option<SearchUrl>
  {
    FirstWhere(urls, (s: SearchUrl) => s.id == id && s.userId == owner)
  }

  /** PUT: overwrites the title and/or url of one of the caller's search URLs. */
  method Update(db: Database, session: Option<Principal>, body: Option<SearchUrlEdit>) returns (r: Reply<SearchUrl>)
    requires db.Valid()
    modifies db`searchUrls
    ensures db.Valid()
    ensures !SignedIn(session) ==> r == Failure(401, "Unauthorized")
    ensures SignedIn(session) && body.None? ==> r == Failure(500, "Failed to update tracking URL")
    ensures SignedIn(session) && body.Some? && (body.value.id.None? || (body.value.title == "" && body.value.url == "")) ==>
              r == Failure(400, "Missing required fields")
    ensures r.status == 404 <==>
              && SignedIn(session) && body.Some? && body.value.id.Some? && (body.value.title != "" || body.value.url != "")
              && (Caller(db.users, session).None? ||
                  OwnedRow(old(db.searchUrls), body.value.id.value, Caller(db.users, session).value.id).None?)
    ensures r.success <==>
              && SignedIn(session) && body.Some? && body.value.id.Some? && (body.value.title != "" || body.value.url != "")
              && Caller(db.users, session).Some?
              && OwnedRow(old(db.searchUrls), body.value.id.value, Caller(db.users, session).value.id).Some?
    ensures !r.success ==> unchanged(db)
    ensures r.success ==>
              && body.Some? && body.value.id.Some? && SignedIn(session) && Caller(db.users, session).Some?
              && var id := body.value.id.value;
                 var found := OwnedRow(old(db.searchUrls), id, Caller(db.users, session).value.id);
                 && found.Some?
                 && r.data == Some(Edited(found.value, body.value))
                 && |db.searchUrls| == |old(db.searchUrls)|
                 && forall j :: 0 <= j < |db.searchUrls| ==>
                      db.searchUrls[j] == if old(db.searchUrls)[j].id == id then Edited(old(db.searchUrls)[j], body.value)
                                          else old(db.searchUrls)[j]
  {
    if !SignedIn(session) {
      return Failure(401, "Unauthorized");
    }
    if body.None? {
      return Failure(500, "Failed to update tracking URL");
    }
    var e := body.value;
    if e.id.None? || (e.title == "" && e.url == "") {
      return Failure(400, "Missing required fields");
    }
    var user := UserByEmail(db.users, session.value.email);
    if user.None? {
      return Failure(404, "User not found");
    }
    var id := e.id.value;
    var i := IndexWhere(db.searchUrls, (s: SearchUrl) => s.id == id && s.userId == user.value.id);
    if i == |db.searchUrls| {
      return Failure(404, "Tracking URL not found or unauthorized");
    }
    var updated := Edited(db.searchUrls[i], e);
    forall j | 0 <= j < |db.searchUrls| && j != i ensures db.searchUrls[j].id != id {
      assert SearchUrlId(db.searchUrls[i]) == id;
    }
    db.ReplaceSearchUrl(i, updated);
    r := Success(updated);
  }

  /** DELETE: removes one of the caller's search URLs; `id` is the query parameter. */
  method Delete(db: Database, session: Option<Principal>, id: Option<Id>) returns (r: Reply<()>)
    requires db.Valid()
    modifies db`searchUrls
    ensures db.Valid()
    ensures !SignedIn(session) ==> r == Failure(401, "Unauthorized")
    ensures SignedIn(session) && id.None? ==> r == Failure(400, "Missing URL ID")
    ensures r.status == 404 <==>
              && SignedIn(session) && id.Some?
              && (Caller(db.users, session).None? ||
                  OwnedRow(old(db.searchUrls), id.value, Caller(db.users, session).value.id).None?)
    ensures r.success <==>
              && SignedIn(session) && id.Some? && Caller(db.users, session).Some?
              && OwnedRow(old(db.searchUrls), id.value, Caller(db.users, session).value.id).Some?
    ensures !r.success ==> unchanged(db)
    ensures r.success ==>
              && r == Reply(200, true, None, Some("Tracking URL deleted successfully"), None)
              && id.Some? && SignedIn(session) && Caller(db.users, session).Some?
              && OwnedRow(old(db.searchUrls), id.value, Caller(db.users, session).value.id).Some?
              && exists i :: 0 <= i < |old(db.searchUrls)| && old(db.searchUrls)[i].id == id.value &&
                   db.searchUrls == old(db.searchUrls)[..i] + old(db.searchUrls)[i + 1..]
  {
    if !SignedIn(session) {
      return Failure(401, "Unauthorized");
    }
    if id.None? {
      return Failure(400, "Missing URL ID");
    }
    var user := UserByEmail(db.users, session.value.email);
    if user.None? {
      return Failure(404, "User not found");
    }
    var i := IndexWhere(db.searchUrls, (s: SearchUrl) => s.id == id.value && s.userId == user.value.id);
    if i == |db.searchUrls| {
      return Failure(404, "Tracking URL not found or unauthorized");
    }
    db.RemoveSearchUrlAt(i);
    r := Reply(200, true, None, Some("Tracking URL deleted successfully"), None);
  }
}
