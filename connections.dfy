/** The connections route: a paginated, optionally date-filtered listing of the
    connections stored for one tracked person, and the request that starts a
    sync run over that person's saved search URLs. */
module Connections {

  import opened Common
  import opened Seqs
  import opened Store

  /** A numeric query parameter: absent (or empty), not a number, or a number. */
  datatype IntParam = Missing | NotANumber | Num(n: int)

  /** The `syncDate` query parameter: absent (or empty), unparsable, or an instant. */
  datatype DateParam = NoDate | BadDate | Date(at: Timestamp)

  datatype ListQuery = ListQuery(trackPersonId: Option<Id>, page: IntParam, limit: IntParam, syncDate: DateParam)

  datatype Pagination = Pagination(total: nat, currentPage: nat, totalPages: nat)

  datatype ConnectionList = ConnectionList(connections: seq<Connection>, syncDates: seq<Timestamp>, pagination: Pagination)

  const DefaultPage: int := 1
  const DefaultLimit: int := 10

  /** `parseInt(param || default)`; `None` is NaN. */
  function ParseOr(p: IntParam, default: int): Option<int>
  {
    match p
    case Missing => Some(default)
    case NotANumber => None
    case Num(n) => Some(n)
  }

  /** Neither value is NaN and both are at least 1. */
  predicate ValidPaging(q: ListQuery)
  {
    var page, limit := ParseOr(q.page, DefaultPage), ParseOr(q.limit, DefaultLimit);
    page.Some? && page.value >= 1 && limit.Some? && limit.value >= 1
  }

  function PageOf(q: ListQuery): nat
    requires ValidPaging(q)
  {
    ParseOr(q.page, DefaultPage).value
  }

  function LimitOf(q: ListQuery): nat
    requires ValidPaging(q)
  {
    ParseOr(q.limit, DefaultLimit).value
  }

  function DateOf(q: ListQuery): Option<Timestamp>
  {
    if q.syncDate.Date? then Some(q.syncDate.at) else None
  }

  /** The `where` clause: owner, tracked person, and the sync run when one is given. */
  predicate Selected(c: Connection, userId: Id, trackPersonId: Id, date: Option<Timestamp>)
  {
    c.userId == userId && c.trackPersonId == trackPersonId && (date.None? || c.syncedAt == date.value)
  }

  function SyncedAt(c: Connection): int { c.syncedAt }

  /** The selected rows in store order. */
  function SelectedRows(conns: seq<Connection>, userId: Id, trackPersonId: Id, date: Option<Timestamp>): (r: seq<Connection>)
    ensures forall c :: c in r <==> c in conns && Selected(c, userId, trackPersonId, date)
  {
    Filter(conns, (c: Connection) => Selected(c, userId, trackPersonId, date))
  }

  /** The selected rows, newest sync run first. */
  function Ordered(conns: seq<Connection>, userId: Id, trackPersonId: Id, date: Option<Timestamp>): (r: seq<Connection>)
    ensures SortedDesc(r, SyncedAt)
    ensures multiset(r) == multiset(SelectedRows(conns, userId, trackPersonId, date))
  {
    SortDesc(SelectedRows(conns, userId, trackPersonId, date), SyncedAt)
  }

  /** The bounds of `ceil(total / limit)`, by the remainder of the division. */
  lemma CeilDivision(total: nat, limit: nat)
    requires limit >= 1
    ensures total == 0 ==> total / limit == 0
    ensures total > 0 && total % limit == 0 ==> (total / limit - 1) * limit < total <= total / limit * limit
    ensures total % limit != 0 ==> (total / limit + 1 - 1) * limit < total <= (total / limit + 1) * limit
  {
    var q, m := total / limit, total % limit;
    assert total == q * limit + m;
    if m != 0 {
      assert (q + 1) * limit == q * limit + limit;
    }
  }

  /** `Math.ceil(total / limit)`: 0 for no rows, otherwise the least number of
      `limit`-row pages that holds every row. */
  function TotalPages(total: nat, limit: nat): (pages: nat)
    requires limit >= 1
    ensures total == 0 ==> pages == 0
    ensures total > 0 ==> (pages - 1) * limit < total <= pages * limit
  {
    CeilDivision(total, limit);
    if total % limit == 0 then total / limit else total / limit + 1
  }

  /** Rows before page `page`: `(page - 1) * limit`. */
  function Skip(page: nat, limit: nat): nat
    requires page >= 1
  {
    (page - 1) * limit
  }

  /** `skip` then `take` over an ordered result. */
  function Window<T>(rows: seq<T>, skip: nat, take: nat): (r: seq<T>)
    ensures |r| <= take
    ensures skip < |rows| ==> |r| == if skip + take <= |rows| then take else |rows| - skip
    ensures forall j :: 0 <= j < |r| ==> skip + j < |rows| && r[j] == rows[skip + j]
  {
    if skip >= |rows| then [] else rows[skip .. if skip + take <= |rows| then skip + take else |rows|]
  }

  /** The distinct sync instants of one tracked person's connections, newest first. */
  function SyncDates(conns: seq<Connection>, userId: Id, trackPersonId: Id): (r: seq<Timestamp>)
    ensures StrictlyDesc(r)
    ensures forall t :: t in r <==> exists c :: c in conns && Selected(c, userId, trackPersonId, None) && c.syncedAt == t
  {
    var rows := Filter(conns, (c: Connection) => Selected(c, userId, trackPersonId, None));
    var times := Map(rows, SyncedAt);
    assert forall t :: t in times ==> exists c :: c in rows && c.syncedAt == t;
    assert forall c :: c in rows ==> c.syncedAt in times by {
      forall c | c in rows ensures c.syncedAt in times {
        var i :| 0 <= i < |rows| && rows[i] == c;
        assert times[i] == c.syncedAt;
      }
    }
    DistinctDesc(times)
  }

  /** One page of the selected connections, the sync runs, and the page count. */
  function Listing(conns: seq<Connection>, userId: Id, trackPersonId: Id, date: Option<Timestamp>, page: nat, limit: nat): (l: ConnectionList)
    requires page >= 1 && limit >= 1
    ensures |l.connections| <= limit
    ensures SortedDesc(l.connections, SyncedAt)
    ensures forall c :: c in l.connections ==> c in conns && Selected(c, userId, trackPersonId, date)
    ensures l.pagination.currentPage == page
    ensures l.pagination.total == |SelectedRows(conns, userId, trackPersonId, date)|
    ensures l.pagination.totalPages == TotalPages(l.pagination.total, limit)
    ensures StrictlyDesc(l.syncDates)
  {
    var selected := SelectedRows(conns, userId, trackPersonId, date);
    var rows := Ordered(conns, userId, trackPersonId, date);
    SortDescMembers(selected, SyncedAt);
    var shown := Window(rows, Skip(page, limit), limit);
    assert SortedDesc(shown, SyncedAt);
    ConnectionList(
      shown,
      SyncDates(conns, userId, trackPersonId),
      Pagination(|selected|, page, TotalPages(|selected|, limit)))
  }

  /** GET: rejects a request without a session, without a tracked person, with bad paging
      or with an unparsable date; otherwise answers with the listing asked for. */
  function List(conns: seq<Connection>, session: Option<Principal>, q: ListQuery): (r: Reply<ConnectionList>)
    ensures session.None? ==> r == Failure(200, "Unauthorized")
    ensures session.Some? && q.trackPersonId.None? ==> r == Failure(200, "Track person ID is required")
    ensures session.Some? && q.trackPersonId.Some? && !ValidPaging(q) ==>
              r == Failure(200, "Invalid pagination parameters")
    ensures session.Some? && q.trackPersonId.Some? && ValidPaging(q) && q.syncDate.BadDate? ==>
              r == Failure(200, "Invalid sync date format")
    ensures r.success <==> session.Some? && q.trackPersonId.Some? && ValidPaging(q) && !q.syncDate.BadDate?
    ensures r.success ==>
              && r.status == 200
              && r.data == Some(Listing(conns, session.value.id, q.trackPersonId.value, DateOf(q), PageOf(q), LimitOf(q)))
  {
    if session.None? then Failure(200, "Unauthorized")
    else if q.trackPersonId.None? then Failure(200, "Track person ID is required")
    else if !ValidPaging(q) then Failure(200, "Invalid pagination parameters")
    else if q.syncDate.BadDate? then Failure(200, "Invalid sync date format")
    else Success(Listing(conns, session.value.id, q.trackPersonId.value, DateOf(q), PageOf(q), LimitOf(q)))
  }

  /** Page `k` is the `k`-th block of `limit` rows in the newest-first order. */
  lemma ListingIsWindow(conns: seq<Connection>, userId: Id, trackPersonId: Id, date: Option<Timestamp>, page: nat, limit: nat)
    requires page >= 1 && limit >= 1
    ensures var shown := Listing(conns, userId, trackPersonId, date, page, limit).connections;
            var rows := Ordered(conns, userId, trackPersonId, date);
            var skip := Skip(page, limit);
            && (forall j :: 0 <= j < |shown| ==> shown[j] == rows[skip + j])
            && (skip < |rows| ==> |shown| == if skip + limit <= |rows| then limit else |rows| - skip)
  {
    var rows := Ordered(conns, userId, trackPersonId, date);
    var skip := Skip(page, limit);
    assert Listing(conns, userId, trackPersonId, date, page, limit).connections == Window(rows, skip, limit);
  }

  lemma MulMonotone(a: int, b: int, c: nat)
    requires a <= b
    ensures a * c <= b * c
  {
    assert b * c == a * c + (b - a) * c;
  }

  /** Row positions on different pages differ. */
  lemma {:induction false} PagePositionsDiffer(limit: nat, k1: nat, k2: nat, a: nat, b: nat)
    requires 1 <= k1 && 1 <= k2 && k1 != k2 && a < limit && b < limit
    ensures Skip(k1, limit) + a != Skip(k2, limit) + b
  {
    if k1 < k2 {
      MulMonotone(k1, k2 - 1, limit);
      assert (k1 - 1) * limit + limit == k1 * limit;
    } else {
      MulMonotone(k2, k1 - 1, limit);
      assert (k2 - 1) * limit + limit == k2 * limit;
    }
  }

  /** Row position `i` lies on page `i / limit + 1`, which exists when `i` is a row. */
  lemma {:induction false} PageOfPosition(i: nat, total: nat, limit: nat) returns (k: nat, offset: nat)
    requires limit >= 1 && i < total
    ensures 1 <= k <= TotalPages(total, limit)
    ensures Skip(k, limit) + offset == i && offset < limit
  {
    var q := i / limit;
    k, offset := q + 1, i % limit;
    assert i == q * limit + i % limit;
    assert Skip(q + 1, limit) == q * limit;
    var pages := TotalPages(total, limit);
    if q + 1 > pages {
      MulMonotone(pages, q, limit);
      assert false;
    }
  }

  /** Two different pages of the same listing share no connection. */
  lemma PagesDoNotOverlap(conns: seq<Connection>, userId: Id, trackPersonId: Id, date: Option<Timestamp>,
                          limit: nat, k1: nat, k2: nat)
    requires Unique(conns, ConnectionKey)
    requires limit >= 1 && 1 <= k1 && 1 <= k2 && k1 != k2
    ensures forall c :: c in Listing(conns, userId, trackPersonId, date, k1, limit).connections ==>
              c !in Listing(conns, userId, trackPersonId, date, k2, limit).connections
  {
    var selected := SelectedRows(conns, userId, trackPersonId, date);
    var rows := Ordered(conns, userId, trackPersonId, date);
    FilterUnique(conns, (c: Connection) => Selected(c, userId, trackPersonId, date), ConnectionKey);
    UniqueHasNoDuplicates(selected, ConnectionKey);
    SameMultisetNoDuplicates(selected, rows);
    ListingIsWindow(conns, userId, trackPersonId, date, k1, limit);
    ListingIsWindow(conns, userId, trackPersonId, date, k2, limit);
    var p1 := Listing(conns, userId, trackPersonId, date, k1, limit).connections;
    var p2 := Listing(conns, userId, trackPersonId, date, k2, limit).connections;
    forall c | c in p1 ensures c !in p2 {
      var a :| 0 <= a < |p1| && p1[a] == c;
      forall b | 0 <= b < |p2| ensures p2[b] != c {
        PagePositionsDiffer(limit, k1, k2, a, b);
        assert p1[a] == rows[Skip(k1, limit) + a] && p2[b] == rows[Skip(k2, limit) + b];
      }
    }
  }

  /** The row at position `Skip(k, limit) + offset` is shown on page `k`. */
  lemma ShownOnPage(conns: seq<Connection>, userId: Id, trackPersonId: Id, date: Option<Timestamp>,
                    limit: nat, k: nat, offset: nat)
    requires limit >= 1 && k >= 1 && offset < limit
    requires Skip(k, limit) + offset < |Ordered(conns, userId, trackPersonId, date)|
    ensures Ordered(conns, userId, trackPersonId, date)[Skip(k, limit) + offset] in
              Listing(conns, userId, trackPersonId, date, k, limit).connections
  {
    ListingIsWindow(conns, userId, trackPersonId, date, k, limit);
    var shown := Listing(conns, userId, trackPersonId, date, k, limit).connections;
    assert offset < |shown|;
    assert shown[offset] == Ordered(conns, userId, trackPersonId, date)[Skip(k, limit) + offset];
  }

  /** A selected connection has a position in the ordered rows, which number `total`. */
  lemma PositionOf(conns: seq<Connection>, userId: Id, trackPersonId: Id, date: Option<Timestamp>, limit: nat, c: Connection)
    returns (i: nat)
    requires limit >= 1
    requires c in conns && Selected(c, userId, trackPersonId, date)
    ensures i < |Ordered(conns, userId, trackPersonId, date)| && Ordered(conns, userId, trackPersonId, date)[i] == c
    ensures Listing(conns, userId, trackPersonId, date, 1, limit).pagination.totalPages ==
              TotalPages(|Ordered(conns, userId, trackPersonId, date)|, limit)
  {
    var selected := SelectedRows(conns, userId, trackPersonId, date);
    SortDescMembers(selected, SyncedAt);
    var rows := Ordered(conns, userId, trackPersonId, date);
    i :| 0 <= i < |rows| && rows[i] == c;
  }

  /** Every selected connection is shown on one of the pages 1 .. totalPages. */
  lemma PagesCoverAll(conns: seq<Connection>, userId: Id, trackPersonId: Id, date: Option<Timestamp>, limit: nat, c: Connection)
    requires limit >= 1
    requires c in conns && Selected(c, userId, trackPersonId, date)
    ensures exists k :: 1 <= k <= Listing(conns, userId, trackPersonId, date, 1, limit).pagination.totalPages &&
              c in Listing(conns, userId, trackPersonId, date, k, limit).connections
  {
    var i := PositionOf(conns, userId, trackPersonId, date, limit, c);
    var k, offset := PageOfPosition(i, |Ordered(conns, userId, trackPersonId, date)|, limit);
    ShownOnPage(conns, userId, trackPersonId, date, limit, k, offset);
  }

  /** The list of sync runs is the same whichever page or sync run is asked for. */
  lemma SyncDatesIgnoreFilters(conns: seq<Connection>, userId: Id, trackPersonId: Id,
                               d1: Option<Timestamp>, d2: Option<Timestamp>, page1: nat, page2: nat, limit1: nat, limit2: nat)
    requires page1 >= 1 && page2 >= 1 && limit1 >= 1 && limit2 >= 1
    ensures var dates := Listing(conns, userId, trackPersonId, d1, page1, limit1).syncDates;
            && dates == Listing(conns, userId, trackPersonId, d2, page2, limit2).syncDates
            && forall t :: t in dates <==>
                 exists c :: c in conns && c.userId == userId && c.trackPersonId == trackPersonId && c.syncedAt == t
  {
  }

  /** The JSON body of POST; `None` when it does not parse. */
  datatype SyncBody = SyncBody(trackPersonId: Option<Id>, userId: Option<Id>)

  /** The arguments handed to the sync run, whose body is not part of this model. */
  datatype SyncCall = SyncCall(searchUrls: seq<string>, accountId: string, userId: Id, trackPersonId: Option<Id>)

  datatype SyncStart = SyncStart(reply: Reply<()>, handedOn: Option<SyncCall>)

  /** `where: { userId, trackPersonId }`; an absent `trackPersonId` drops that condition. */
  predicate OwnedSearch(s: SearchUrl, userId: Id, trackPersonId: Option<Id>)
  {
    s.userId == userId && (trackPersonId.None? || s.trackPersonId == trackPersonId.value)
  }

  /** `searchUrls.map((searchUrl) => searchUrl.url)` */
  function Urls(rows: seq<SearchUrl>): (urls: seq<string>)
    ensures |urls| == |rows| && forall i :: 0 <= i < |rows| ==> urls[i] == rows[i].url
    ensures forall u :: u in urls <==> exists s :: s in rows && s.url == u
  {
    var urls := Map(rows, (s: SearchUrl) => s.url);
    assert forall s :: s in rows ==> s.url in urls by {
      forall s | s in rows ensures s.url in urls {
        var i :| 0 <= i < |rows| && rows[i] == s;
        assert urls[i] == s.url;
      }
    }
    urls
  }

  /** POST: checks the caller and the linked account, then hands the caller's search URLs
      for the tracked person to the sync run; `syncThrows` says whether that run throws. */
  function StartSync(searchUrls: seq<SearchUrl>, details: seq<LinkedinDetails>, session: Option<Principal>,
                     body: Option<SyncBody>, syncThrows: bool): (r: SyncStart)
    ensures r.handedOn.Some? <==>
              && body.Some? && session.Some? && body.value.userId == Some(session.value.id)
              && DetailsOf(details, session.value.id).Some?
              && DetailsOf(details, session.value.id).value.accountId != ""
    ensures r.handedOn.Some? ==>
              var call := r.handedOn.value;
              && call.userId == session.value.id
              && call.trackPersonId == body.value.trackPersonId
              && call.accountId == DetailsOf(details, call.userId).value.accountId
              && (forall u :: u in call.searchUrls <==>
                    exists s :: s in searchUrls && OwnedSearch(s, call.userId, call.trackPersonId) && s.url == u)
    ensures r.handedOn.Some? ==>
              var owned := Filter(searchUrls, (s: SearchUrl) => OwnedSearch(s, session.value.id, body.value.trackPersonId));
              && |r.handedOn.value.searchUrls| == |owned|
              && forall i :: 0 <= i < |owned| ==> r.handedOn.value.searchUrls[i] == owned[i].url
    ensures r.reply.success <==> r.handedOn.Some? && !syncThrows
    ensures body.Some? && session.Some? && body.value.userId != Some(session.value.id) ==>
              r.reply == Failure(200, "Unauthorized")
  {
    if body.None? then SyncStart(Failure(200, "Internal server error"), None)
    else if session.None? || Some(session.value.id) != body.value.userId then
      SyncStart(Failure(200, "Unauthorized"), None)
    else
      var userId := session.value.id;
      var linked := DetailsOf(details, userId);
      if linked.None? || linked.value.accountId == "" then
        SyncStart(Failure(200, "LinkedIn details not found"), None)
      else
        var rows := Filter(searchUrls, (s: SearchUrl) => OwnedSearch(s, userId, body.value.trackPersonId));
        var urls := Urls(rows);
        var call := SyncCall(urls, linked.value.accountId, userId, body.value.trackPersonId);
        if syncThrows then SyncStart(Failure(200, "Internal server error"), Some(call))
        else SyncStart(Reply(200, true, None, None, None), Some(call))
  }
}
