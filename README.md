# Owned-record store and request handlers of a people-tracking web app

This project models, in Dafny, the server side of a small web application in
which a user signs in with email and password, links a LinkedIn account
through a provider, chooses people to track, saves people-search URLs for
each tracked person, and browses the connections a sync run discovered for
them. The model covers:

- the page guard that runs before every page (`middleware.ts`);
- the connections route: a paginated, optionally date-filtered listing, and
  the request that starts a sync run;
- the search-URL routes (list, add, edit, delete) with their ownership checks;
- the tracked-person routes (list, add with per-owner uniqueness and derived
  fields, and a cascading all-or-nothing delete);
- the provider service's result shaping (`withdrawRequest`,
  `checkIfInvitationAccepted`, `sendConnectionRequest`, `searchPeopleLinkedin`);
- the user service's bookkeeping of linked accounts (two conflict checks,
  delete-on-duplicate, the upsert, the projections) and the connect-status
  route that uses it;
- credential sign-in (`authorize`, the `jwt` and `session` callbacks) and
  sign-up.

The relational store is the class `Store.Database`: one `seq` field per table
(users, linked-account details, tracked persons, search URLs, connections)
and a monotone id counter. Its `Valid()` predicate holds the schema's unique
constraints: user id and email, one linked account per user, tracked-person
id and (owner, username), search-URL id, and connection (owner, tracked
person, username). It also says that every id in use is below the counter.
The writes to the tracked-person, search-URL and connection tables (create,
update, delete and delete-many) are methods of `Database`, each keeping
`Valid()`; sign-up's user create and the user service's link delete and upsert
write their fields directly. Every route handler that writes to the store is a
method with a field-level `modifies` clause (the auth callbacks, which update the token and
session objects in place, are not store writes). It keeps `Valid()`, and it states its whole new
state: the row appended, the row replaced, or the rows removed. Every rejection
leaves the store unchanged, with one exception: when the provider's account
deletion throws, the caller's link row has already been deleted, so the
duplicate-account check answers with an error after that write.
Read-only handlers are functions over the table contents.

The session is `Option<Principal>`: the signed-in user's id and email. Provider
calls, password hashing and comparison, schema validation and the clock are
parameters: the reply a call gave, or that it threw, or the value the
collaborator returned. Missing or null strings are `""` wherever the source
tests them for truthiness. HTTP replies are the envelope
`Reply(status, success, error, message, data)`, except for two routes whose
bodies have their own shape: the connect-status route answers a `StatusReply`
(`success`, `status` "SUCCESS" or "FAILED", `isConnected`, `duplicateAccount`,
`accountId`, `linkedinDetails`) and sign-up a `SignUpReply` (`message` and
`user`, with no `success` field). The connections route answers every error
with HTTP 200, as its source does.

## Model

| member | source | states |
|---|---|---|
| `Middleware.IsConnected` | middleware.ts:26 | `!token.needsLinkedinConn`: an absent flag counts as connected, a present one as its negation |
| `Middleware.Guard` | middleware.ts:5-42 | every redirect goes to `/auth/signin`, `/dashboard` or `/connect-linkedin`, and only the one to sign-in carries a `callbackUrl`, the requested path; a request passes only with a token off the auth pages or without one on them |
| `Middleware.AuthPagesGuard` | middleware.ts:7-16 | on a path starting with `/auth`, a token is sent to `/dashboard` and no token passes, both ways |
| `Middleware.SignedOutGuard` | middleware.ts:18-23 | elsewhere a request without a token goes to `/auth/signin` with `callbackUrl` set to the requested path |
| `Middleware.ConnectPageGuard` | middleware.ts:25-34 | on `/connect-linkedin`, a connected user (`needsLinkedinConn` not true) goes to `/dashboard`; the request passes exactly when the user is not connected |
| `Middleware.OtherPagesGuard` | middleware.ts:36-41 | on any other page an unconnected user goes to `/connect-linkedin`; the request passes exactly when the user is connected |
| `Middleware.GuardPassesExactly` | middleware.ts:5-42 | the guard lets a request through exactly when the page suits the caller: auth pages without a token, the connect page when unconnected, other pages when connected |
| `Middleware.TargetsAreNotAuthPages` | middleware.ts:13-38 | `/dashboard` and `/connect-linkedin` are not auth pages, `/auth/signin` is |
| `Middleware.NoSelfRedirect` | middleware.ts:11-41 | no decision redirects a request to the path it asked for |
| `Middleware.RedirectsSettle` | middleware.ts:11-41 | following the redirects with the same token reaches a passing page within two hops |
| `Connections.TotalPages` | app/api/linkedin/connections/route.ts:70 | `Math.ceil(total/limit)` is 0 for no rows and otherwise the least page count with `(totalPages-1)*limit < total <= totalPages*limit` |
| `Connections.SelectedRows` | app/api/linkedin/connections/route.ts:33-48 | the `where` clause: exactly the caller's connections of the tracked person, of the asked sync run when one is given |
| `Connections.Ordered` | app/api/linkedin/connections/route.ts:72-79 | `orderBy: { syncedAt: "desc" }`: a permutation of the selected rows, newest sync run first |
| `Connections.Window` | app/api/linkedin/connections/route.ts:73-80 | skip/take gives at most `take` rows, the rows from position `skip` on, in order, and exactly `min(take, rows-skip)` of them when `skip` is inside the rows |
| `Connections.SyncDates` | app/api/linkedin/connections/route.ts:51-63 | the sync dates are strictly descending (so duplicate-free) and are exactly the `syncedAt` values of the caller's connections of that tracked person |
| `Connections.Listing` | app/api/linkedin/connections/route.ts:33-93 | a page holds at most `limit` connections, newest first, all of them the caller's, of the tracked person and of the asked sync run; `total` counts every selected row and `totalPages` is its ceiling over `limit` |
| `Connections.List` | app/api/linkedin/connections/route.ts:8-101 | no session, no tracked person, a NaN or sub-1 page or limit (defaults 1 and 10), and an unparsable date are each rejected with their own error, in that order; otherwise the reply carries the listing |
| `Connections.ListingIsWindow` | app/api/linkedin/connections/route.ts:73-80 | page `k` is rows `[(k-1)*limit, (k-1)*limit+limit)` of the selected rows ordered by `syncedAt` descending |
| `Connections.PagePositionsDiffer` | app/api/linkedin/connections/route.ts:75-76 | positions on two different pages never coincide |
| `Connections.PageOfPosition` | app/api/linkedin/connections/route.ts:70-76 | every row position lies on some page between 1 and `totalPages` |
| `Connections.PagesDoNotOverlap` | app/api/linkedin/connections/route.ts:73-80 | two different pages of the same listing share no connection, given one fixed order of the selected rows (see `## Left out`: rows of one sync run tie on `syncedAt`, and the store does not fix their order across queries) |
| `Connections.ShownOnPage` | app/api/linkedin/connections/route.ts:73-80 | the row at offset `offset` of page `k` is in that page's listing |
| `Connections.PositionOf` | app/api/linkedin/connections/route.ts:66-80 | every selected connection has a position in the ordered rows, and page 1 reports `totalPages` as the ceiling of the count over the limit |
| `Connections.PagesCoverAll` | app/api/linkedin/connections/route.ts:66-80 | every selected connection appears on one of pages 1 to `totalPages`, given one fixed order of the selected rows (see `## Left out` on tied `syncedAt`) |
| `Connections.SyncDatesIgnoreFilters` | app/api/linkedin/connections/route.ts:51-63 | the sync-date list does not depend on the page, the limit or the `syncDate` filter |
| `Connections.Urls` | app/api/linkedin/connections/route.ts:124 | one URL per search row, in the rows' order, and exactly the rows' URLs as a set |
| `Connections.StartSync` | app/api/linkedin/connections/route.ts:103-132 | the sync run is started exactly when the body parses, the body's userId is the session user and a linked accountId exists; it receives the URL of each of the caller's search rows for that tracked person, one per row and in store order (a URL saved twice is handed on twice); a userId mismatch answers "Unauthorized"; success exactly when the run does not throw |
| `Seqs.SortDesc` | app/api/linkedin/tracked/route.ts:18-20 | `orderBy: desc` gives a descending permutation of the selected rows |
| `Store.UserByEmail` | app/api/tracking-urls/route.ts:14-16 | the user found has the email; none found means no user has it |
| `Store.DetailsOf` | app/services/user.service.ts:78-91 | the linked account found belongs to the user; none found means the user has none |
| `Store.Database.InsertTrackPerson` | app/api/linkedin/tracked/route.ts:66-76 | a create appends the row under the next id and keeps ids and (owner, username) unique |
| `Store.Database.RemoveTrackPersonAt` | app/api/linkedin/tracked/route.ts:119-121 | a delete removes exactly the one row and keeps the store's constraints |
| `Store.Database.InsertSearchUrl` | app/api/tracking-urls/route.ts:61-68 | a create appends the row under the next id and keeps ids unique |
| `Store.Database.ReplaceSearchUrl` | app/api/tracking-urls/route.ts:114-120 | an update replaces the one row in place, id unchanged, and keeps ids unique |
| `Store.Database.RemoveSearchUrlAt` | app/api/tracking-urls/route.ts:167-169 | a delete removes exactly the one row and keeps ids unique |
| `Store.Database.DeleteSearchUrlsOf` | app/api/linkedin/tracked/route.ts:116-118 | a delete-many keeps exactly the rows of other tracked persons, in order |
| `Store.Database.DeleteConnectionsOf` | app/api/linkedin/tracked/route.ts:113-115 | a delete-many keeps exactly the connections of other tracked persons, in order |
| `TrackingUrls.List` | app/api/tracking-urls/route.ts:7-37 | 401 without a session email, 404 for an unknown user, otherwise exactly the caller's search URLs, newest first |
| `TrackingUrls.Create` | app/api/tracking-urls/route.ts:40-78 | 401, 500 for a body that is not JSON, 400 for a missing title, url or trackPersonId, 404 for an unknown user, each with no write; otherwise exactly one row appended, owned by the caller, with a fresh id and the given fields |
| `TrackingUrls.Edited` | app/api/tracking-urls/route.ts:114-120 | only the fields supplied non-empty are overwritten; id, owner, tracked person and creation time stay |
| `TrackingUrls.Update` | app/api/tracking-urls/route.ts:81-130 | 400 without an id or without both title and url; 404 exactly when the user is unknown or the id is not the caller's; rejections write nothing; success exactly when the request is signed in, complete and names one of the caller's rows, and then it edits that one row and leaves every other row as it was |
| `TrackingUrls.Delete` | app/api/tracking-urls/route.ts:133-179 | 400 without an id; 404 exactly when the user is unknown or the id is not the caller's; rejections write nothing; success exactly when the id names one of the caller's rows, and then exactly the one row with that id is removed |
| `Tracked.List` | app/api/linkedin/tracked/route.ts:7-30 | 401 without a session, otherwise exactly the profiles the caller added, newest first |
| `Tracked.NewTrackPerson` | app/api/linkedin/tracked/route.ts:66-76 | the created row has the caller, username and creation time; its name is first name, a space and last name (missing parts read as empty); avatar, title and location come from the picture URL, headline and location; the profile URL is the public one when present and otherwise `https://www.linkedin.com/in/<username>` |
| `Tracked.TrackedNameParts` | app/api/linkedin/tracked/route.ts:70 | the stored name splits back into the first name, one space and the last name, for every profile (so a nameless one is stored as `" "`) |
| `Tracked.Add` | app/api/linkedin/tracked/route.ts:32-86 | a missing username, a username the caller already tracks, no linked accountId, and a profile lookup that finds nothing each fail with no write; success appends one derived row with a fresh id and keeps (owner, username) unique |
| `Tracked.DeleteTracked` | app/api/linkedin/tracked/route.ts:112-122 | the three statements commit together or, when one throws, leave the store exactly as it was |
| `Tracked.Remove` | app/api/linkedin/tracked/route.ts:88-129 | 400 without an id and 404 for a profile the caller does not own, with no write; a failing statement of the transaction rolls everything back; success removes the profile, every connection and every search URL of it, and nothing else |
| `LinkedinService.WithdrawRequest` | app/services/linkedin.service.ts:5-17 | true exactly when the reply's `object` is `InvitationCanceled`; an error gives false |
| `LinkedinService.CheckIfInvitationAccepted` | app/services/linkedin.service.ts:19-31 | true exactly when `network_distance` contains `1st` or `FIRST`; an error or a missing distance gives false |
| `LinkedinService.FirstDegreeLabelsAccepted` | app/services/linkedin.service.ts:25-26 | a distance label that starts with `FIRST` or `1st` counts as accepted |
| `LinkedinService.NoMarkerCharNotAccepted` | app/services/linkedin.service.ts:25-26 | a label containing neither `1` nor `F` (such as `2nd`, `3rd` or `SECOND_DEGREE`) is not accepted |
| `LinkedinService.MissingFirstChar` | app/services/linkedin.service.ts:26 | a label without the marker's first character cannot contain the marker |
| `LinkedinService.ResultFor` | app/services/linkedin.service.ts:50-63 | an item's result carries its linkedinId and is a success with that invitationId exactly when the send returned a non-empty `invitation_id` |
| `LinkedinService.WrittenFallback` | app/services/linkedin.service.ts:69-72 | the fallback as written yields a list only when no entry is null |
| `LinkedinService.WrittenFallbackRejects` | app/services/linkedin.service.ts:36-37 | a null entry, the only way into the outer catch, makes the written fallback throw as well |
| `LinkedinService.Fallback` | app/services/linkedin.service.ts:67-72 | one failed result per input item, in order, carrying that item's linkedinId |
| `LinkedinService.SendConnectionRequest` | app/services/linkedin.service.ts:33-74 | one result per item, in input order, each with its item's linkedinId; without null entries each result is that item's own outcome, so one failure does not affect the others; success exactly when an invitationId is present; on a null entry it returns the corrected fallback `Fallback` (see `## Findings`) where the source rejects |
| `LinkedinService.SliceEnd` | app/services/linkedin.service.ts:127 | the end index of `slice(0, end)`: clamped to the length, counted from the end when negative |
| `LinkedinService.SearchPeopleLinkedin` | app/services/linkedin.service.ts:111-132 | a prefix of the provider's items, of length `min(limit, items)` for a non-negative limit (default 10), and `[]` on an error |
| `LinkedinService.DefaultSearchCap` | app/services/linkedin.service.ts:111 | without a limit at most ten people come back |
| `UserService.CheckForAccountConflict` | app/services/user.service.ts:5-21 | true only when a row with that email belongs to another user; when the caller has no row with that email, true exactly when some row has it |
| `UserService.ConflictWithUniqueEmails` | app/services/user.service.ts:7-16 | with each email linked at most once, a conflict is exactly a row with the email owned by another user |
| `UserService.Matching` | app/services/user.service.ts:25-27 | the rows matching the email or the username |
| `UserService.SeveralMatchesIncludeAnotherUser` | app/services/user.service.ts:28 | with one link per user, more than one matching row always includes another user's row |
| `UserService.CheckForAccountConflictAndDelete` | app/services/user.service.ts:23-49 | at most one match answers false with no write; otherwise the caller's own row, and only it, is deleted and true is answered; a missing own row or a failing provider deletion comes back as an error, the latter after the row is gone |
| `UserService.SaveLinkedinDetails` | app/services/user.service.ts:51-76 | a missing profile throws before any write, even when the user already has a row; otherwise an upsert by userId: an existing row gets only the new accountId and every other row stays, or one row is appended from the profile; afterwards the user has exactly this row |
| `UserService.GetLinkedinProfile` | app/services/user.service.ts:93-111 | name is first + " " + last (a missing part reads `undefined`), username is `public_identifier`, headline is `occupation`; null on an empty reply or an error |
| `UserService.ProfileNameParts` | app/services/user.service.ts:98 | the name is the first name, one space and the last name |
| `UserService.GetLinkedinDetails` | app/services/user.service.ts:113-136 | the user's stored link projected without its owner, or null when there is none |
| `UserService.SavedAccountIsRead` | app/services/user.service.ts:53-59 | once a link is saved, reading it back gives the new accountId |
| `ConnectStatus.Status` | app/api/linkedin/connect/status/route.ts:4-66 | no userId answers 400 "User id is required"; no link answers not connected without a duplicate flag; a link shared with another user is deleted, exactly that one row and no other, and answers duplicate (failed when the provider deletion throws); otherwise connected with the stored accountId and the provider profile |
| `Auth.ClaimOf` | lib/auth.ts:46-54 | each of the seven `linkedinDetails` claim fields is the linked account's field of the same name, or missing when no account is linked |
| `Auth.Authorize` | lib/auth.ts:17-56 | fails with "Invalid credentials" exactly when the email or password is missing, the user is unknown, has no password, or the comparison fails; success returns the stored user's id, email and name, with `needsLinkedinConn` true exactly when no account is linked |
| `Auth.SignInClaims` | lib/auth.ts:64-70 | the token claims written on sign-in are the five fields of the signed-in user |
| `Auth.SignedInConnectedIffLinked` | lib/auth.ts:45 | right after sign-in the page guard treats the user as connected exactly when an account is linked |
| `Auth.Overlay` | lib/auth.ts:61-62 | for each of the five claims, the update's value replaces the token's when the update carries it, and the token's stays otherwise |
| `Auth.OverlayIdempotent` | lib/auth.ts:61-62 | applying the same update twice equals applying it once; an empty update changes nothing |
| `Auth.Token.constructor` | lib/auth.ts:62 | a token built from claims holds exactly those claims |
| `Auth.Jwt` | lib/auth.ts:60-72 | an update with `session.user` returns a new token overlaid with it and leaves the old one; otherwise a sign-in writes the five user fields into the token, and with neither the token is returned unchanged |
| `Auth.SessionCallback` | lib/auth.ts:73-82 | when `session.user` exists its five fields become the token's; otherwise the session is unchanged |
| `SignUp.WithoutPassword` | app/api/auth/signup/route.ts:33 | the answered user has the stored id, name and email and no password field |
| `SignUp.Register` | app/api/auth/signup/route.ts:6-40 | a body that fails validation answers 500 and an existing email 409, with no write; otherwise exactly one user is appended with a fresh id, the name, the email and the hashed password, and 201 answers it without the password |
| `SignUp.SignUpThenSignIn` | app/api/auth/signup/route.ts:21-30 | a user who just signed up can sign in with the same email and password when the comparison accepts a password against its own hash |

## Left out

- The body of the sync run is not part of this model: the connections POST stops at the call and returns the arguments it would hand on (`SyncCall`), with `syncThrows` standing for the call's outcome.
- The React pages and components, the provider client construction, the hosted-auth link route and the thin profile wrappers (`getBasicUserProfile`, `getUserProfile`, `getUserExperience`, `getUserEducation`) are not modelled; where a route uses a wrapper, its reply is a parameter (`ProfileLookup`, `OwnProfileReply`).
- `getAccountId` is not modelled: it is the `DetailsOf` lookup followed by a field read, and no modelled route calls it.
- Password hashing and comparison (`hash`, `matches`), schema validation (an `Option` body) and the clock (`now`) are parameters; the salt rounds of the hash are not modelled.
- Failures of the store are not modelled, so the catch branches they lead to are not either: "Failed to fetch tracked profiles", "Failed to fetch tracking URLs", "Failed to delete tracking URL", and the connections GET's "Internal server error". The exceptions are the tracked-person transaction (`failAt`) and the provider account deletion (`providerDeleteFails`), where a failure changes what is stored.
- TrackingUrls.Create: does not model the foreign-key constraint on `trackPersonId`, so a create naming a tracked person that does not exist succeeds in the model where the store would throw and the route answer 500.
- UserService.SaveLinkedinDetails: does not model the foreign-key constraint on `userId`, so a link for an unknown user is created in the model where the store would throw.
- UserService.SaveLinkedinDetails: the error it throws carries the user id and the underlying error's text; the model's error is the fixed prefix `Error saving linkedin details`.
- LinkedinService.SendConnectionRequest: on a null entry the source's outer catch throws again and the call rejects; the method returns the corrected fallback instead, and the behaviour as written is `LinkedinService.WrittenFallback` (see `## Findings`).
- TrackingUrls.List: does not model the `include: { trackPerson: true }` join; rows come back without the tracked person attached.
- Ids are natural numbers from a counter instead of generated strings; an empty id parameter is read as a missing one.
- Null and empty string columns are the same value `""`, so a username lookup with `""` in `checkForAccountConflictAndDelete` matches rows whose username is null as well as empty.
- `parseInt` and `new Date` parsing are not modelled: the query parameters arrive as a number, a NaN marker or an absent value, and dates as opaque instants.
- Rows with equal timestamps come back in store order (a stable sort); the store itself leaves their order unspecified. Connections.PagesDoNotOverlap and Connections.PagesCoverAll therefore hold for one fixed order of the rows: every connection of one sync run shares its `syncedAt`, so with a `syncDate` filter all selected rows tie, and separate `skip`/`take` queries may order tied rows differently and overlap or miss rows.
- The connections GET checks only that a session exists; the model's session always carries a user id.
- The JWT's and the session's own claims (`sub`, `exp`, `picture`, `expires`), the `jobsLastSyncedAt` claim and the token lifetime are not modelled.
- The matcher that decides which paths the page guard runs on is not modelled; the guard is taken as applied to the given path.
- `sendConnectionRequest` reaches its outer catch in the model only through a null entry; a `data` value that is not iterable is not modelled, since the input is a sequence.
- `searchPeopleLinkedin` takes an integer limit; fractional and NaN limits, and the request it builds, are not modelled.
- Logging is left out throughout.

## Findings

| source | as written | input that shows it | evidently intended | confidence | as-written member | corrected member |
|---|---|---|---|---|---|---|
| app/services/linkedin.service.ts:67-72 | the outer catch maps `data` with `item.linkedinId`; it is reached only when destructuring a null entry throws at line 37, and the same null entry then throws again in the map, so the call rejects | `data = [null]` (or any list with a null entry) | every item reported as `{ linkedinId, success: false }`, reading a null entry's id as missing | high, not executed | `LinkedinService.WrittenFallbackRejects` | `LinkedinService.Fallback` |
