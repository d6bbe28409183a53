/** Result shaping in the provider service: withdrawing an invitation, telling
    whether an invitation was accepted, sending a batch of invitations one by
    one, and capping a people search. Every provider call is an input here: the
    reply it gave, or that it threw. */
module LinkedinService {

  import opened Common

  /** `s.includes(part)`: `part` occurs in `s` at some position. */
  predicate Includes(s: string, part: string)
  {
    exists i :: 0 <= i <= |s| && part <= s[i..]
  }

  /** A string without the first character of `part` cannot include `part`. */
  lemma MissingFirstChar(s: string, part: string)
    requires |part| > 0 && part[0] !in s
    ensures !Includes(s, part)
  {
    forall i | 0 <= i <= |s| ensures !(part <= s[i..]) {
      assert i < |s| ==> s[i..][0] in s;
    }
  }

  // ---------------------------------------------------------------- withdrawRequest

  /** What cancelling a sent invitation gave: it threw, or a reply with its `object` field (`kind`). */
  datatype CancelReply = CancelThrew | Canceled(kind: string)

  const InvitationCanceled: string := "InvitationCanceled"

  function WithdrawRequest(reply: CancelReply): (withdrawn: bool)
    ensures reply.CancelThrew? ==> !withdrawn
    ensures reply.Canceled? ==> (withdrawn <==> reply.kind == InvitationCanceled)
  {
    reply.Canceled? && reply.kind == InvitationCanceled
  }

  // ---------------------------------------------------------------- checkIfInvitationAccepted

  /** What the profile lookup gave: it threw, or a profile whose `network_distance`
      may be missing. */
  datatype ProfileReply = ProfileThrew | Profile(networkDistance: Option<string>)

  function CheckIfInvitationAccepted(reply: ProfileReply): (accepted: bool)
    ensures reply.ProfileThrew? || reply.networkDistance.None? ==> !accepted
    ensures reply.Profile? && reply.networkDistance.Some? ==>
              (accepted <==> Includes(reply.networkDistance.value, "1st") || Includes(reply.networkDistance.value, "FIRST"))
  {
    match reply
    case ProfileThrew => false
    // reading `.includes` of a missing distance throws, and the catch gives false
    case Profile(None) => false
    case Profile(Some(d)) => Includes(d, "1st") || Includes(d, "FIRST")
  }

  /** First-degree labels count as accepted, whatever follows the marker. */
  lemma FirstDegreeLabelsAccepted(rest: string)
    ensures CheckIfInvitationAccepted(Profile(Some("FIRST" + rest)))
    ensures CheckIfInvitationAccepted(Profile(Some("1st" + rest)))
  {
    assert "FIRST" <= ("FIRST" + rest)[0..];
    assert "1st" <= ("1st" + rest)[0..];
  }

  /** A label with neither a '1' nor an 'F' in it (`2nd`, `3rd`, `SECOND_DEGREE`) does not. */
  lemma NoMarkerCharNotAccepted(d: string)
    requires '1' !in d && 'F' !in d
    ensures !CheckIfInvitationAccepted(Profile(Some(d)))
  {
    MissingFirstChar(d, "1st");
    MissingFirstChar(d, "FIRST");
  }

  // ---------------------------------------------------------------- sendConnectionRequest

  /** One requested invitation; "" stands for a missing field. */
  datatype Invite = Invite(linkedinId: string, message: string)

  /** What the lookup-then-send calls for one item gave: one of them threw, or the
      send replied with an `invitation_id` ("" when it is missing). */
  datatype SendReply = SendThrew | Sent(invitationId: string)

  datatype InviteResult = InviteResult(linkedinId: string, success: bool, invitationId: Option<string>)

  /** The entry pushed for one item that could be destructured. */
  function ResultFor(linkedinId: string, reply: SendReply): (r: InviteResult)
    ensures r.linkedinId == linkedinId
    ensures r.success <==> reply.Sent? && reply.invitationId != ""
    ensures r.success ==> r.invitationId == Some(reply.invitationId)
    ensures !r.success ==> r.invitationId.None?
  {
    match reply
    case SendThrew => InviteResult(linkedinId, false, None)
    case Sent(id) => if id != "" then InviteResult(linkedinId, true, Some(id)) else InviteResult(linkedinId, false, None)
  }

  /** `item.linkedinId`, reading a null entry as a missing id. */
  function IdOf(item: Option<Invite>): string
  {
    if item.Some? then item.value.linkedinId else ""
  }

  /** The fallback of the outer catch as written, `data.map(item => ({ linkedinId:
      item.linkedinId, success: false }))`: it throws (`None`) on a null entry. */
  function WrittenFallback(items: seq<Option<Invite>>): (r: Option<seq<InviteResult>>)
    ensures r.Some? <==> forall i :: 0 <= i < |items| ==> items[i].Some?
    ensures r.Some? ==> |r.value| == |items|
  {
    if items == [] then Some([])
    else if items[0].None? then None
    else
      var rest := WrittenFallback(items[1..]);
      if rest.None? then None
      else Some([InviteResult(items[0].value.linkedinId, false, None)] + rest.value)
  }

  /** The outer catch is reached only when destructuring a null entry throws, and
      then the fallback as written throws on that same entry: the batch rejects
      instead of reporting every item as failed. */
  lemma WrittenFallbackRejects(items: seq<Option<Invite>>, k: nat)
    requires k < |items| && items[k].None?
    ensures WrittenFallback(items) == None
  {
  }

  /** The fallback as intended: every item, null or not, reported as failed. */
  function Fallback(items: seq<Option<Invite>>): (r: seq<InviteResult>)
    ensures |r| == |items|
    ensures forall i :: 0 <= i < |items| ==> r[i] == InviteResult(IdOf(items[i]), false, None)
  {
    if items == [] then [] else [InviteResult(IdOf(items[0]), false, None)] + Fallback(items[1..])
  }

  /** Sends the invitations one by one. `replies[i]` is what the provider calls for
      item `i` give; a null item makes the destructuring throw, which ends the loop
      in the outer catch. */
  method SendConnectionRequest(items: seq<Option<Invite>>, replies: seq<SendReply>) returns (results: seq<InviteResult>)
    requires |replies| == |items|
    ensures |results| == |items|
    ensures forall i :: 0 <= i < |items| ==> results[i].linkedinId == IdOf(items[i])
    ensures forall i :: 0 <= i < |items| ==> (results[i].success <==> results[i].invitationId.Some?)
    ensures (forall i :: 0 <= i < |items| ==> items[i].Some?) ==>
              forall i :: 0 <= i < |items| ==> results[i] == ResultFor(items[i].value.linkedinId, replies[i])
    ensures (exists i :: 0 <= i < |items| && items[i].None?) ==>
              forall i :: 0 <= i < |items| ==> !results[i].success
  {
    results := [];
    var i := 0;
    while i < |items|
      invariant 0 <= i <= |items|
      invariant |results| == i
      invariant forall k :: 0 <= k < i ==> items[k].Some? && results[k] == ResultFor(items[k].value.linkedinId, replies[k])
    {
      if items[i].None? {
        return Fallback(items);
      }
      results := results + [ResultFor(items[i].value.linkedinId, replies[i])];
      i := i + 1;
    }
  }

  // ---------------------------------------------------------------- searchPeopleLinkedin

  /** What the search call gave: it threw, or a body whose `items` may be missing. */
  datatype SearchReply<T> = SearchThrew | SearchData(items: Option<seq<T>>)

  const DefaultSearchLimit: int := 10

  /** The end index `Array.prototype.slice(0, end)` uses on a list of length `len`. */
  function SliceEnd(len: nat, end: int): (e: nat)
    ensures e <= len
    ensures 0 <= end ==> e == if end < len then end else len
    ensures end < 0 ==> e == if len + end < 0 then 0 else len + end
  {
    if end < 0 then (if len + end < 0 then 0 else len + end)
    else if end < len then end
    else len
  }

  /** `data.items.slice(0, limit)`, or [] when the call or the slicing throws. */
  function SearchPeopleLinkedin<T>(reply: SearchReply<T>, limit: Option<int>): (people: seq<T>)
    ensures reply.SearchThrew? || reply.items.None? ==> people == []
    ensures reply.SearchData? && reply.items.Some? ==> people <= reply.items.value
    ensures reply.SearchData? && reply.items.Some? ==>
              var cap := if limit.Some? then limit.value else DefaultSearchLimit;
              0 <= cap ==> |people| == if cap < |reply.items.value| then cap else |reply.items.value|
  {
    if reply.SearchThrew? || reply.items.None? then []
    else
      var items := reply.items.value;
      var cap := if limit.Some? then limit.value else DefaultSearchLimit;
      items[..SliceEnd(|items|, cap)]
  }

  /** Without a limit at most ten people come back. */
  lemma DefaultSearchCap<T>(reply: SearchReply<T>)
    ensures |SearchPeopleLinkedin(reply, None)| <= 10
  {
  }
}
