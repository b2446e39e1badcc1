/**
 * The guide's request page: it lists the requests whose veteran is the
 * signed-in guide, decides per request whether it is the guide's turn
 * (a second copy of the turn rule) and replaces a request in its list when
 * the server answers an update.
 */
module GuideRequests {
  import opened Wrappers
  import opened Http
  import opened Text
  import opened TourModel
  import opened OffersModal

  /** The signed-in user as `/api/auth/me` returns them. */
  datatype Viewer = Viewer(id: Id, userType: string)

  /** `String(x)` of an optional id where a missing value is `null`. */
  function ShowNull(o: Option<Id>): string {
    if o.Some? then o.value else "null"
  }

  /** `r ? r._id ?? r : null`: a populated object's `_id`, a non-empty bare id, or null. */
  function PageRefId(r: Ref): Option<Id> {
    match r
    case Populated(id, _) => Some(id)
    case Raw(raw) => if raw != "" then Some(raw) else None
    case Missing => None
  }

  /** The `my` filter, keeping the list's order. */
  function MyRequests(requests: seq<ClientRequest>, viewer: Viewer): (r: seq<ClientRequest>)
    ensures |r| <= |requests|
  {
    if requests == [] then []
    else (if ShowNull(PageRefId(requests[0].veteran)) == viewer.id then [requests[0]] else [])
         + MyRequests(requests[1..], viewer)
  }

  /** The page's copy of the turn rule, as written: on a blank last `who` the veteran has the turn. */
  function GuideMyTurn(s: TourStatus, lastWho: Option<string>, isNewbie: bool, isVeteran: bool): bool {
    if !Actionable(s) then false
    else if !Truthy(lastWho) then (if isVeteran then true else false)
    else if lastWho.value == "newbie" then isVeteran
    else if lastWho.value == "veteran" then isNewbie
    else false
  }

  /** The rule the comment beside it describes ("newbie starts, so veteran waits"): the dialog's rule. */
  function GuideMyTurnFixed(s: TourStatus, lastWho: Option<string>, isNewbie: bool, isVeteran: bool): (r: bool)
    ensures r == ModalMyTurn(s, lastWho, isNewbie, isVeteran)
  {
    if !Actionable(s) then false
    else if !Truthy(lastWho) then isNewbie
    else if lastWho.value == "newbie" then isVeteran
    else if lastWho.value == "veteran" then isNewbie
    else false
  }

  /**
   * The two copies disagree exactly when negotiation is open, there is no
   * named last entry, and the viewer is one party but not the other.
   */
  lemma TurnRulesDiffer(s: TourStatus, lastWho: Option<string>, isNewbie: bool, isVeteran: bool)
    ensures GuideMyTurn(s, lastWho, isNewbie, isVeteran) != ModalMyTurn(s, lastWho, isNewbie, isVeteran)
      <==> Actionable(s) && !Truthy(lastWho) && isNewbie != isVeteran
  {
  }

  /** With entries naming only the two parties, that is exactly the empty log. */
  lemma TurnRulesDifferOnlyOnEmptyLog(s: TourStatus, offers: seq<OfferEntry>, isNewbie: bool, isVeteran: bool)
    requires forall k :: 0 <= k < |offers| ==> TypedWho(offers[k].who)
    requires isNewbie != isVeteran
    ensures GuideMyTurn(s, LastWho(offers), isNewbie, isVeteran) != ModalMyTurn(s, LastWho(offers), isNewbie, isVeteran)
      <==> Actionable(s) && offers == []
  {
    TurnRulesDiffer(s, LastWho(offers), isNewbie, isVeteran);
    if offers != [] {
      assert TypedWho(offers[|offers| - 1].who);
    }
  }

  /** As written, a guide sees an untouched request as their turn, though the dialog says the newbie must open. */
  lemma GuideOpensAsWritten(s: TourStatus)
    requires Actionable(s)
    ensures GuideMyTurn(s, LastWho([]), false, true)
    ensures !ModalMyTurn(s, LastWho([]), false, true)
  {
  }

  /** The corrected rule keeps the guide waiting on an empty log and answers their turn after a newbie offer. */
  lemma GuideWaitsWhenFixed(s: TourStatus, offers: seq<OfferEntry>)
    requires Actionable(s)
    ensures offers == [] ==> !GuideMyTurnFixed(s, LastWho(offers), false, true)
    ensures offers != [] && offers[|offers| - 1].who == "newbie" ==> GuideMyTurnFixed(s, LastWho(offers), false, true)
    ensures offers != [] && offers[|offers| - 1].who == "veteran" ==> !GuideMyTurnFixed(s, LastWho(offers), false, true)
  {
  }

  /** The viewer's roles as the page computes them. */
  function PageIsNewbie(v: Viewer, r: ClientRequest): bool {
    v.id == ShowNull(PageRefId(r.newbie))
  }

  function PageIsVeteran(v: Viewer, r: ClientRequest): bool {
    v.id == ShowNull(PageRefId(r.veteran))
  }

  /**
   * Confirm and Cancel (and View Offers) are shown for a listed request when
   * the page's own turn rule, as written, gives the viewer the turn.
   */
  function ShowsControls(v: Viewer, r: ClientRequest): bool {
    GuideMyTurn(r.status, LastWho(r.offers), PageIsNewbie(v, r), PageIsVeteran(v, r))
  }

  /** What the page would show with the corrected rule. */
  function ShowsControlsFixed(v: Viewer, r: ClientRequest): bool {
    GuideMyTurnFixed(r.status, LastWho(r.offers), PageIsNewbie(v, r), PageIsVeteran(v, r))
  }

  /**
   * On populated requests the page and the dialog agree on who the viewer
   * is, so the page shows its controls exactly when the dialog gives the
   * turn, except on an open request with no named last entry viewed by one
   * party only; with entries naming only the two parties, that is the
   * empty log.
   */
  lemma PageAgreesWithDialog(v: Viewer, r: ClientRequest)
    requires r.newbie.Populated? && r.veteran.Populated?
    ensures ShowsControls(v, r) != MyTurn(Some(v.id), r)
      <==> Actionable(r.status) && !Truthy(LastWho(r.offers)) && PageIsNewbie(v, r) != PageIsVeteran(v, r)
    ensures (forall k :: 0 <= k < |r.offers| ==> TypedWho(r.offers[k].who)) && PageIsNewbie(v, r) != PageIsVeteran(v, r) ==>
      (ShowsControls(v, r) != MyTurn(Some(v.id), r) <==> Actionable(r.status) && r.offers == [])
  {
    TurnRulesDiffer(r.status, LastWho(r.offers), PageIsNewbie(v, r), PageIsVeteran(v, r));
    if (forall k :: 0 <= k < |r.offers| ==> TypedWho(r.offers[k].who)) && PageIsNewbie(v, r) != PageIsVeteran(v, r) {
      TurnRulesDifferOnlyOnEmptyLog(r.status, r.offers, PageIsNewbie(v, r), PageIsVeteran(v, r));
    }
  }

  /** With the corrected rule the page and the dialog agree on every populated request. */
  lemma FixedPageAgreesWithDialog(v: Viewer, r: ClientRequest)
    requires r.newbie.Populated? && r.veteran.Populated?
    ensures ShowsControlsFixed(v, r) == MyTurn(Some(v.id), r)
  {
  }

  /** Controls appear only while the request is requested or offered. */
  lemma ControlsOnlyWhileOpen(v: Viewer, r: ClientRequest)
    requires ShowsControls(v, r)
    ensures Actionable(r.status)
  {
  }

  /** The filter keeps exactly the requests whose guide reference is the viewer's id. */
  lemma {:induction false} MyRequestsExactly(requests: seq<ClientRequest>, v: Viewer, r: ClientRequest)
    requires v.id != "null"
    ensures r in MyRequests(requests, v) <==> r in requests && PageRefId(r.veteran) == Some(v.id)
  {
    if requests != [] {
      MyRequestsExactly(requests[1..], v, r);
      assert requests == [requests[0]] + requests[1..];
    }
  }

  /** What the page renders. */
  datatype PageView = Loading | SignInPrompt | GuidesOnly | Listing(items: seq<ClientRequest>)

  /** `map(x => x._id === id ? replacement || x : x)`. */
  function ReplaceMatching(list: seq<ClientRequest>, id: Id, replacement: Option<ClientRequest>): (r: seq<ClientRequest>)
    ensures |r| == |list|
    ensures forall k :: 0 <= k < |list| && list[k].id != id ==> r[k] == list[k]
    ensures forall k :: 0 <= k < |list| && list[k].id == id ==> r[k] == replacement.GetOr(list[k])
  {
    if list == [] then []
    else [if list[0].id == id then replacement.GetOr(list[0]) else list[0]] + ReplaceMatching(list[1..], id, replacement)
  }

  /** Replacing with the server's copy twice is replacing once. */
  lemma ReplaceIdempotent(list: seq<ClientRequest>, t: ClientRequest)
    ensures ReplaceMatching(ReplaceMatching(list, t.id, Some(t)), t.id, Some(t)) == ReplaceMatching(list, t.id, Some(t))
  {
    var once := ReplaceMatching(list, t.id, Some(t));
    var twice := ReplaceMatching(once, t.id, Some(t));
    assert forall k :: 0 <= k < |list| ==> twice[k] == once[k];
  }

  class GuideRequestsPage {
    var loading: bool
    var user: Option<Viewer>
    var requests: seq<ClientRequest>

    constructor ()
      ensures loading && user.None? && requests == []
    {
      loading := true;
      user := None;
      requests := [];
    }

    /** The initial load: the signed-in user (None when `/api/auth/me` fails) and every listed request. */
    method Load(me: Option<Viewer>, listed: seq<ClientRequest>)
      modifies this
      ensures !loading && user == me
      ensures requests == (if me.Some? then listed else old(requests))
    {
      user := me;
      if me.Some? {
        requests := listed;
      }
      loading := false;
    }

    function View(): (v: PageView)
      reads this
      ensures v.Listing? ==> user.Some? && user.value.userType == "veteran"
      ensures !loading && user.Some? && user.value.userType == "veteran" ==> v == Listing(MyRequests(requests, user.value))
    {
      if loading then Loading
      else if user.None? then SignInPrompt
      else if user.value.userType != "veteran" then GuidesOnly
      else Listing(MyRequests(requests, user.value))
    }

    /**
     * After `PATCH { status }` for request `id`: on a 2xx answer the request
     * with that id becomes the returned copy (or stays when none came back);
     * on an error nothing changes.
     */
    method UpdateStatus(id: Id, ok: bool, returned: Option<ClientRequest>)
      modifies this
      ensures requests == (if ok then ReplaceMatching(old(requests), id, returned) else old(requests))
      ensures user == old(user) && loading == old(loading)
    {
      if ok {
        requests := ReplaceMatching(requests, id, returned);
      }
    }

    /** The dialog's `onUpdated(tr)`: the entry with `tr`'s id becomes `tr`. */
    method OnUpdated(tr: ClientRequest)
      modifies this
      ensures requests == ReplaceMatching(old(requests), tr.id, Some(tr))
      ensures user == old(user) && loading == old(loading)
    {
      requests := ReplaceMatching(requests, tr.id, Some(tr));
    }
  }
}
