/**
 * The offers dialog: whose turn it is to negotiate, the PATCH body each
 * button sends, and which buttons are enabled.  The request is the JSON the
 * client holds, whose party fields may be populated objects or bare ids.
 */
module OffersModal {
  import opened Wrappers
  import opened Http
  import opened Text
  import opened TourModel
  import opened TourUpdate

  /** A party field of a request as JSON: absent, populated with `_id` and name, or a bare id string. */
  datatype Ref = Missing | Populated(id: Id, name: string) | Raw(raw: Id)

  /** A tour request as the client holds it. */
  datatype ClientRequest = ClientRequest(
    id: Id,
    newbie: Ref,
    veteran: Ref,
    place: Ref,
    offers: seq<OfferEntry>,
    status: TourStatus)

  /** `String(x)` of an optional id: a missing value prints as "undefined". */
  function ShowUndefined(o: Option<Id>): string {
    if o.Some? then o.value else "undefined"
  }

  /** `ref?._id`: only a populated object has an `_id`. */
  function ModalRefId(r: Ref): Option<Id> {
    if r.Populated? then Some(r.id) else None
  }

  /** The `who` of the last log entry (`offers.slice(-1)[0]`), if there is an entry. */
  function LastWho(offers: seq<OfferEntry>): (r: Option<string>)
    ensures r.None? <==> offers == []
    ensures r.Some? ==> r.value == offers[|offers| - 1].who
  {
    if offers == [] then None else Some(offers[|offers| - 1].who)
  }

  /** Negotiation is open only while the request is "requested" or "offered". */
  predicate Actionable(s: TourStatus) {
    s == Requested || s == Offered
  }

  /**
   * The dialog's turn rule: nobody outside negotiation; with no (or an
   * unnamed) last entry the newbie opens; after the newbie the veteran; after
   * the veteran the newbie; after any other `who`, nobody.
   */
  function ModalMyTurn(s: TourStatus, lastWho: Option<string>, isNewbie: bool, isVeteran: bool): bool {
    if !Actionable(s) then false
    else if !Truthy(lastWho) then isNewbie
    else if lastWho.value == "newbie" then isVeteran
    else if lastWho.value == "veteran" then isNewbie
    else false
  }

  /** The viewer's roles in a request, by comparing `String(currentUser?.id)` with each party's `_id`. */
  function IsNewbieOf(viewer: Option<Id>, r: ClientRequest): bool {
    ShowUndefined(viewer) == ShowUndefined(ModalRefId(r.newbie))
  }

  function IsVeteranOf(viewer: Option<Id>, r: ClientRequest): bool {
    ShowUndefined(viewer) == ShowUndefined(ModalRefId(r.veteran))
  }

  function MyTurn(viewer: Option<Id>, r: ClientRequest): bool {
    ModalMyTurn(r.status, LastWho(r.offers), IsNewbieOf(viewer, r), IsVeteranOf(viewer, r))
  }

  /** The party the viewer sends as: "newbie" when they are the request's newbie, otherwise "veteran". */
  function Sender(isNewbie: bool): Party {
    if isNewbie then NewbieParty else VeteranParty
  }

  /** The PATCH body of Send Offer. */
  function SendOfferBody(who: Party, amount: int): PatchBody {
    if who == NewbieParty then PatchBody(Some(amount), None, None, None)
    else PatchBody(None, Some(amount), None, None)
  }

  const AcceptBody := PatchBody(None, None, Some("confirmed"), None)
  const RejectBody := PatchBody(None, None, Some("cancelled"), None)

  /** Which of the three buttons are enabled. */
  datatype Buttons = Buttons(send: bool, accept: bool, reject: bool)

  function Controls(myTurn: bool, offerValue: int): Buttons {
    Buttons(myTurn && offerValue != 0, myTurn, true)
  }

  /** Outside requested/offered nobody has the turn. */
  lemma NoTurnOutsideNegotiation(s: TourStatus, lastWho: Option<string>, isNewbie: bool, isVeteran: bool)
    requires !Actionable(s)
    ensures !ModalMyTurn(s, lastWho, isNewbie, isVeteran)
  {
  }

  /** On an empty log the newbie has the turn and a veteran who is not also the newbie does not. */
  lemma NewbieOpens(viewer: Option<Id>, r: ClientRequest)
    requires Actionable(r.status) && r.offers == []
    ensures MyTurn(viewer, r) == IsNewbieOf(viewer, r)
    ensures IsVeteranOf(viewer, r) && !IsNewbieOf(viewer, r) ==> !MyTurn(viewer, r)
  {
  }

  /** After a newbie entry exactly the veteran has the turn, after a veteran entry exactly the newbie. */
  lemma TurnsAlternate(viewer: Option<Id>, r: ClientRequest)
    requires Actionable(r.status) && r.offers != []
    ensures r.offers[|r.offers| - 1].who == "newbie" ==> MyTurn(viewer, r) == IsVeteranOf(viewer, r)
    ensures r.offers[|r.offers| - 1].who == "veteran" ==> MyTurn(viewer, r) == IsNewbieOf(viewer, r)
    ensures !TypedWho(r.offers[|r.offers| - 1].who) && r.offers[|r.offers| - 1].who != "" ==> !MyTurn(viewer, r)
  {
  }

  /**
   * The party with the turn never authored the last entry, unless one user
   * is both the newbie and the veteran of the request.
   */
  lemma TurnNeverLastAuthor(s: TourStatus, offers: seq<OfferEntry>, isNewbie: bool, isVeteran: bool)
    requires ModalMyTurn(s, LastWho(offers), isNewbie, isVeteran)
    requires !(isNewbie && isVeteran)
    ensures Actionable(s)
    ensures offers != [] ==> PartyName(Sender(isNewbie)) != offers[|offers| - 1].who
  {
  }

  /** With one user on both sides the rule lets them answer their own offer. */
  lemma SelfNegotiation()
    ensures var offers := [OfferEntry("newbie", 10, 0)];
      && ModalMyTurn(Requested, LastWho(offers), true, true)
      && PartyName(Sender(true)) == offers[0].who
  {
  }

  /** A viewer who is neither party never has the turn, so only Reject is enabled. */
  lemma OutsiderOnlyRejects(viewer: Option<Id>, r: ClientRequest, offerValue: int)
    requires !IsNewbieOf(viewer, r) && !IsVeteranOf(viewer, r)
    ensures Controls(MyTurn(viewer, r), offerValue) == Buttons(false, false, true)
  {
  }

  /** Send needs the turn and a non-zero amount, Accept needs the turn, Reject is always there. */
  lemma ControlsNeedTurn(myTurn: bool, offerValue: int)
    ensures var c := Controls(myTurn, offerValue);
      (c.send <==> myTurn && offerValue != 0) && (c.accept <==> myTurn) && c.reject
  {
  }

  /** The body names the sender's own price field, and Accept and Reject send "confirmed" and "cancelled". */
  lemma BodiesByParty(isNewbie: bool, amount: int)
    ensures var b := SendOfferBody(Sender(isNewbie), amount);
      && (isNewbie ==> b == PatchBody(Some(amount), None, None, None))
      && (!isNewbie ==> b == PatchBody(None, Some(amount), None, None))
    ensures ParseStatus(AcceptBody.status.value) == Some(Confirmed)
    ensures ParseStatus(RejectBody.status.value) == Some(Cancelled)
  {
  }

  /**
   * Against the handler as written, a newbie's counter-offer is a no-op, a
   * veteran's stores the price and moves to "offered", Accept confirms and
   * Reject cancels; none of them writes the log.
   */
  lemma SentBodiesAtHandler(t: TourRequest, amount: int)
    ensures ApplyPatch(t, SendOfferBody(NewbieParty, amount)) == Ok(t)
    ensures ApplyPatch(t, SendOfferBody(VeteranParty, amount)) == Ok(t.(veteranOffer := Some(amount), status := Offered))
    ensures ApplyPatch(t, AcceptBody) == Ok(t.(status := Confirmed))
    ensures ApplyPatch(t, RejectBody) == Ok(t.(status := Cancelled))
  {
  }

  /**
   * A `who` the dialog would let some viewer append to a log ending in
   * `prefix`: a viewer is the newbie only, the veteran only, or neither, and
   * sends as `Sender`.  The handler does not append to the log; this is the
   * log the turn rule describes if each sent offer were recorded.
   */
  predicate ModalPermits(prefix: seq<OfferEntry>, who: string) {
    || (ModalMyTurn(Offered, LastWho(prefix), true, false) && who == PartyName(Sender(true)))
    || (ModalMyTurn(Offered, LastWho(prefix), false, true) && who == PartyName(Sender(false)))
  }

  /** Every entry was permitted given the entries before it. */
  predicate BuiltByModal(log: seq<OfferEntry>) {
    forall k :: 0 <= k < |log| ==> ModalPermits(log[..k], log[k].who)
  }

  /** Strict alternation of named parties, starting with `first`. */
  predicate Alternates(log: seq<OfferEntry>, first: string) {
    && (forall k :: 0 <= k < |log| ==> TypedWho(log[k].who))
    && (log != [] ==> log[0].who == first)
    && (forall k :: 0 < k < |log| ==> log[k].who != log[k - 1].who)
  }

  /** A log is built by the dialog's turns exactly when it alternates starting with the newbie. */
  lemma ModalLogsAlternate(log: seq<OfferEntry>)
    ensures BuiltByModal(log) <==> Alternates(log, "newbie")
  {
    if BuiltByModal(log) {
      forall k | 0 <= k < |log|
        ensures TypedWho(log[k].who) && (k == 0 ==> log[k].who == "newbie") && (k > 0 ==> log[k].who != log[k - 1].who)
      {
        assert ModalPermits(log[..k], log[k].who);
        if k > 0 {
          assert LastWho(log[..k]) == Some(log[k - 1].who);
          assert ModalPermits(log[..k - 1], log[k - 1].who);
        }
      }
    }
    if Alternates(log, "newbie") {
      forall k | 0 <= k < |log|
        ensures ModalPermits(log[..k], log[k].who)
      {
        if k > 0 {
          assert LastWho(log[..k]) == Some(log[k - 1].who);
        }
      }
    }
  }
}
