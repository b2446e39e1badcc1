/**
 * The per-request route: PATCH applies a counter-offer, a status or a guide,
 * and POST pays for the request.  Both are modelled as written; neither
 * checks who calls it or which status the request is in.
 */
module TourUpdate {
  import opened Wrappers
  import opened Http
  import opened Text
  import opened TourModel
  import PaymentModel

  /** The request by id in the tour-request collection. */
  function FindRequest(store: seq<TourRequest>, id: Id): (r: Option<TourRequest>)
    ensures r.Some? ==> r.value in store && r.value.id == id
    ensures r.None? ==> forall t :: t in store ==> t.id != id
  {
    if store == [] then None
    else if store[0].id == id then Some(store[0])
    else FindRequest(store[1..], id)
  }

  /** The JSON body of a PATCH; keys the handler does not read (such as `newbieOffer`) are kept to show they are ignored. */
  datatype PatchBody = PatchBody(
    newbieOffer: Option<int>,
    veteranOffer: Option<int>,
    status: Option<string>,
    veteran: Option<Id>)

  const NotFound := HttpError(404, "Not found")

  /**
   * PATCH on a found request: a present `veteranOffer` is stored and moves the
   * status to "offered"; a non-empty `status` then overwrites the status (a
   * name outside the enumeration fails at save, 500); a non-empty `veteran`
   * replaces the guide.
   */
  function ApplyPatch(t: TourRequest, b: PatchBody): Result<TourRequest, HttpError> {
    var t1 := if b.veteranOffer.Some? then t.(veteranOffer := b.veteranOffer, status := Offered) else t;
    var status := if Truthy(b.status) then ParseStatus(b.status.value) else Some(t1.status);
    if status.None? then Err(InternalError)
    else Ok(t1.(status := status.value, veteran := if Truthy(b.veteran) then b.veteran else t1.veteran))
  }

  function Patch(store: seq<TourRequest>, id: Id, b: PatchBody): Result<TourRequest, HttpError> {
    var found := FindRequest(store, id);
    if found.None? then Err(NotFound) else ApplyPatch(found.value, b)
  }

  /** A PATCH never touches the negotiation log, the newbie's offer, the parties' other fields or the times. */
  lemma PatchKeepsLog(t: TourRequest, b: PatchBody)
    requires ApplyPatch(t, b).Ok?
    ensures var u := ApplyPatch(t, b).value;
      u == t.(veteranOffer := u.veteranOffer, status := u.status, veteran := u.veteran)
  {
  }

  /** How the status comes out: the body's status wins, then a counter-offer's "offered", else unchanged. */
  lemma PatchStatus(t: TourRequest, b: PatchBody)
    requires ApplyPatch(t, b).Ok?
    ensures var u := ApplyPatch(t, b).value;
      && (Truthy(b.status) ==> StatusName(u.status) == b.status.value)
      && (!Truthy(b.status) && b.veteranOffer.Some? ==> u.status == Offered && u.veteranOffer == b.veteranOffer)
      && (!Truthy(b.status) && b.veteranOffer.None? ==> u.status == t.status)
  {
  }

  /** A status name outside the enumeration fails at save: 500. */
  lemma PatchRejectsUnknownStatus(t: TourRequest, b: PatchBody)
    requires Truthy(b.status) && ParseStatus(b.status.value).None?
    ensures ApplyPatch(t, b) == Err(InternalError)
  {
  }

  /** A newbie counter-offer `{ newbieOffer }` changes nothing at all. */
  lemma NewbieOfferIgnored(t: TourRequest, amount: int)
    ensures ApplyPatch(t, PatchBody(Some(amount), None, None, None)) == Ok(t)
  {
  }

  /** No transition guard: a cancelled request can be put back to "requested". */
  lemma CancelledCanReopen(t: TourRequest)
    requires t.status == Cancelled
    ensures ApplyPatch(t, PatchBody(None, None, Some("requested"), None)) == Ok(t.(status := Requested))
  {
  }

  /** The JSON body of the payment POST. */
  datatype PayBody = PayBody(
    cardNumber: Option<string>,
    cardName: Option<string>,
    expiry: Option<string>,
    cvv: Option<string>,
    amount: Option<int>)

  const PayMissing := HttpError(400, "Missing fields")
  const BadCardNumber := HttpError(400, "Card number must be 16 digits")
  const BadCvv := HttpError(400, "Invalid cvv")
  const PayNotFound := HttpError(404, "Tour request not found")

  /** `^\d{16}$`. */
  predicate SixteenDigits(s: string) {
    |s| == 16 && AllDigits(s)
  }

  /** `^\d{3,4}$`. */
  predicate CvvDigits(s: string) {
    3 <= |s| <= 4 && AllDigits(s)
  }

  /**
   * POST: checks the card fields, stores a Payment (whose schema refuses a
   * negative amount, 500) and sets the request to "confirmed" whatever its
   * status was.  `pid` is the new payment's id.
   */
  function Pay(store: seq<TourRequest>, id: Id, b: PayBody, pid: Id, now: int)
    : Result<(PaymentModel.Payment, TourRequest), HttpError>
  {
    if !Truthy(b.cardNumber) || !Truthy(b.cardName) || !Truthy(b.expiry) || !Truthy(b.cvv) || b.amount.None?
    then Err(PayMissing)
    else if !SixteenDigits(b.cardNumber.value) then Err(BadCardNumber)
    else if !CvvDigits(b.cvv.value) then Err(BadCvv)
    else
      var found := FindRequest(store, id);
      if found.None? then Err(PayNotFound)
      else
        match PaymentModel.Create(PaymentModel.PaymentInput(Some(found.value.id), b.cardNumber, b.cardName, b.expiry, b.cvv, b.amount), pid, now)
        case Err(_) => Err(InternalError)
        case Ok(p) => Ok((p, found.value.(status := Confirmed)))
  }

  /**
   * A successful payment has a 16-digit card, a 3- or 4-digit cvv and a
   * non-negative amount, references the request, and leaves it confirmed
   * with nothing else changed.
   */
  lemma PaySucceeded(store: seq<TourRequest>, id: Id, b: PayBody, pid: Id, now: int)
    requires Pay(store, id, b, pid, now).Ok?
    ensures var (p, t) := Pay(store, id, b, pid, now).value;
      && FindRequest(store, id).Some?
      && t == FindRequest(store, id).value.(status := Confirmed)
      && p.tourRequest == id && p.id == pid && p.createdAt == now
      && SixteenDigits(p.cardNumber) && CvvDigits(p.cvv) && p.amount >= 0
      && Some(p.cardNumber) == b.cardNumber && Some(p.cvv) == b.cvv && Some(p.amount) == b.amount
  {
  }

  /** A negative amount passes every check of the handler and fails only at the Payment schema: 500. */
  lemma PayNegativeAmount(store: seq<TourRequest>, id: Id, b: PayBody, pid: Id, now: int)
    requires Truthy(b.cardNumber) && Truthy(b.cardName) && Truthy(b.expiry) && Truthy(b.cvv)
    requires SixteenDigits(b.cardNumber.value) && CvvDigits(b.cvv.value)
    requires FindRequest(store, id).Some?
    requires b.amount.Some? && b.amount.value < 0
    ensures Pay(store, id, b, pid, now) == Err(InternalError)
  {
  }

  /** Payment is accepted in every status, so a cancelled or already confirmed request can be paid (again). */
  lemma PayIgnoresStatus(store: seq<TourRequest>, id: Id, b: PayBody, pid: Id, now: int, s: TourStatus)
    requires Pay(store, id, b, pid, now).Ok?
    requires FindRequest(store, id).Some?
    ensures var t := FindRequest(store, id).value;
      Pay([t.(status := s)], id, b, pid, now).Ok?
  {
    var t := FindRequest(store, id).value;
    assert FindRequest([t.(status := s)], id) == Some(t.(status := s));
  }
}
