/**
 * The TourRequest document: a newbie's request for a veteran-guided tour of
 * a place, its five-valued status and its negotiation log of offers.
 * `Create` is what the schema does to a document handed to it: it fills the
 * defaults and refuses a document that misses a required field or carries a
 * status outside the enumeration.
 */
module TourModel {
  import opened Wrappers
  import opened Http

  /** The status enumeration; a stored request always has exactly one of these. */
  datatype TourStatus = Requested | Offered | Confirmed | Completed | Cancelled

  function StatusName(s: TourStatus): string {
    match s
    case Requested => "requested"
    case Offered => "offered"
    case Confirmed => "confirmed"
    case Completed => "completed"
    case Cancelled => "cancelled"
  }

  /** The schema's enum check on the stored status string. */
  function ParseStatus(s: string): (r: Option<TourStatus>)
    ensures r.Some? ==> StatusName(r.value) == s
    ensures r.None? ==> forall t :: StatusName(t) != s
  {
    if s == "requested" then Some(Requested)
    else if s == "offered" then Some(Offered)
    else if s == "confirmed" then Some(Confirmed)
    else if s == "completed" then Some(Completed)
    else if s == "cancelled" then Some(Cancelled)
    else None
  }

  /** Every status name parses back to that status, and no two share a name. */
  lemma StatusNamesRoundTrip(t: TourStatus)
    ensures ParseStatus(StatusName(t)) == Some(t)
  {
  }

  /**
   * One entry of the offers log.  The interface types `who` as
   * "newbie" | "veteran", but the stored field is an unconstrained string,
   * so the model keeps a string.
   */
  datatype OfferEntry = OfferEntry(who: string, amount: int, at: int)

  /** The two negotiating parties and the `who` strings that name them. */
  datatype Party = NewbieParty | VeteranParty

  function PartyName(p: Party): string {
    match p
    case NewbieParty => "newbie"
    case VeteranParty => "veteran"
  }

  /** The restriction the interface (but not the schema) puts on `who`. */
  predicate TypedWho(who: string) {
    who == "newbie" || who == "veteran"
  }

  datatype TourRequest = TourRequest(
    id: Id,
    newbie: Id,
    veteran: Option<Id>,
    place: Id,
    startTime: int,
    endTime: int,
    estimatePrice: Option<int>,
    newbieOffer: Option<int>,
    veteranOffer: Option<int>,
    offers: seq<OfferEntry>,
    status: TourStatus,
    createdAt: int)

  /** An offers entry as handed to the schema; `at` may be left out. */
  datatype OfferInput = OfferInput(who: string, amount: int, at: Option<int>)

  /** A document as handed to `TourRequest.create`: every path may be missing. */
  datatype TourInput = TourInput(
    newbie: Option<Id>,
    veteran: Option<Id>,
    place: Option<Id>,
    startTime: Option<int>,
    endTime: Option<int>,
    estimatePrice: Option<int>,
    newbieOffer: Option<int>,
    veteranOffer: Option<int>,
    offers: seq<OfferInput>,
    status: Option<string>,
    createdAt: Option<int>)

  /** Why the schema refuses a document. */
  datatype SchemaError = MissingPath(path: string) | NotInEnum(value: string)

  function StoreOffers(entries: seq<OfferInput>, now: int): (r: seq<OfferEntry>)
    ensures |r| == |entries|
    ensures forall i :: 0 <= i < |entries| ==>
      r[i] == OfferEntry(entries[i].who, entries[i].amount, entries[i].at.GetOr(now))
  {
    if entries == [] then [] else
    [OfferEntry(entries[0].who, entries[0].amount, entries[0].at.GetOr(now))] + StoreOffers(entries[1..], now)
  }

  /**
   * Validation and defaults of the schema, applied at time `now` to a new
   * document that gets id `id`.
   */
  function Create(d: TourInput, id: Id, now: int): Result<TourRequest, SchemaError> {
    if d.newbie.None? then Err(MissingPath("newbie"))
    else if d.place.None? then Err(MissingPath("place"))
    else if d.startTime.None? then Err(MissingPath("startTime"))
    else if d.endTime.None? then Err(MissingPath("endTime"))
    else
      var status := if d.status.Some? then ParseStatus(d.status.value) else Some(Requested);
      if status.None? then Err(NotInEnum(d.status.value))
      else Ok(TourRequest(id, d.newbie.value, d.veteran, d.place.value,
                          d.startTime.value, d.endTime.value,
                          d.estimatePrice, d.newbieOffer, d.veteranOffer,
                          StoreOffers(d.offers, now), status.value, d.createdAt.GetOr(now)))
  }

  /** newbie, place, startTime and endTime are required; veteran and the prices are optional. */
  lemma CreateRequiredPaths(d: TourInput, id: Id, now: int)
    ensures Create(d, id, now).Ok? <==>
      d.newbie.Some? && d.place.Some? && d.startTime.Some? && d.endTime.Some?
      && (d.status.None? || ParseStatus(d.status.value).Some?)
  {
  }

  /**
   * A created document keeps what it was given and fills the defaults: status
   * "requested" and creation time when left out, and `at = now` on each offers
   * entry that has no time.
   */
  lemma CreateDefaults(d: TourInput, id: Id, now: int)
    requires Create(d, id, now).Ok?
    ensures var t := Create(d, id, now).value;
      && t.id == id && Some(t.newbie) == d.newbie && t.veteran == d.veteran && Some(t.place) == d.place
      && Some(t.startTime) == d.startTime && Some(t.endTime) == d.endTime
      && t.estimatePrice == d.estimatePrice && t.newbieOffer == d.newbieOffer && t.veteranOffer == d.veteranOffer
      && (d.status.None? ==> t.status == Requested)
      && (d.status.Some? ==> StatusName(t.status) == d.status.value)
      && t.createdAt == d.createdAt.GetOr(now)
      && |t.offers| == |d.offers|
      && (forall i :: 0 <= i < |d.offers| ==>
            t.offers[i].who == d.offers[i].who && t.offers[i].amount == d.offers[i].amount
            && t.offers[i].at == (if d.offers[i].at.Some? then d.offers[i].at.value else now))
  {
  }

  /** The schema accepts any `who` string, including ones outside "newbie" | "veteran". */
  lemma WhoIsUnconstrained(id: Id, now: int)
    ensures var d := TourInput(Some("n"), None, Some("p"), Some(0), Some(1), None, None, None,
                               [OfferInput("someone", 5, None)], None, None);
      Create(d, id, now).Ok? && !TypedWho(Create(d, id, now).value.offers[0].who)
  {
  }
}

/** The Payment receipt stored when a tour request is paid. */
module PaymentModel {
  import opened Wrappers
  import opened Http
  import Text

  datatype Payment = Payment(
    id: Id,
    tourRequest: Id,
    cardNumber: string,
    cardName: string,
    expiry: string,
    cvv: string,
    amount: int,
    createdAt: int)

  datatype PaymentInput = PaymentInput(
    tourRequest: Option<Id>,
    cardNumber: Option<string>,
    cardName: Option<string>,
    expiry: Option<string>,
    cvv: Option<string>,
    amount: Option<int>)

  datatype SchemaError = MissingPath(path: string) | BelowMin(path: string)

  /**
   * `Payment.create`: the reference and the four card strings are required (a
   * required string must be non-empty) and the amount is required and at
   * least 0.  No format is imposed on the card strings.
   */
  function Create(d: PaymentInput, id: Id, now: int): (r: Result<Payment, SchemaError>)
    ensures r.Ok? <==>
      d.tourRequest.Some? && Text.Truthy(d.cardNumber) && Text.Truthy(d.cardName)
      && Text.Truthy(d.expiry) && Text.Truthy(d.cvv) && d.amount.Some? && d.amount.value >= 0
    ensures r.Ok? ==> r.value == Payment(id, d.tourRequest.value, d.cardNumber.value, d.cardName.value,
                                         d.expiry.value, d.cvv.value, d.amount.value, now)
  {
    if d.tourRequest.None? then Err(MissingPath("tourRequest"))
    else if !Text.Truthy(d.cardNumber) then Err(MissingPath("cardNumber"))
    else if !Text.Truthy(d.cardName) then Err(MissingPath("cardName"))
    else if !Text.Truthy(d.expiry) then Err(MissingPath("expiry"))
    else if !Text.Truthy(d.cvv) then Err(MissingPath("cvv"))
    else if d.amount.None? then Err(MissingPath("amount"))
    else if d.amount.value < 0 then Err(BelowMin("amount"))
    else Ok(Payment(id, d.tourRequest.value, d.cardNumber.value, d.cardName.value,
                    d.expiry.value, d.cvv.value, d.amount.value, now))
  }

  /** Any non-empty card strings are accepted, whatever their format. */
  lemma NoCardFormat(id: Id, now: int)
    ensures Create(PaymentInput(Some("t"), Some("x"), Some("y"), Some("z"), Some("w"), Some(0)), id, now).Ok?
  {
  }
}
