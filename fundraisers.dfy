/**
 * The fundraiser document: a title, a goal, the amount raised so far, its
 * creator and the list of donations.  Amounts are whole numbers.
 */
module FundraiserModel {
  import opened Wrappers
  import opened Http
  import opened Text

  /** One stored donation; neither the user nor the amount is required. */
  datatype Donation = Donation(user: Option<Id>, amount: Option<int>, createdAt: int)

  datatype DonationInput = DonationInput(user: Option<Id>, amount: Option<int>, createdAt: Option<int>)

  /** A document as handed to the model; any path may be left out. */
  datatype FundraiserFields = FundraiserFields(
    title: Option<string>,
    description: Option<string>,
    goal: Option<int>,
    raised: Option<int>,
    isActive: Option<bool>,
    createdAt: Option<int>,
    creator: Option<Id>,
    donations: seq<DonationInput>)

  datatype FundraiserDoc = FundraiserDoc(
    id: Id,
    title: string,
    description: Option<string>,
    goal: int,
    raised: int,
    isActive: bool,
    createdAt: int,
    creator: Id,
    donations: seq<Donation>)

  /** The path a validator reports. */
  datatype Path = TitleRequired | GoalRequired | GoalMin | RaisedMin | CreatorRequired | DonationAmountMin(index: nat)

  /** `min: 0` on a donation's amount; a donation without one passes. */
  predicate ValidDonation(x: Donation) {
    x.amount.None? || x.amount.value >= 0
  }

  /**
   * What `save` validates on a loaded document: `required` wants a non-empty
   * title (blanks count, since the trimming setter runs only on assignment),
   * and the `min` bounds.
   */
  predicate ValidFundraiser(f: FundraiserDoc) {
    && f.title != ""
    && f.goal >= 0 && f.raised >= 0
    && forall i :: 0 <= i < |f.donations| ==> ValidDonation(f.donations[i])
  }

  /** A document as the schema creates it: valid, with its title trimmed by the setter. */
  predicate StoredFundraiser(f: FundraiserDoc) {
    ValidFundraiser(f) && f.title == Trim(f.title)
  }

  /** Every path that fails validation; `required` on the title is checked after trimming. */
  function Errors(d: FundraiserFields): set<Path> {
    (if d.title.None? || Trim(d.title.value) == "" then {TitleRequired} else {})
    + (if d.goal.None? then {GoalRequired} else if d.goal.value < 0 then {GoalMin} else {})
    + (if d.raised.Some? && d.raised.value < 0 then {RaisedMin} else {})
    + (if d.creator.None? then {CreatorRequired} else {})
    + (set i | 0 <= i < |d.donations| && d.donations[i].amount.Some? && d.donations[i].amount.value < 0
             :: DonationAmountMin(i))
  }

  function DonationOf(x: DonationInput, now: int): Donation {
    Donation(x.user, x.amount, x.createdAt.GetOr(now))
  }

  function DonationsOf(xs: seq<DonationInput>, now: int): (r: seq<Donation>)
    ensures |r| == |xs| && forall i :: 0 <= i < |xs| ==> r[i] == DonationOf(xs[i], now)
  {
    if xs == [] then [] else [DonationOf(xs[0], now)] + DonationsOf(xs[1..], now)
  }

  /** Setters, validation and defaults, at time `now`, for a new document with id `id`. */
  function Construct(d: FundraiserFields, id: Id, now: int): Result<FundraiserDoc, set<Path>> {
    var errors := Errors(d);
    if errors != {} then Err(errors)
    else Ok(FundraiserDoc(
      id, Trim(d.title.value),
      if d.description.Some? then Some(Trim(d.description.value)) else None,
      d.goal.value, d.raised.GetOr(0), d.isActive.GetOr(true), d.createdAt.GetOr(now),
      d.creator.value, DonationsOf(d.donations, now)))
  }

  /**
   * The schema accepts a document exactly when it has a non-blank title, a
   * non-negative goal, a creator, no negative `raised` and no donation with
   * a negative amount.
   */
  lemma ConstructOkIff(d: FundraiserFields, id: Id, now: int)
    ensures Construct(d, id, now).Ok? <==>
      && d.title.Some? && Trim(d.title.value) != ""
      && d.goal.Some? && d.goal.value >= 0
      && (d.raised.None? || d.raised.value >= 0)
      && d.creator.Some?
      && forall i :: 0 <= i < |d.donations| ==> d.donations[i].amount.None? || d.donations[i].amount.value >= 0
  {
    if exists i :: 0 <= i < |d.donations| && d.donations[i].amount.Some? && d.donations[i].amount.value < 0 {
      var i :| 0 <= i < |d.donations| && d.donations[i].amount.Some? && d.donations[i].amount.value < 0;
      assert DonationAmountMin(i) in Errors(d);
    }
  }

  /**
   * A created fundraiser is valid and fills the defaults: nothing raised,
   * active, created now, and each donation dated now unless it says otherwise.
   */
  lemma ConstructDefaults(d: FundraiserFields, id: Id, now: int)
    requires Construct(d, id, now).Ok?
    ensures var f := Construct(d, id, now).value;
      && StoredFundraiser(f)
      && f.id == id && Some(f.goal) == d.goal && Some(f.creator) == d.creator
      && f.raised == (if d.raised.Some? then d.raised.value else 0)
      && f.isActive == (if d.isActive.Some? then d.isActive.value else true)
      && f.createdAt == (if d.createdAt.Some? then d.createdAt.value else now)
      && |f.donations| == |d.donations|
      && forall i :: 0 <= i < |d.donations| ==>
           f.donations[i].amount == d.donations[i].amount
           && f.donations[i].createdAt == (if d.donations[i].createdAt.Some? then d.donations[i].createdAt.value else now)
  {
    ConstructOkIff(d, id, now);
    TrimIdempotent(d.title.value);
  }

  /** The amounts of the donations added up, a donation without one counting as 0. */
  function DonatedTotal(xs: seq<Donation>): int {
    if xs == [] then 0 else DonatedTotal(xs[..|xs| - 1]) + xs[|xs| - 1].amount.GetOr(0)
  }
}

/**
 * `POST /api/community/fundraisers/donate`: the caller gives `amount` to a
 * fundraiser.  The loaded document is changed in place, `raised` going up
 * by the amount and one donation appended, and then saved.
 */
module DonateRoute {
  import opened Wrappers
  import opened Http
  import opened Text
  import opened FundraiserModel
  import UserModel

  const AuthRequired := HttpError(401, "Authentication required")
  const InvalidToken := HttpError(401, "Invalid token")
  const InvalidFields := HttpError(400, "Missing or invalid fields")
  const UserNotFound := HttpError(401, "User not found")
  const FundraiserNotFound := HttpError(404, "Fundraiser not found")

  /** The JSON body; `amount` is `None` when it is absent or not a number. */
  datatype DonateBody = DonateBody(fundraiserId: Option<string>, amount: Option<int>)

  /** A stored fundraiser, as the route loads and saves it. */
  class Fundraiser {
    const id: Id
    const title: string
    const description: Option<string>
    const goal: int
    const isActive: bool
    const createdAt: int
    const creator: Id
    var raised: int
    var donations: seq<Donation>

    constructor(d: FundraiserDoc)
      ensures Doc() == d
    {
      id, title, description, goal := d.id, d.title, d.description, d.goal;
      isActive, createdAt, creator := d.isActive, d.createdAt, d.creator;
      raised, donations := d.raised, d.donations;
    }

    /** The document as it is stored. */
    function Doc(): FundraiserDoc
      reads this
    {
      FundraiserDoc(id, title, description, goal, raised, isActive, createdAt, creator, donations)
    }

    /**
     * `f.raised = (f.raised || 0) + amount` and `f.donations.push(...)`.
     * The schema's defaults fill `raised` and `donations` when a document is
     * loaded, so the `|| 0` and `|| []` change nothing.
     */
    method AddDonation(user: Id, amount: int, now: int)
      modifies this`raised, this`donations
      ensures raised == old(raised) + amount
      ensures donations == old(donations) + [Donation(Some(user), Some(amount), now)]
    {
      raised := raised + amount;
      donations := donations + [Donation(Some(user), Some(amount), now)];
    }
  }

  /** The document after a donation, as `AddDonation` leaves it. */
  function Donated(d: FundraiserDoc, user: Id, amount: int, now: int): FundraiserDoc {
    d.(raised := d.raised + amount, donations := d.donations + [Donation(Some(user), Some(amount), now)])
  }

  /** `Fundraiser.findById`: the first stored fundraiser with that id, if any. */
  function FindFundraiser(funds: seq<Fundraiser>, id: Id): (r: Fundraiser?)
    ensures r != null ==> r in funds && r.id == id
    ensures r == null ==> forall f :: f in funds ==> f.id != id
  {
    if funds == [] then null
    else if funds[0].id == id then funds[0]
    else FindFundraiser(funds[1..], id)
  }

  /**
   * The guard chain before the fundraiser is loaded: on success the donor's
   * id, the fundraiser id and the amount.
   */
  function Checked(session: Session, users: seq<UserModel.UserDoc>, b: DonateBody): (r: Result<(Id, Id, int), HttpError>)
    ensures r.Ok? ==> r.value.2 > 0 && Truthy(b.fundraiserId) && r.value.1 == b.fundraiserId.value
    ensures r.Ok? ==> session.Decoded? && UserModel.FindById(users, session.userId).Some? && r.value.0 == session.userId
  {
    match session
    case NoToken => Err(AuthRequired)
    case DecodedNull => Err(InvalidToken)
    case DecodeThrew => Err(InternalError)
    case Decoded(userId, _) =>
      if !Truthy(b.fundraiserId) || b.amount.None? || b.amount.value <= 0 then Err(InvalidFields)
      else match UserModel.FindById(users, userId)
        case None => Err(UserNotFound)
        case Some(u) => Ok((u.id, b.fundraiserId.value, b.amount.value))
  }

  /**
   * The handler.  The found fundraiser gets the donation when the changed
   * document passes the schema on `save`; a failing save reaches the catch
   * (500) and stores nothing.  The answer is the saved document.  No other
   * fundraiser changes.
   */
  method Donate(session: Session, users: seq<UserModel.UserDoc>, funds: seq<Fundraiser>, b: DonateBody, now: int)
    returns (r: Result<FundraiserDoc, HttpError>)
    modifies set f | f in funds :: f`raised, set f | f in funds :: f`donations
    ensures Checked(session, users, b).Err? ==>
      r == Err(Checked(session, users, b).error) && forall f :: f in funds ==> unchanged(f)
    ensures Checked(session, users, b).Ok? ==>
      var (user, fid, amount) := Checked(session, users, b).value;
      var f := FindFundraiser(funds, fid);
      && (f == null ==> r == Err(FundraiserNotFound) && forall g :: g in funds ==> unchanged(g))
      && (f != null && !ValidFundraiser(Donated(old(f.Doc()), user, amount, now)) ==>
            r == Err(InternalError) && forall g :: g in funds ==> unchanged(g))
      && (f != null && ValidFundraiser(Donated(old(f.Doc()), user, amount, now)) ==>
            && f.Doc() == Donated(old(f.Doc()), user, amount, now)
            && r == Ok(f.Doc())
            && forall g :: g in funds && g != f ==> unchanged(g))
  {
    var c := Checked(session, users, b);
    if c.Err? {
      return Err(c.error);
    }
    var (user, fid, amount) := c.value;
    var f := FindFundraiser(funds, fid);
    if f == null {
      return Err(FundraiserNotFound);
    }
    if !ValidFundraiser(Donated(f.Doc(), user, amount, now)) {
      return Err(InternalError);
    }
    f.AddDonation(user, amount, now);
    return Ok(f.Doc());
  }

  /**
   * Before the body is looked at, a missing token gets 401 "Authentication
   * required", a null decode 401 "Invalid token", and a decode that throws
   * the catch's 500.
   */
  lemma DonateUnauthenticated(session: Session, users: seq<UserModel.UserDoc>, b: DonateBody)
    requires !session.Decoded?
    ensures session.NoToken? ==> Checked(session, users, b) == Err(HttpError(401, "Authentication required"))
    ensures session.DecodedNull? ==> Checked(session, users, b) == Err(HttpError(401, "Invalid token"))
    ensures session.DecodeThrew? ==> Checked(session, users, b) == Err(HttpError(500, "Internal server error"))
  {
  }

  /** A missing fundraiser id, or an amount that is absent, not a number, zero or negative, gets 400. */
  lemma DonateInvalidFields(session: Session, users: seq<UserModel.UserDoc>, b: DonateBody)
    requires session.Decoded?
    ensures Checked(session, users, b) == Err(HttpError(400, "Missing or invalid fields"))
        <==> !Truthy(b.fundraiserId) || b.amount.None? || b.amount.value <= 0
  {
  }

  /** With valid fields, an unknown donor gets 401. */
  lemma DonateUnknownUser(session: Session, users: seq<UserModel.UserDoc>, b: DonateBody)
    requires session.Decoded? && Truthy(b.fundraiserId) && b.amount.Some? && b.amount.value > 0
    requires forall u :: u in users ==> u.id != session.userId
    ensures Checked(session, users, b) == Err(HttpError(401, "User not found"))
  {
  }

  /**
   * A valid fundraiser that takes a positive donation stays valid, so the
   * save succeeds: `raised` grows by exactly the amount and the earlier
   * donations are kept in order, the new one last.
   */
  lemma DonatedStaysValid(d: FundraiserDoc, user: Id, amount: int, now: int)
    requires ValidFundraiser(d) && amount > 0
    ensures var e := Donated(d, user, amount, now);
      && ValidFundraiser(e)
      && e.raised == d.raised + amount
      && |e.donations| == |d.donations| + 1
      && e.donations[..|d.donations|] == d.donations
      && e.donations[|d.donations|] == Donation(Some(user), Some(amount), now)
  {
    var e := Donated(d, user, amount, now);
    assert e.donations[..|d.donations|] == d.donations;
  }

  /** When `raised` is the sum of the donations, it still is after a donation. */
  lemma DonatedKeepsTotal(d: FundraiserDoc, user: Id, amount: int, now: int)
    requires d.raised == DonatedTotal(d.donations)
    ensures var e := Donated(d, user, amount, now);
      e.raised == DonatedTotal(e.donations)
  {
    var e := Donated(d, user, amount, now);
    assert e.donations[..|e.donations| - 1] == d.donations;
  }
}
