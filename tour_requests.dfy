/**
 * The tour-request routes: creating a request (a guard chain ending in one
 * insert), the public listing, and the caller's own requests.
 */
module TourRequestsRoute {
  import opened Wrappers
  import opened Http
  import opened Text
  import Seqs
  import opened UserModel
  import opened TourModel

  /**
   * A date string from the request body and what `new Date(...)` made of it:
   * `parsed` is None for an invalid date.  Parsing itself is not modelled.
   */
  datatype RawTime = RawTime(text: string, parsed: Option<int>)

  predicate TruthyTime(t: Option<RawTime>) {
    t.Some? && t.value.text != ""
  }

  /** The fields the handler reads from the JSON body. */
  datatype CreateBody = CreateBody(
    newbie: Option<Id>,
    veteran: Option<Id>,
    place: Option<Id>,
    startTime: Option<RawTime>,
    endTime: Option<RawTime>,
    estimatePrice: Option<int>,
    newbieOffer: Option<int>)

  const OnlyNewbies := HttpError(403, "Only general users can request tours")
  const MissingFields := HttpError(400, "Missing fields")
  const NotAGuide := HttpError(400, "Target user is not a tour guide")
  const BadTimes := HttpError(400, "Invalid start or end time")

  /** The opening log: one newbie entry when the body carries a non-zero offer. */
  function OpeningLog(newbieOffer: Option<int>): seq<OfferInput> {
    if TruthyNum(newbieOffer) then [OfferInput("newbie", newbieOffer.value, None)] else []
  }

  /** The document handed to the schema once every check has passed. */
  function CreateInput(b: CreateBody, s: int, e: int): TourInput {
    TourInput(b.newbie, b.veteran, b.place, Some(s), Some(e), b.estimatePrice, b.newbieOffer, None,
              OpeningLog(b.newbieOffer), None, None)
  }

  /**
   * `POST /api/tours/requests`.  `users` is the user collection, `id` the id
   * the new request gets and `now` the current time.
   */
  function Post(session: Session, users: seq<UserDoc>, b: CreateBody, id: Id, now: int): Result<TourRequest, HttpError> {
    if session.Refused() then Err(Unauthorized)
    else if session.DecodeThrew? then Err(InternalError)
    else if !HasRole(users, session.userId, Newbie) then Err(OnlyNewbies)
    else if !Truthy(b.newbie) || !Truthy(b.place) || !TruthyTime(b.startTime) || !TruthyTime(b.endTime) || !Truthy(b.veteran)
    then Err(MissingFields)
    else if !HasRole(users, b.veteran.value, Veteran) then Err(NotAGuide)
    else
      var s := b.startTime.value.parsed;
      var e := b.endTime.value.parsed;
      if s.None? || e.None? || e.value <= s.value then Err(BadTimes)
      else
        match TourModel.Create(CreateInput(b, s.value, e.value), id, now)
        case Ok(t) => Ok(t)
        case Err(_) => Err(InternalError)
  }

  /**
   * Without decoded claims the body and the store are not looked at: no
   * token or a null decode is 401, a decode that throws is the catch's 500.
   */
  lemma PostUnauthenticated(session: Session, users: seq<UserDoc>, b: CreateBody, id: Id, now: int)
    requires !session.Decoded?
    ensures session.Refused() ==> Post(session, users, b, id, now) == Err(Unauthorized)
    ensures session.DecodeThrew? ==> Post(session, users, b, id, now) == Err(InternalError)
  {
  }

  /** A decoded caller that is not a stored newbie gets 403 before the body is looked at. */
  lemma PostRejectsNonNewbies(session: Session, users: seq<UserDoc>, b: CreateBody, id: Id, now: int)
    requires session.Decoded?
    requires FindById(users, session.userId).None? || FindById(users, session.userId).value.userType != Newbie
    ensures Post(session, users, b, id, now) == Err(OnlyNewbies)
  {
  }

  /** Every failure of the five presence checks gives 400 "Missing fields" once the caller is a newbie. */
  lemma PostMissingFields(session: Session, users: seq<UserDoc>, b: CreateBody, id: Id, now: int)
    requires session.Decoded? && HasRole(users, session.userId, Newbie)
    requires !Truthy(b.newbie) || !Truthy(b.veteran) || !Truthy(b.place) || !TruthyTime(b.startTime) || !TruthyTime(b.endTime)
    ensures Post(session, users, b, id, now) == Err(MissingFields)
  {
  }

  /**
   * The schema never refuses what the route lets through: the answer is 500
   * exactly when decoding the token threw.
   */
  lemma PostInternalOnlyOnThrow(session: Session, users: seq<UserDoc>, b: CreateBody, id: Id, now: int)
    ensures Post(session, users, b, id, now) == Err(InternalError) <==> session.DecodeThrew?
  {
  }

  /**
   * What a created request looks like: the caller is a stored newbie, the
   * veteran a stored guide, the window is non-empty, the status is
   * "requested" and the log holds the opening offer exactly when it is non-zero.
   */
  lemma PostCreated(session: Session, users: seq<UserDoc>, b: CreateBody, id: Id, now: int)
    requires Post(session, users, b, id, now).Ok?
    ensures var t := Post(session, users, b, id, now).value;
      && session.Decoded? && HasRole(users, session.userId, Newbie)
      && t.veteran.Some? && HasRole(users, t.veteran.value, Veteran)
      && t.startTime < t.endTime
      && t.status == Requested
      && t.id == id && t.createdAt == now
      && Some(t.newbie) == b.newbie && Some(t.place) == b.place
      && t.estimatePrice == b.estimatePrice && t.newbieOffer == b.newbieOffer && t.veteranOffer.None?
      && t.offers == (if TruthyNum(b.newbieOffer) then [OfferEntry("newbie", b.newbieOffer.value, now)] else [])
  {
    var t := Post(session, users, b, id, now).value;
    var inp := CreateInput(b, b.startTime.value.parsed.value, b.endTime.value.parsed.value);
    CreateDefaults(inp, id, now);
  }

  /** An opening offer of 0 is falsy: the request is created with an empty log. */
  lemma ZeroOfferLeavesLogEmpty(session: Session, users: seq<UserDoc>, b: CreateBody, id: Id, now: int)
    requires b.newbieOffer == Some(0)
    requires Post(session, users, b, id, now).Ok?
    ensures Post(session, users, b, id, now).value.offers == []
  {
    PostCreated(session, users, b, id, now);
  }

  /**
   * Which newbie and which place are recorded is the body's choice: any other
   * non-empty ids give the same outcome with those ids stored instead.
   */
  lemma PostTrustsNewbieAndPlace(session: Session, users: seq<UserDoc>, b: CreateBody, id: Id, now: int, n: Id, p: Id)
    requires Post(session, users, b, id, now).Ok?
    requires n != "" && p != ""
    ensures Post(session, users, b.(newbie := Some(n), place := Some(p)), id, now)
      == Ok(Post(session, users, b, id, now).value.(newbie := n, place := p))
  {
    var b2 := b.(newbie := Some(n), place := Some(p));
    var s := b.startTime.value.parsed.value;
    var e := b.endTime.value.parsed.value;
    CreateDefaults(CreateInput(b, s, e), id, now);
    CreateDefaults(CreateInput(b2, s, e), id, now);
  }

  /** The listing's ceiling on how many requests it returns. */
  const ListLimit := 100

  /** `GET /api/tours/requests`: the newest 100 requests.  `store` is kept in insertion order. */
  function List(store: seq<TourRequest>): seq<TourRequest> {
    Seqs.Take(Seqs.Reverse(store), ListLimit)
  }

  /** Insertion order is creation-time order. */
  predicate ChronologicalOrder(store: seq<TourRequest>) {
    forall i, j :: 0 <= i < j < |store| ==> store[i].createdAt <= store[j].createdAt
  }

  predicate NewestFirst(list: seq<TourRequest>) {
    forall i, j :: 0 <= i < j < |list| ==> list[i].createdAt >= list[j].createdAt
  }

  /** The listing holds at most 100 requests, the most recently inserted ones, newest first. */
  lemma ListNewest(store: seq<TourRequest>)
    requires ChronologicalOrder(store)
    ensures var l := List(store);
      && |l| == (if |store| < ListLimit then |store| else ListLimit)
      && (forall k :: 0 <= k < |l| ==> l[k] == store[|store| - 1 - k])
      && NewestFirst(l)
  {
    var r := Seqs.Reverse(store);
    var l := List(store);
    assert l == r[..|l|];
    forall i, j | 0 <= i < j < |l|
      ensures l[i].createdAt >= l[j].createdAt
    {
      assert l[i] == store[|store| - 1 - i] && l[j] == store[|store| - 1 - j];
    }
  }

  /** Whether the caller appears as the request's newbie or as its veteran. */
  predicate Involves(t: TourRequest, user: Id) {
    t.newbie == user || t.veteran == Some(user)
  }

  function Involving(s: seq<TourRequest>, user: Id): (r: seq<TourRequest>)
    ensures |r| <= |s|
  {
    if s == [] then []
    else (if Involves(s[0], user) then [s[0]] else []) + Involving(s[1..], user)
  }

  /** `GET /api/tours/my`: every request of the caller's, newest first, without a limit. */
  function My(session: Session, store: seq<TourRequest>): Result<seq<TourRequest>, HttpError> {
    if session.Refused() then Err(Unauthorized)
    else if session.DecodeThrew? then Err(Failed)
    else Ok(Involving(Seqs.Reverse(store), session.userId))
  }

  /** The filter keeps exactly the caller's requests. */
  lemma {:induction false} InvolvingExactly(s: seq<TourRequest>, user: Id, t: TourRequest)
    ensures t in Involving(s, user) <==> t in s && Involves(t, user)
  {
    if s != [] {
      InvolvingExactly(s[1..], user, t);
      assert s == [s[0]] + s[1..];
    }
  }

  /** The filter keeps the order of what it keeps. */
  lemma {:induction false} InvolvingKeepsOrder(s: seq<TourRequest>, user: Id)
    requires NewestFirst(s)
    ensures NewestFirst(Involving(s, user))
  {
    if s != [] {
      var rest := Involving(s[1..], user);
      assert NewestFirst(s[1..]);
      InvolvingKeepsOrder(s[1..], user);
      forall t | t in rest
        ensures s[0].createdAt >= t.createdAt
      {
        InvolvingExactly(s[1..], user, t);
        var k :| 0 <= k < |s[1..]| && s[1..][k] == t;
        assert s[k + 1] == t;
      }
      var r := Involving(s, user);
      if Involves(s[0], user) {
        forall i, j | 0 <= i < j < |r|
          ensures r[i].createdAt >= r[j].createdAt
        {
          if i == 0 {
            assert r[j] == rest[j - 1];
            assert rest[j - 1] in rest;
          } else {
            assert r[i] == rest[i - 1] && r[j] == rest[j - 1];
          }
        }
      }
    }
  }

  lemma ReverseNewestFirst(store: seq<TourRequest>)
    requires ChronologicalOrder(store)
    ensures NewestFirst(Seqs.Reverse(store))
  {
    var r := Seqs.Reverse(store);
    forall i, j | 0 <= i < j < |r|
      ensures r[i].createdAt >= r[j].createdAt
    {
      assert r[i] == store[|store| - 1 - i] && r[j] == store[|store| - 1 - j];
    }
  }

  /**
   * A decoded caller gets every request naming them as newbie or veteran
   * and nothing else, newest first; without a decodable token, 401.
   */
  lemma MyRequests(session: Session, store: seq<TourRequest>, t: TourRequest)
    requires ChronologicalOrder(store)
    ensures session.Refused() <==> My(session, store) == Err(Unauthorized)
    ensures session.DecodeThrew? <==> My(session, store) == Err(Failed)
    ensures session.Decoded? ==>
      && My(session, store).Ok?
      && (t in My(session, store).value <==> t in store && Involves(t, session.userId))
      && NewestFirst(My(session, store).value)
  {
    if session.Decoded? {
      var r := Seqs.Reverse(store);
      InvolvingExactly(r, session.userId, t);
      if t in store {
        var k :| 0 <= k < |store| && store[k] == t;
        assert r[|store| - 1 - k] == t;
      }
      ReverseNewestFirst(store);
      InvolvingKeepsOrder(r, session.userId);
    }
  }

  /**
   * The request body the tour page sends: it carries a single `time` field
   * and neither `startTime` nor `endTime`.
   */
  function TourPageBody(newbie: Id, veteran: Id, place: Id, time: string, offer: int): CreateBody {
    CreateBody(Some(newbie), Some(veteran), Some(place), None, None, None, Some(offer))
  }

  /**
   * So the tour page can never create a request: once the token is decoded
   * the answer is 403 or 400 "Missing fields".
   */
  lemma TourPageNeverCreates(session: Session, users: seq<UserDoc>, newbie: Id, veteran: Id, place: Id,
                             time: string, offer: int, id: Id, now: int)
    ensures Post(session, users, TourPageBody(newbie, veteran, place, time, offer), id, now).Err?
    ensures var r := Post(session, users, TourPageBody(newbie, veteran, place, time, offer), id, now);
      session.Decoded? ==> r == Err(OnlyNewbies) || r == Err(MissingFields)
  {
  }

  /** The body the page evidently means to send: the chosen window as `startTime` and `endTime`. */
  function TourPageBodyFixed(newbie: Id, veteran: Id, place: Id, start: RawTime, end: RawTime, offer: int): CreateBody {
    CreateBody(Some(newbie), Some(veteran), Some(place), Some(start), Some(end), None, Some(offer))
  }

  /** With that body a newbie's request for a real guide and a valid window is created. */
  lemma TourPageFixedCreates(session: Session, users: seq<UserDoc>, newbie: Id, veteran: Id, place: Id,
                             start: RawTime, end: RawTime, offer: int, id: Id, now: int)
    requires session.Decoded? && HasRole(users, session.userId, Newbie)
    requires newbie != "" && place != "" && veteran != "" && start.text != "" && end.text != ""
    requires HasRole(users, veteran, Veteran)
    requires start.parsed.Some? && end.parsed.Some? && start.parsed.value < end.parsed.value
    ensures Post(session, users, TourPageBodyFixed(newbie, veteran, place, start, end, offer), id, now).Ok?
  {
  }
}
