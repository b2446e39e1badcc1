/** The Place document: trimmed required strings, two minimum lengths, defaults and the unique (name, city, state) key. */
module PlaceModel {
  import opened Wrappers
  import opened Http
  import opened Text

  datatype PlaceDoc = PlaceDoc(
    id: Id,
    name: string,
    description: string,
    country: string,
    state: string,
    city: string,
    image: string,
    isActive: bool,
    createdAt: int)

  datatype PlaceFields = PlaceFields(
    name: Option<string>,
    description: Option<string>,
    country: Option<string>,
    state: Option<string>,
    city: Option<string>,
    image: Option<string>,
    isActive: Option<bool>)

  const NameMin := 2
  const DescriptionMin := 10
  const DefaultImage := "https://images.unsplash.com/photo-1506905925346-21bda4d32df4?ixlib=rb-4.0.3&ixid=M3wxMjA3fDB8MHxwaG90by1wYWdlfHx8fGVufDB8fHx8fA%3D%3D&auto=format&fit=crop&w=1920&q=80"

  function TrimOpt(o: Option<string>): Option<string> {
    if o.Some? then Some(Trim(o.value)) else None
  }

  /** The five strings after their `trim` setters. */
  function Normalize(f: PlaceFields): PlaceFields {
    f.(name := TrimOpt(f.name), description := TrimOpt(f.description), country := TrimOpt(f.country),
       state := TrimOpt(f.state), city := TrimOpt(f.city))
  }

  /** The failing paths of a normalized document. */
  function Errors(f: PlaceFields): set<string> {
    (if !Truthy(f.name) || JsLength(f.name.value) < NameMin then {"name"} else {})
    + (if !Truthy(f.description) || JsLength(f.description.value) < DescriptionMin then {"description"} else {})
    + (if !Truthy(f.country) then {"country"} else {})
    + (if !Truthy(f.state) then {"state"} else {})
    + (if !Truthy(f.city) then {"city"} else {})
  }

  /** Saving a new place: setters, validators, then the default image, active and created now. */
  function Construct(input: PlaceFields, id: Id, now: int): Result<PlaceDoc, set<string>> {
    var f := Normalize(input);
    if Errors(f) != {} then Err(Errors(f))
    else Ok(PlaceDoc(id, f.name.value, f.description.value, f.country.value, f.state.value, f.city.value,
                     f.image.GetOr(DefaultImage), f.isActive.GetOr(true), now))
  }

  /** The invariant of a stored place. */
  predicate ValidPlace(p: PlaceDoc) {
    JsLength(p.name) >= NameMin && JsLength(p.description) >= DescriptionMin && p.country != "" && p.state != "" && p.city != ""
  }

  lemma ConstructValid(input: PlaceFields, id: Id, now: int)
    requires Construct(input, id, now).Ok?
    ensures var p := Construct(input, id, now).value;
      && ValidPlace(p) && p.id == id && p.createdAt == now
      && p.isActive == input.isActive.GetOr(true)
      && p.image == input.image.GetOr(DefaultImage)
  {
    var f := Normalize(input);
    assert Errors(f) == {};
  }

  /** The unique index's key. */
  datatype Key = Key(name: string, city: string, state: string)

  function KeyOf(p: PlaceDoc): Key {
    Key(p.name, p.city, p.state)
  }

  /** `findOne({ name, city, state })`. */
  function FindByKey(places: seq<PlaceDoc>, k: Key): (r: Option<PlaceDoc>)
    ensures r.Some? ==> r.value in places && KeyOf(r.value) == k
    ensures r.None? ==> forall p :: p in places ==> KeyOf(p) != k
  {
    if places == [] then None
    else if KeyOf(places[0]) == k then Some(places[0])
    else FindByKey(places[1..], k)
  }

  /** `Place.findById`. */
  function FindById(places: seq<PlaceDoc>, id: Id): (r: Option<PlaceDoc>)
    ensures r.Some? ==> r.value in places && r.value.id == id
    ensures r.None? ==> forall p :: p in places ==> p.id != id
  {
    if places == [] then None
    else if places[0].id == id then Some(places[0])
    else FindById(places[1..], id)
  }

  /** No two stored places share a key. */
  predicate UniqueKeys(places: seq<PlaceDoc>) {
    forall i, j :: 0 <= i < j < |places| ==> KeyOf(places[i]) != KeyOf(places[j])
  }

  /** Adding a place whose key is not yet taken keeps the keys unique. */
  lemma AppendKeepsUnique(places: seq<PlaceDoc>, p: PlaceDoc)
    requires UniqueKeys(places)
    requires FindByKey(places, KeyOf(p)).None?
    ensures UniqueKeys(places + [p])
  {
    var s := places + [p];
    forall i, j | 0 <= i < j < |s|
      ensures KeyOf(s[i]) != KeyOf(s[j])
    {
      if j == |places| {
        assert s[i] in places;
      }
    }
  }
}

/** The admin place routes: the admin check, the filtered and paged listing with its counts, and creation. */
module AdminPlaces {
  import opened Wrappers
  import opened Http
  import opened Text
  import Seqs
  import opened Paging
  import opened PlaceModel

  const UnauthorizedAccess := HttpError(401, "Unauthorized access")
  const FetchFailed := HttpError(500, "Failed to fetch places")
  const CreateFailed := HttpError(500, "Failed to create place")
  const MissingRequired := HttpError(400, "All required fields must be provided")
  const Duplicate := HttpError(409, "A place with this name already exists in this city")

  /** `verifyAdmin`: a decodable token whose user type is "admin". */
  predicate IsAdmin(session: Session) {
    session.Decoded? && session.userType == "admin"
  }

  /**
   * The listing query.  `hit` stands for the case-insensitive pattern search
   * over name, city, state and country, which is not modelled; it is used
   * only when `search` is non-empty.  `isActive` is the raw parameter.
   */
  predicate Matches(p: PlaceDoc, search: string, hit: PlaceDoc -> bool, isActive: Option<string>) {
    && (search != "" ==> hit(p))
    && (isActive.Some? && isActive.value != "" ==> p.isActive == (isActive.value == "true"))
  }

  function Filter(s: seq<PlaceDoc>, search: string, hit: PlaceDoc -> bool, isActive: Option<string>): (r: seq<PlaceDoc>)
    ensures |r| <= |s|
  {
    if s == [] then []
    else (if Matches(s[0], search, hit, isActive) then [s[0]] else []) + Filter(s[1..], search, hit, isActive)
  }

  lemma {:induction false} FilterExactly(s: seq<PlaceDoc>, search: string, hit: PlaceDoc -> bool, isActive: Option<string>, p: PlaceDoc)
    ensures p in Filter(s, search, hit, isActive) <==> p in s && Matches(p, search, hit, isActive)
  {
    if s != [] {
      FilterExactly(s[1..], search, hit, isActive, p);
      assert s == [s[0]] + s[1..];
    }
  }

  /** Whole-collection counts, as the aggregate computes them. */
  datatype Stats = Stats(total: nat, active: nat, inactive: nat)

  function CountActive(s: seq<PlaceDoc>): (r: nat)
    ensures r <= |s|
  {
    if s == [] then 0 else (if s[0].isActive then 1 else 0) + CountActive(s[1..])
  }

  function StatsOf(places: seq<PlaceDoc>): Stats {
    Stats(|places|, CountActive(places), |places| - CountActive(places))
  }

  /** Every place is counted once, as active or as inactive; an empty collection gives zeros. */
  lemma {:induction false} StatsPartition(places: seq<PlaceDoc>)
    ensures StatsOf(places).active + StatsOf(places).inactive == StatsOf(places).total
    ensures places == [] ==> StatsOf(places) == Stats(0, 0, 0)
    ensures StatsOf(places).active == |Filter(places, "", p => true, Some("true"))|
  {
    if places != [] {
      StatsPartition(places[1..]);
    }
  }

  datatype Pagination = Pagination(currentPage: int, totalPages: JsNum, total: nat, hasNext: bool, hasPrev: bool)

  datatype Listing = Listing(places: seq<PlaceDoc>, pagination: Pagination, stats: Stats)

  /** `GET /api/admin/places`; `store` is in insertion order, so newest first is its reverse. */
  function List(session: Session, store: seq<PlaceDoc>, page: int, limit: int, search: string,
                hit: PlaceDoc -> bool, isActive: Option<string>): Result<Listing, HttpError>
  {
    if !IsAdmin(session) then Err(UnauthorizedAccess)
    else
      var matching := Filter(Seqs.Reverse(store), search, hit, isActive);
      var slice := Page(matching, SkipCount(page, limit), limit);
      if slice.None? then Err(FetchFailed)
      else
        var total := |matching|;
        Ok(Listing(slice.value,
                   Pagination(page, TotalPages(total, limit), total, HasNextByPages(page, limit, total), HasPrev(page)),
                   StatsOf(store)))
  }

  /**
   * For an admin and a page of at least 1, the listing shows the matching
   * places, newest first, at positions `(page - 1) * limit` up to
   * `page * limit - 1`, counts all matching places
   * and reports a next page exactly when `page * limit` is below that count.
   */
  lemma ListPaged(session: Session, store: seq<PlaceDoc>, page: int, limit: int, search: string,
                  hit: PlaceDoc -> bool, isActive: Option<string>)
    requires IsAdmin(session) && page >= 1 && limit > 0
    ensures var r := List(session, store, page, limit, search, hit, isActive);
      && r.Ok?
      && r.value.pagination.total == |Filter(Seqs.Reverse(store), search, hit, isActive)|
      && r.value.places == Window(Filter(Seqs.Reverse(store), search, hit, isActive), SkipCount(page, limit), limit)
      && |r.value.places| <= limit
      && (r.value.pagination.hasNext <==> page * limit < r.value.pagination.total)
      && (r.value.pagination.hasPrev <==> page > 1)
      && (forall p :: p in r.value.places ==> p in store && Matches(p, search, hit, isActive))
  {
    var matching := Filter(Seqs.Reverse(store), search, hit, isActive);
    MulMonotone(0, page - 1, limit);
    HasNextAgree(page, limit, |matching|);
    PageWindow(matching, SkipCount(page, limit), limit);
    var slice := Page(matching, SkipCount(page, limit), limit).value;
    forall p | p in slice
      ensures p in store && Matches(p, search, hit, isActive)
    {
      FilterExactly(Seqs.Reverse(store), search, hit, isActive, p);
      var k :| 0 <= k < |Seqs.Reverse(store)| && Seqs.Reverse(store)[k] == p;
      assert store[|store| - 1 - k] == p;
    }
  }

  /** A page before the first skips a negative count, which the database refuses: 500. */
  lemma ListPageZeroFails(session: Session, store: seq<PlaceDoc>, limit: int, search: string,
                          hit: PlaceDoc -> bool, isActive: Option<string>)
    requires IsAdmin(session) && limit > 0
    ensures List(session, store, 0, limit, search, hit, isActive) == Err(FetchFailed)
  {
  }

  /** The JSON body of a new place. */
  datatype PlaceBody = PlaceBody(
    name: Option<string>,
    description: Option<string>,
    city: Option<string>,
    state: Option<string>,
    country: Option<string>,
    image: Option<string>,
    isActive: Option<bool>)

  /** The key the duplicate check looks up: trimmed name, city and state. */
  function BodyKey(b: PlaceBody): Key
    requires b.name.Some? && b.city.Some? && b.state.Some?
  {
    Key(Trim(b.name.value), Trim(b.city.value), Trim(b.state.value))
  }

  /** `POST /api/admin/places`: the new place and the collection after the insert. */
  function Create(session: Session, store: seq<PlaceDoc>, b: PlaceBody, id: Id, now: int)
    : Result<(PlaceDoc, seq<PlaceDoc>), HttpError>
  {
    if !IsAdmin(session) then Err(UnauthorizedAccess)
    else if !Truthy(b.name) || !Truthy(b.description) || !Truthy(b.city) || !Truthy(b.state) || !Truthy(b.country)
    then Err(MissingRequired)
    else if FindByKey(store, BodyKey(b)).Some? then Err(Duplicate)
    else
      var fields := PlaceFields(Some(Trim(b.name.value)), Some(Trim(b.description.value)), Some(Trim(b.country.value)),
                                Some(Trim(b.state.value)), Some(Trim(b.city.value)),
                                if Truthy(b.image) then b.image else None,
                                Some(b.isActive.GetOr(true)));
      match PlaceModel.Construct(fields, id, now)
      case Err(_) => Err(CreateFailed)
      case Ok(p) => Ok((p, store + [p]))
  }

  /** A key already used (after trimming) gives 409 and nothing is stored. */
  lemma CreateDuplicate(session: Session, store: seq<PlaceDoc>, b: PlaceBody, id: Id, now: int, q: PlaceDoc)
    requires IsAdmin(session)
    requires Truthy(b.name) && Truthy(b.description) && Truthy(b.city) && Truthy(b.state) && Truthy(b.country)
    requires q in store && KeyOf(q) == BodyKey(b)
    ensures Create(session, store, b, id, now) == Err(Duplicate)
  {
  }

  /**
   * A created place is valid, holds the trimmed strings, is active unless
   * told otherwise, is appended to the collection and keeps the key unique.
   */
  lemma CreateStoresTrimmed(session: Session, store: seq<PlaceDoc>, b: PlaceBody, id: Id, now: int)
    requires UniqueKeys(store)
    requires Create(session, store, b, id, now).Ok?
    ensures var (p, after) := Create(session, store, b, id, now).value;
      && IsAdmin(session)
      && ValidPlace(p) && KeyOf(p) == BodyKey(b)
      && p.description == Trim(b.description.value) && p.country == Trim(b.country.value)
      && p.isActive == b.isActive.GetOr(true)
      && after == store + [p]
      && UniqueKeys(after)
  {
    var fields := PlaceFields(Some(Trim(b.name.value)), Some(Trim(b.description.value)), Some(Trim(b.country.value)),
                              Some(Trim(b.state.value)), Some(Trim(b.city.value)),
                              if Truthy(b.image) then b.image else None,
                              Some(b.isActive.GetOr(true)));
    var p := PlaceModel.Construct(fields, id, now).value;
    ConstructValid(fields, id, now);
    TrimIdempotent(b.name.value);
    TrimIdempotent(b.description.value);
    TrimIdempotent(b.country.value);
    TrimIdempotent(b.state.value);
    TrimIdempotent(b.city.value);
    AppendKeepsUnique(store, p);
  }

  /** Both routes refuse a caller that is not an admin. */
  lemma NonAdminRefused(session: Session, store: seq<PlaceDoc>, page: int, limit: int, search: string,
                        hit: PlaceDoc -> bool, isActive: Option<string>, b: PlaceBody, id: Id, now: int)
    requires !IsAdmin(session)
    ensures List(session, store, page, limit, search, hit, isActive) == Err(UnauthorizedAccess)
    ensures Create(session, store, b, id, now) == Err(UnauthorizedAccess)
  {
  }
}
