/**
 * `/api/admin/users`.  GET lists users newest first, filtered by user type,
 * activity and a search, a page at a time, with counts of the active and
 * inactive matches.  POST stores the body as a new user.  Neither handler
 * looks at the caller's token.
 */
module AdminUsersRoute {
  import opened Wrappers
  import opened Http
  import opened Text
  import Seqs
  import opened Paging
  import opened UserModel

  const EmailExists := HttpError(400, "Email already exists")

  /** The user type filter applies when the parameter is non-empty and not "all". */
  predicate TypeFilterOn(userType: Option<string>) {
    Truthy(userType) && userType.value != "all"
  }

  /** The activity filter: none when the parameter is empty or "all", else whether it is "true". */
  function ActiveFilter(isActive: Option<string>): (r: Option<bool>)
    ensures r.Some? <==> Truthy(isActive) && isActive.value != "all"
  {
    if Truthy(isActive) && isActive.value != "all" then Some(isActive.value == "true") else None
  }

  /**
   * The query.  `hit` stands for the case-insensitive pattern search over
   * name, email and business name, which is not modelled; it is used only
   * when `search` is non-empty.
   */
  predicate Matches(u: UserDoc, userType: Option<string>, search: Option<string>, hit: UserDoc -> bool, active: Option<bool>) {
    && (TypeFilterOn(userType) ==> RoleName(u.userType) == userType.value)
    && (Truthy(search) ==> hit(u))
    && (active.Some? ==> u.isActive == active.value)
  }

  function Filter(s: seq<UserDoc>, userType: Option<string>, search: Option<string>, hit: UserDoc -> bool, active: Option<bool>)
    : (r: seq<UserDoc>)
    ensures |r| <= |s|
  {
    if s == [] then []
    else (if Matches(s[0], userType, search, hit, active) then [s[0]] else []) + Filter(s[1..], userType, search, hit, active)
  }

  lemma {:induction false} FilterExactly(s: seq<UserDoc>, userType: Option<string>, search: Option<string>,
                                         hit: UserDoc -> bool, active: Option<bool>, u: UserDoc)
    ensures u in Filter(s, userType, search, hit, active) <==> u in s && Matches(u, userType, search, hit, active)
  {
    if s != [] {
      FilterExactly(s[1..], userType, search, hit, active, u);
      assert s == [s[0]] + s[1..];
    }
  }

  /** With no type, activity or search filter, every user matches. */
  lemma {:induction false} NoFilterKeepsAll(s: seq<UserDoc>, userType: Option<string>, search: Option<string>,
                                            hit: UserDoc -> bool, isActive: Option<string>)
    requires !TypeFilterOn(userType) && !Truthy(search) && ActiveFilter(isActive).None?
    ensures Filter(s, userType, search, hit, ActiveFilter(isActive)) == s
  {
    if s != [] {
      NoFilterKeepsAll(s[1..], userType, search, hit, isActive);
      assert s == [s[0]] + s[1..];
    }
  }

  /** The active and the inactive matches together are the matches without the activity filter. */
  lemma {:induction false} ActivityPartition(s: seq<UserDoc>, userType: Option<string>, search: Option<string>, hit: UserDoc -> bool)
    ensures |Filter(s, userType, search, hit, Some(true))| + |Filter(s, userType, search, hit, Some(false))|
         == |Filter(s, userType, search, hit, None)|
  {
    if s != [] {
      ActivityPartition(s[1..], userType, search, hit);
    }
  }

  /** A listed user: the document's public fields. */
  datatype UserRow = UserRow(
    id: Id, name: string, email: string, userType: Role, place: Option<Id>,
    phone: Option<string>, businessName: Option<string>, isActive: bool, createdAt: int)

  function RowOf(u: UserDoc): UserRow {
    UserRow(u.id, u.name, u.email, u.userType, u.place, u.phone, u.businessName, u.isActive, u.createdAt)
  }

  function Rows(s: seq<UserDoc>): (r: seq<UserRow>)
    ensures |r| == |s| && forall i :: 0 <= i < |s| ==> r[i] == RowOf(s[i])
  {
    if s == [] then [] else [RowOf(s[0])] + Rows(s[1..])
  }

  datatype Pagination = Pagination(currentPage: int, totalPages: JsNum, total: nat, hasNext: bool, hasPrev: bool)

  datatype Stats = Stats(total: nat, active: nat, inactive: nat)

  datatype Listing = Listing(users: seq<UserRow>, pagination: Pagination, stats: Stats)

  /**
   * `GET`, with the parsed `page` and `limit` (by default 1 and 10) and the
   * raw `userType`, `search` and `isActive` parameters.  `store` is in
   * creation order, so newest first is its reverse; a negative skip is
   * refused by the database, which the catch turns into 500.
   */
  function List(store: seq<UserDoc>, page: int, limit: int, userType: Option<string>, search: Option<string>,
                hit: UserDoc -> bool, isActive: Option<string>): Result<Listing, HttpError>
  {
    var matching := Filter(Seqs.Reverse(store), userType, search, hit, ActiveFilter(isActive));
    match Page(matching, SkipCount(page, limit), limit)
    case None => Err(InternalError)
    case Some(slice) =>
      var total := |matching|;
      Ok(Listing(Rows(slice),
                 Pagination(page, TotalPages(total, limit), total, HasNextByCount(page, limit, total), HasPrev(page)),
                 Stats(total,
                       |Filter(store, userType, search, hit, Some(true))|,
                       |Filter(store, userType, search, hit, Some(false))|)))
  }

  lemma FilterReverse(store: seq<UserDoc>, userType: Option<string>, search: Option<string>, hit: UserDoc -> bool,
                      active: Option<bool>, u: UserDoc)
    ensures u in Filter(Seqs.Reverse(store), userType, search, hit, active) <==> u in store && Matches(u, userType, search, hit, active)
  {
    var r := Seqs.Reverse(store);
    FilterExactly(r, userType, search, hit, active, u);
    if u in store {
      var k :| 0 <= k < |store| && store[k] == u;
      assert r[|store| - 1 - k] == u;
    }
    if u in r {
      var k :| 0 <= k < |r| && r[k] == u;
      assert store[|store| - 1 - k] == u;
    }
  }

  /**
   * For a page of at least 1 and a positive limit the listing answers with
   * the public fields of the matching users, newest first, at positions
   * `(page - 1) * limit` up to `page * limit - 1`: at most `limit` rows,
   * each a matching user's public fields; `total`
   * counts the matches, `hasNext` holds exactly when `page * limit` is
   * below it and `hasPrev` exactly when the page is past the first.
   */
  lemma ListPaged(store: seq<UserDoc>, page: int, limit: int, userType: Option<string>, search: Option<string>,
                  hit: UserDoc -> bool, isActive: Option<string>)
    requires page >= 1 && limit > 0
    ensures var r := List(store, page, limit, userType, search, hit, isActive);
      var matching := Filter(Seqs.Reverse(store), userType, search, hit, ActiveFilter(isActive));
      && r.Ok?
      && r.value.pagination.total == |matching|
      && r.value.users == Rows(Window(matching, SkipCount(page, limit), limit))
      && |r.value.users| <= limit
      && (r.value.pagination.hasNext <==> page * limit < |matching|)
      && (r.value.pagination.hasPrev <==> page > 1)
      && (forall k :: 0 <= k < |r.value.users| ==>
            exists u :: u in store && Matches(u, userType, search, hit, ActiveFilter(isActive)) && r.value.users[k] == RowOf(u))
  {
    var matching := Filter(Seqs.Reverse(store), userType, search, hit, ActiveFilter(isActive));
    MulMonotone(0, page - 1, limit);
    PageWindow(matching, SkipCount(page, limit), limit);
    var slice := Page(matching, SkipCount(page, limit), limit).value;
    SliceRowsMatch(store, slice, userType, search, hit, ActiveFilter(isActive));
  }

  /** Every row of a slice of the matching users is a matching stored user's public fields. */
  lemma SliceRowsMatch(store: seq<UserDoc>, slice: seq<UserDoc>, userType: Option<string>, search: Option<string>,
                       hit: UserDoc -> bool, active: Option<bool>)
    requires forall x :: x in slice ==> x in Filter(Seqs.Reverse(store), userType, search, hit, active)
    ensures forall k :: 0 <= k < |slice| ==>
      exists u :: u in store && Matches(u, userType, search, hit, active) && Rows(slice)[k] == RowOf(u)
  {
    var rows := Rows(slice);
    forall k | 0 <= k < |slice|
      ensures exists u :: u in store && Matches(u, userType, search, hit, active) && rows[k] == RowOf(u)
    {
      var u := slice[k];
      assert u in slice;
      FilterReverse(store, userType, search, hit, active, u);
      assert u in store && Matches(u, userType, search, hit, active) && rows[k] == RowOf(u);
    }
  }

  /** With neither filter nor search, `total` is the number of users. */
  lemma ListUnfiltered(store: seq<UserDoc>, page: int, limit: int, userType: Option<string>, search: Option<string>,
                       hit: UserDoc -> bool, isActive: Option<string>)
    requires page >= 1 && limit > 0
    requires !TypeFilterOn(userType) && !Truthy(search) && ActiveFilter(isActive).None?
    ensures List(store, page, limit, userType, search, hit, isActive).Ok?
    ensures List(store, page, limit, userType, search, hit, isActive).value.pagination.total == |store|
  {
    NoFilterKeepsAll(Seqs.Reverse(store), userType, search, hit, isActive);
    MulMonotone(0, page - 1, limit);
  }

  /**
   * The activity counts keep the type filter and the search but replace the
   * activity filter: they are the same whatever `isActive` says, and they
   * add up to the number of matches without it.
   */
  lemma CountsOverrideActivity(store: seq<UserDoc>, page: int, limit: int, userType: Option<string>, search: Option<string>,
                               hit: UserDoc -> bool, isActive: Option<string>, isActive2: Option<string>)
    requires List(store, page, limit, userType, search, hit, isActive).Ok?
    requires List(store, page, limit, userType, search, hit, isActive2).Ok?
    ensures var s1 := List(store, page, limit, userType, search, hit, isActive).value.stats;
      var s2 := List(store, page, limit, userType, search, hit, isActive2).value.stats;
      s1.active == s2.active && s1.inactive == s2.inactive
      && s1.active + s1.inactive == |Filter(store, userType, search, hit, None)|
  {
    ActivityPartition(store, userType, search, hit);
  }

  /** What `POST` answers. */
  datatype PostResult = Created(user: UserDoc) | Refused(error: HttpError) | Invalid(errors: set<string>)

  /**
   * `POST`: `new User(body).save()`.  A validation error reaches the catch
   * without a code and gets 500 with its message; a second document with a
   * stored email violates the unique index (code 11000), which gets 400.
   * The body's password is stored as given.
   */
  function Post(store: seq<UserDoc>, body: UserFields, id: Id, now: int): (PostResult, seq<UserDoc>) {
    match Construct(body, id, now)
    case Err(errors) => (Invalid(errors), store)
    case Ok(u) =>
      if FindByEmail(store, u.email).Some? then (Refused(EmailExists), store)
      else (Created(u), store + [u])
  }

  /**
   * A created user passes the schema, has a new address, is appended to the
   * collection, and keeps the body's password exactly as sent: this route
   * does not hash it.
   */
  lemma PostCreated(store: seq<UserDoc>, body: UserFields, id: Id, now: int)
    requires Post(store, body, id, now).0.Created?
    ensures var (r, after) := Post(store, body, id, now);
      && ValidUser(r.user) && r.user.id == id && r.user.createdAt == now
      && FindByEmail(store, r.user.email).None?
      && after == store + [r.user]
      && Some(r.user.password) == body.password
      && r.user.place == body.place
  {
    ConstructValid(body, id, now);
  }

  /** An address already stored, after the email setters, gets 400 and nothing is stored. */
  lemma PostDuplicateEmail(store: seq<UserDoc>, body: UserFields, id: Id, now: int, v: UserDoc)
    requires Construct(body, id, now).Ok?
    requires v in store && v.email == Construct(body, id, now).value.email
    ensures Post(store, body, id, now) == (Refused(HttpError(400, "Email already exists")), store)
  {
  }

  /** A body the schema refuses stores nothing, even when its address is also taken. */
  lemma PostInvalid(store: seq<UserDoc>, body: UserFields, id: Id, now: int)
    requires Construct(body, id, now).Err?
    ensures Post(store, body, id, now).0.Invalid? && Post(store, body, id, now).1 == store
  {
  }
}
