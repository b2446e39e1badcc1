/**
 * `PUT /api/auth/profile`: the signed-in user's document is loaded, the
 * password is replaced when a change is asked for and the current one
 * matches, the name is replaced when non-empty and every other editable
 * field whenever it is present, and the document is saved through the
 * schema's setters and validators.
 */
module ProfileRoute {
  import opened Wrappers
  import opened Http
  import opened Text
  import opened UserModel

  /** The fields the handler destructures from the JSON body. */
  datatype ProfileBody = ProfileBody(
    name: Option<string>,
    phone: Option<string>,
    businessName: Option<string>,
    businessDescription: Option<string>,
    businessAddress: Option<string>,
    businessPhone: Option<string>,
    businessHours: Option<string>,
    description: Option<string>,
    currentPassword: Option<string>,
    newPassword: Option<string>)

  /** The user object of the response: the stored document without its password. */
  datatype ProfileView = ProfileView(
    id: Id,
    name: string,
    email: string,
    userType: Role,
    place: Option<Id>,
    phone: Option<string>,
    businessName: Option<string>,
    businessDescription: Option<string>,
    businessAddress: Option<string>,
    businessPhone: Option<string>,
    businessHours: Option<string>,
    description: Option<string>)

  const NoTokenProvided := HttpError(401, "No token provided")
  const UserNotFound := HttpError(404, "User not found")
  const WrongPassword := HttpError(400, "Current password is incorrect")

  function View(u: UserDoc): (v: ProfileView)
    ensures v.id == u.id && v.name == u.name && v.email == u.email && v.userType == u.userType
    ensures v.place == u.place && v.phone == u.phone && v.description == u.description
    ensures v.businessName == u.businessName && v.businessDescription == u.businessDescription
    ensures v.businessAddress == u.businessAddress && v.businessPhone == u.businessPhone
    ensures v.businessHours == u.businessHours
  {
    ProfileView(u.id, u.name, u.email, u.userType, u.place, u.phone, u.businessName,
                u.businessDescription, u.businessAddress, u.businessPhone, u.businessHours,
                u.description)
  }

  /** `newPassword && currentPassword`. */
  predicate AsksPasswordChange(b: ProfileBody) {
    Truthy(b.newPassword) && Truthy(b.currentPassword)
  }

  /** `if (x !== undefined) user.x = x`. */
  function Overwrite(v: Option<string>, current: Option<string>): Option<string> {
    if v.Some? then v else current
  }

  /** The name (when non-empty), phone and description assignments. */
  function AssignContact(u: UserDoc, b: ProfileBody): UserDoc {
    u.(name := if Truthy(b.name) then b.name.value else u.name,
       phone := Overwrite(b.phone, u.phone),
       description := Overwrite(b.description, u.description))
  }

  /** The five business assignments. */
  function AssignBusiness(u: UserDoc, b: ProfileBody): UserDoc {
    u.(businessName := Overwrite(b.businessName, u.businessName),
       businessDescription := Overwrite(b.businessDescription, u.businessDescription),
       businessAddress := Overwrite(b.businessAddress, u.businessAddress),
       businessPhone := Overwrite(b.businessPhone, u.businessPhone),
       businessHours := Overwrite(b.businessHours, u.businessHours))
  }

  /** The document after the handler's assignments; `hashed` is what bcrypt made of the new password. */
  function Merge(u: UserDoc, b: ProfileBody, hashed: string): UserDoc {
    AssignBusiness(AssignContact(u.(password := if AsksPasswordChange(b) then hashed else u.password), b), b)
  }

  /** `user.save()`: the setters and validators run over the document, which keeps its id and creation time. */
  function Save(u: UserDoc): Result<UserDoc, set<string>> {
    Construct(FieldsOf(u), u.id, u.createdAt)
  }

  /** The position of the user with that id, the one `findById` returns. */
  function IndexOfId(users: seq<UserDoc>, id: Id): (r: Option<nat>)
    ensures r.Some? <==> FindById(users, id).Some?
    ensures r.Some? ==> r.value < |users| && users[r.value] == FindById(users, id).value
  {
    if users == [] then None
    else if users[0].id == id then Some(0)
    else match IndexOfId(users[1..], id)
      case None => None
      case Some(i) => Some(i + 1)
  }

  /**
   * The handler as a whole: the response and the collection afterwards.
   * `jwt.verify` throws on a token it cannot verify, which the handler's
   * catch turns into 500; there is no null check, so a null payload throws
   * at `decoded.userId` and is a 500 too.  `matches(plain, hash)` is `bcrypt.compare`.
   */
  function Put(users: seq<UserDoc>, session: Session, b: ProfileBody,
               matches: (string, string) -> bool, hashed: string)
    : (Result<ProfileView, HttpError>, seq<UserDoc>)
  {
    match session
    case NoToken => (Err(NoTokenProvided), users)
    case DecodedNull => (Err(InternalError), users)
    case DecodeThrew => (Err(InternalError), users)
    case Decoded(userId, _) =>
      match IndexOfId(users, userId)
      case None => (Err(UserNotFound), users)
      case Some(i) =>
        var u := users[i];
        if AsksPasswordChange(b) && !matches(b.currentPassword.value, u.password) then (Err(WrongPassword), users)
        else
          match Save(Merge(u, b, hashed))
          case Err(_) => (Err(InternalError), users)
          case Ok(saved) => (Ok(View(saved)), users[i := saved])
  }

  /** Without a token the answer is 401; with one that does not yield claims, 500; nothing is stored either way. */
  lemma PutNeedsToken(users: seq<UserDoc>, session: Session, b: ProfileBody, matches: (string, string) -> bool, hashed: string)
    requires !session.Decoded?
    ensures Put(users, session, b, matches, hashed).1 == users
    ensures session.NoToken? ==> Put(users, session, b, matches, hashed).0 == Err(HttpError(401, "No token provided"))
    ensures (session.DecodedNull? || session.DecodeThrew?) ==> Put(users, session, b, matches, hashed).0 == Err(HttpError(500, "Internal server error"))
  {
  }

  /** An unknown user gets 404 and a wrong current password 400, before anything is saved. */
  lemma PutRejections(users: seq<UserDoc>, userId: Id, t: string, b: ProfileBody, matches: (string, string) -> bool, hashed: string)
    ensures var (r, after) := Put(users, Decoded(userId, t), b, matches, hashed);
      && (FindById(users, userId).None? ==> r == Err(UserNotFound) && after == users)
      && (FindById(users, userId).Some? && AsksPasswordChange(b)
          && !matches(b.currentPassword.value, FindById(users, userId).value.password)
          ==> r == Err(WrongPassword) && after == users)
  {
  }

  /** What `save` stores: a valid user with the trimmed (and, for the email, lowercased) values. */
  lemma SavedFields(m: UserDoc)
    requires Save(m).Ok?
    ensures var s := Save(m).value;
      && ValidUser(s) && s.id == m.id && s.createdAt == m.createdAt
      && s.name == Trim(m.name) && s.email == Lower(Trim(m.email)) && s.password == m.password
      && s.userType == m.userType && s.place == m.place
      && s.profilePicture == m.profilePicture && s.isActive == m.isActive
      && s.phone == TrimOpt(m.phone) && s.description == TrimOpt(m.description)
      && s.businessName == TrimOpt(m.businessName) && s.businessDescription == TrimOpt(m.businessDescription)
      && s.businessAddress == TrimOpt(m.businessAddress) && s.businessPhone == TrimOpt(m.businessPhone)
      && s.businessHours == TrimOpt(m.businessHours)
  {
    ConstructValid(FieldsOf(m), m.id, m.createdAt);
    ParseRoleName(m.userType);
    assert EffectiveRole(FieldsOf(m)) == Some(m.userType);
  }

  /** `Overwrite` followed by the trimming setter, on a field already stored trimmed. */
  function Updated(v: Option<string>, current: Option<string>): Option<string> {
    if v.Some? then Some(Trim(v.value)) else current
  }

  lemma TrimOverwrite(v: Option<string>, current: Option<string>)
    requires CleanOpt(current)
    ensures TrimOpt(Overwrite(v, current)) == Updated(v, current)
  {
    TrimOptOfClean(current);
  }

  /**
   * What a successful save of the merged document holds, for a valid
   * stored user: email, user type, place, picture, status, id and creation
   * time are the old ones; the password is the new hash exactly when a
   * change was asked for; the name is the trimmed new name when one was
   * given; every other editable field is the trimmed new value when present
   * and the old one otherwise.
   */
  lemma MergeSaved(u: UserDoc, b: ProfileBody, hashed: string)
    requires ValidUser(u)
    requires Save(Merge(u, b, hashed)).Ok?
    ensures var s := Save(Merge(u, b, hashed)).value;
      && ValidUser(s) && s.id == u.id
      && s.email == u.email && s.userType == u.userType && s.place == u.place
      && s.profilePicture == u.profilePicture && s.isActive == u.isActive && s.createdAt == u.createdAt
      && s.password == (if AsksPasswordChange(b) then hashed else u.password)
      && s.name == (if Truthy(b.name) then Trim(b.name.value) else u.name)
      && s.phone == Updated(b.phone, u.phone) && s.description == Updated(b.description, u.description)
      && s.businessName == Updated(b.businessName, u.businessName)
      && s.businessDescription == Updated(b.businessDescription, u.businessDescription)
      && s.businessAddress == Updated(b.businessAddress, u.businessAddress)
      && s.businessPhone == Updated(b.businessPhone, u.businessPhone)
      && s.businessHours == Updated(b.businessHours, u.businessHours)
  {
    var m := Merge(u, b, hashed);
    SavedFields(m);
    TrimOfClean(u.name);
    TrimOfClean(u.email);
    LowerOfNoUpper(u.email);
    TrimOverwrite(b.phone, u.phone);
    TrimOverwrite(b.description, u.description);
    TrimOverwrite(b.businessName, u.businessName);
    TrimOverwrite(b.businessDescription, u.businessDescription);
    TrimOverwrite(b.businessAddress, u.businessAddress);
    TrimOverwrite(b.businessPhone, u.businessPhone);
    TrimOverwrite(b.businessHours, u.businessHours);
  }

  /**
   * A successful update stores the saved document of `MergeSaved` in the
   * caller's place, leaves every other document as it was, and shows the
   * saved one.
   */
  lemma PutSuccess(users: seq<UserDoc>, userId: Id, t: string, b: ProfileBody, matches: (string, string) -> bool, hashed: string)
    requires forall v :: v in users ==> ValidUser(v)
    requires Put(users, Decoded(userId, t), b, matches, hashed).0.Ok?
    ensures FindById(users, userId).Some?
    ensures var u := FindById(users, userId).value;
      var i := IndexOfId(users, userId).value;
      var (r, after) := Put(users, Decoded(userId, t), b, matches, hashed);
      && Save(Merge(u, b, hashed)).Ok?
      && after == users[i := Save(Merge(u, b, hashed)).value]
      && r == Ok(View(after[i]))
      && ValidUser(after[i]) && after[i].id == userId
  {
    var i := IndexOfId(users, userId).value;
    var u := users[i];
    assert Save(Merge(u, b, hashed)).Ok?;
    var saved := Save(Merge(u, b, hashed)).value;
    assert Put(users, Decoded(userId, t), b, matches, hashed) == (Ok(View(saved)), users[i := saved]);
    MergeSaved(u, b, hashed);
  }

  /** A body that changes nothing saves the document as it was and shows it. */
  lemma EmptyBodyKeepsUser(users: seq<UserDoc>, userId: Id, t: string, matches: (string, string) -> bool, hashed: string)
    requires forall v :: v in users ==> ValidUser(v)
    requires FindById(users, userId).Some?
    ensures var b := ProfileBody(None, None, None, None, None, None, None, None, None, None);
      Put(users, Decoded(userId, t), b, matches, hashed) == (Ok(View(FindById(users, userId).value)), users)
  {
    var b := ProfileBody(None, None, None, None, None, None, None, None, None, None);
    var u := FindById(users, userId).value;
    var i := IndexOfId(users, userId).value;
    assert Merge(u, b, hashed) == u;
    ResaveRoundTrip(u);
    assert users[i := u] == users;
  }

  /**
   * Fields are overwritten even with "": a veteran who clears the phone
   * fails the schema's role-conditional requirement, and the answer is 500.
   */
  lemma VeteranClearingPhoneIsServerError(users: seq<UserDoc>, userId: Id, t: string, b: ProfileBody, matches: (string, string) -> bool, hashed: string)
    requires FindById(users, userId).Some? && FindById(users, userId).value.userType == Veteran
    requires b.phone == Some("")
    ensures var u := FindById(users, userId).value;
      Put(users, Decoded(userId, t), b, matches, hashed)
      == (if AsksPasswordChange(b) && !matches(b.currentPassword.value, u.password) then Err(WrongPassword) else Err(InternalError), users)
  {
    var u := FindById(users, userId).value;
    var f := Normalize(FieldsOf(Merge(u, b, hashed)));
    assert TrimOpt(Some("")) == Some("");
    assert EffectiveRole(f) == Some(Veteran);
    assert "phone" in ContactErrors(f);
  }

  /** The assignments of lines 61, 62 and 70, one at a time. */
  method ApplyContact(u: UserDoc, b: ProfileBody) returns (user: UserDoc)
    ensures user == AssignContact(u, b)
  {
    user := u;
    if Truthy(b.name) { user := user.(name := b.name.value); }
    if b.phone.Some? { user := user.(phone := b.phone); }
    if b.description.Some? { user := user.(description := b.description); }
  }

  /** The assignments of lines 63 to 69, one at a time. */
  method ApplyBusiness(u: UserDoc, b: ProfileBody) returns (user: UserDoc)
    ensures user == AssignBusiness(u, b)
  {
    user := u;
    if b.businessName.Some? { user := user.(businessName := b.businessName); }
    if b.businessDescription.Some? { user := user.(businessDescription := b.businessDescription); }
    if b.businessAddress.Some? { user := user.(businessAddress := b.businessAddress); }
    if b.businessPhone.Some? { user := user.(businessPhone := b.businessPhone); }
    if b.businessHours.Some? { user := user.(businessHours := b.businessHours); }
  }

  /** The collection of users, which the handler reads and writes back. */
  class UserCollection {
    var users: seq<UserDoc>

    constructor (initial: seq<UserDoc>)
      ensures users == initial
    {
      users := initial;
    }

    /** The handler: the loaded document is changed assignment by assignment, then saved. */
    method HandlePut(session: Session, b: ProfileBody, matches: (string, string) -> bool, hashed: string)
      returns (r: Result<ProfileView, HttpError>)
      modifies this
      ensures (r, users) == Put(old(users), session, b, matches, hashed)
    {
      if session.NoToken? {
        return Err(NoTokenProvided);
      }
      if session.DecodedNull? || session.DecodeThrew? {
        return Err(InternalError);
      }
      var found := IndexOfId(users, session.userId);
      if found.None? {
        return Err(UserNotFound);
      }
      var i := found.value;
      var user := users[i];
      if AsksPasswordChange(b) {
        if !matches(b.currentPassword.value, user.password) {
          return Err(WrongPassword);
        }
        user := user.(password := hashed);
      }
      user := ApplyContact(user, b);
      user := ApplyBusiness(user, b);
      var saved := Save(user);
      if saved.Err? {
        return Err(InternalError);
      }
      users := users[i := saved.value];
      r := Ok(View(saved.value));
    }
  }
}
