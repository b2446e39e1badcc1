/**
 * `POST /api/auth/signup`: a cascade of checks with early 400s, then the
 * user document built from the truthy optional fields, the schema, and the
 * session token.  The password hash is supplied by the caller of the model.
 */
module SignupRoute {
  import opened Wrappers
  import opened Http
  import opened Text
  import opened UserModel
  import PlaceModel

  /** The fields the handler reads from the JSON body. */
  datatype SignupBody = SignupBody(
    name: Option<string>,
    email: Option<string>,
    password: Option<string>,
    userType: Option<string>,
    place: Option<Id>,
    phone: Option<string>,
    businessName: Option<string>,
    businessDescription: Option<string>,
    businessAddress: Option<string>,
    businessPhone: Option<string>,
    businessHours: Option<string>,
    description: Option<string>,
    profilePicture: Option<string>)

  /** The token's claims. */
  datatype Claims = Claims(userId: Id, userType: string)

  datatype Created = Created(user: UserDoc, claims: Claims, maxAge: int)

  const RequiredMissing := HttpError(400, "Name, email, password, and user type are required")
  const InvalidUserType := HttpError(400, "Invalid user type")
  const ShortPassword := HttpError(400, "Password must be at least 6 characters long")
  const PlaceRequired := HttpError(400, "Place selection is required for this user type")
  const PhoneRequired := HttpError(400, "Phone number is required for this user type")
  const ShortDescription := HttpError(400, "Description must be at least 10 characters long")
  const ShortBusinessName := HttpError(400, "Business name must be at least 2 characters long")
  const ShortBusinessDescription := HttpError(400, "Business description must be at least 10 characters long")
  const ShortBusinessAddress := HttpError(400, "Business address must be at least 5 characters long")
  const ShortBusinessPhone := HttpError(400, "Business phone must be at least 10 characters long")
  const NoBusinessHours := HttpError(400, "Business hours must be specified")
  const BadPlace := HttpError(400, "Invalid or inactive place selected")
  const EmailTaken := HttpError(400, "User already exists with this email")

  /** The four user types open to self-registration. */
  predicate SelfServiceType(t: string) {
    t == "newbie" || t == "veteran" || t == "local_shop" || t == "restaurant"
  }

  /** `!v || v.length < min`. */
  predicate TooShort(v: Option<string>, min: nat) {
    !Truthy(v) || JsLength(v.value) < min
  }

  /** The checks before the insert, in order; None when every one passes. */
  function Check(users: seq<UserDoc>, places: seq<PlaceModel.PlaceDoc>, b: SignupBody): Option<HttpError> {
    if !Truthy(b.name) || !Truthy(b.email) || !Truthy(b.password) || !Truthy(b.userType) then Some(RequiredMissing)
    else if !SelfServiceType(b.userType.value) then Some(InvalidUserType)
    else if JsLength(b.password.value) < PasswordMin then Some(ShortPassword)
    else if ServiceType(b.userType.value) && !Truthy(b.place) then Some(PlaceRequired)
    else if ServiceType(b.userType.value) && !Truthy(b.phone) then Some(PhoneRequired)
    else if b.userType.value == "veteran" && TooShort(b.description, 10) then Some(ShortDescription)
    else if IsBusinessType(b.userType.value) && TooShort(b.businessName, 2) then Some(ShortBusinessName)
    else if IsBusinessType(b.userType.value) && TooShort(b.businessDescription, 10) then Some(ShortBusinessDescription)
    else if IsBusinessType(b.userType.value) && TooShort(b.businessAddress, 5) then Some(ShortBusinessAddress)
    else if IsBusinessType(b.userType.value) && TooShort(b.businessPhone, 10) then Some(ShortBusinessPhone)
    else if IsBusinessType(b.userType.value) && TooShort(b.businessHours, 5) then Some(NoBusinessHours)
    else if Truthy(b.place) && (PlaceModel.FindById(places, b.place.value).None? || !PlaceModel.FindById(places, b.place.value).value.isActive)
    then Some(BadPlace)
    else if FindByEmail(users, EmailQuery(b.email.value)).Some? then Some(EmailTaken)
    else None
  }

  /** The types that offer a service and must name a place and a phone. */
  predicate ServiceType(t: string) {
    t == "veteran" || t == "local_shop" || t == "restaurant"
  }

  predicate IsBusinessType(t: string) {
    t == "local_shop" || t == "restaurant"
  }

  /** A field is copied only when it is truthy. */
  function IfTruthy(o: Option<string>): Option<string> {
    if Truthy(o) then o else None
  }

  /** `userData`: the four required keys (with the hash for the password) and each truthy optional field. */
  function UserData(b: SignupBody, hashed: string): UserFields
    requires b.name.Some? && b.email.Some? && b.userType.Some?
  {
    UserFields(b.name, b.email, Some(hashed), b.userType, IfTruthy(b.place), IfTruthy(b.phone),
               IfTruthy(b.businessName), IfTruthy(b.businessDescription), IfTruthy(b.businessAddress),
               IfTruthy(b.businessPhone), IfTruthy(b.businessHours), IfTruthy(b.description),
               IfTruthy(b.profilePicture), None)
  }

  /** Whether a stored user already has the address (the unique index on email). */
  predicate EmailInUse(users: seq<UserDoc>, email: string) {
    FindByEmail(users, email).Some?
  }

  /**
   * The route as a whole.  A schema failure or a violation of the unique
   * email index surfaces as 500.  `hashed` is what the hash function made of
   * the password; `id` and `now` are the new document's id and time.  The
   * answer comes with the users after `User.create`.
   */
  function Signup(users: seq<UserDoc>, places: seq<PlaceModel.PlaceDoc>, b: SignupBody, hashed: string, id: Id, now: int)
    : (Result<Created, HttpError>, seq<UserDoc>)
  {
    var check := Check(users, places, b);
    if check.Some? then (Err(check.value), users)
    else
      match Construct(UserData(b, hashed), id, now)
      case Err(_) => (Err(InternalError), users)
      case Ok(u) =>
        if EmailInUse(users, u.email) then (Err(InternalError), users)
        else (Ok(Created(u, Claims(u.id, RoleName(u.userType)), SessionMaxAge)), users + [u])
  }

  /** Whatever registers is a valid user of one of the four types, with the hash, a fresh address and a week-long token naming them, stored after the users there were. */
  lemma SignupCreatesValidUser(users: seq<UserDoc>, places: seq<PlaceModel.PlaceDoc>, b: SignupBody, hashed: string, id: Id, now: int)
    requires Signup(users, places, b, hashed, id, now).0.Ok?
    ensures var c := Signup(users, places, b, hashed, id, now).0.value;
      && ValidUser(c.user)
      && c.user.id == id && c.user.password == hashed && c.user.isActive
      && c.user.email == Lower(Trim(b.email.value))
      && c.user.userType in {Newbie, Veteran, LocalShop, Restaurant}
      && !EmailInUse(users, c.user.email)
      && c.claims == Claims(id, RoleName(c.user.userType))
      && c.maxAge == 604800
      && Signup(users, places, b, hashed, id, now).1 == users + [c.user]
  {
    ConstructValid(UserData(b, hashed), id, now);
  }

  /** A refused sign-up stores nothing: the users are as they were. */
  lemma SignupRefusedStoresNothing(users: seq<UserDoc>, places: seq<PlaceModel.PlaceDoc>, b: SignupBody, hashed: string, id: Id, now: int)
    requires Signup(users, places, b, hashed, id, now).0.Err?
    ensures Signup(users, places, b, hashed, id, now).1 == users
  {
  }

  /** Admin accounts cannot be self-registered: "admin" and "local_admin" get 400 "Invalid user type". */
  lemma AdminTypesRejected(users: seq<UserDoc>, places: seq<PlaceModel.PlaceDoc>, b: SignupBody, hashed: string, id: Id, now: int)
    requires Truthy(b.name) && Truthy(b.email) && Truthy(b.password)
    requires b.userType == Some("admin") || b.userType == Some("local_admin")
    ensures Signup(users, places, b, hashed, id, now).0 == Err(InvalidUserType)
  {
  }

  /**
   * The route never checks the name's length but the schema does: a body that
   * passes every check of the route with a name shorter than two characters
   * after trimming fails at the insert with 500.
   */
  lemma ShortNameIsServerError(users: seq<UserDoc>, places: seq<PlaceModel.PlaceDoc>, b: SignupBody, hashed: string, id: Id, now: int)
    requires Check(users, places, b).None?
    requires JsLength(Trim(b.name.value)) < NameMin
    ensures Signup(users, places, b, hashed, id, now).0 == Err(InternalError)
  {
    assert "name" in IdentityErrors(Normalize(UserData(b, hashed)));
  }

  /**
   * The duplicate check looks the address up through the same setters the
   * schema stores it with, so once every check passed the unique index on
   * email cannot refuse the insert: only the schema's validators can.
   */
  lemma UniqueIndexNeverFires(users: seq<UserDoc>, places: seq<PlaceModel.PlaceDoc>, b: SignupBody, hashed: string, id: Id, now: int)
    requires Check(users, places, b).None?
    requires Construct(UserData(b, hashed), id, now).Ok?
    ensures Signup(users, places, b, hashed, id, now).0.Ok?
  {
    assert Construct(UserData(b, hashed), id, now).value.email == EmailQuery(b.email.value);
  }

  /** An address differing from a stored one only in case or surrounding blanks never gets past the checks. */
  lemma CaseVariantEmailRefused(users: seq<UserDoc>, places: seq<PlaceModel.PlaceDoc>, b: SignupBody, v: UserDoc)
    requires Truthy(b.email) && v in users && v.email == Lower(Trim(b.email.value))
    ensures Check(users, places, b).Some?
  {
  }

  /** Every check the route makes for the role, as the route states it. */
  lemma CheckPassed(users: seq<UserDoc>, places: seq<PlaceModel.PlaceDoc>, b: SignupBody)
    requires Check(users, places, b).None?
    ensures Truthy(b.name) && Truthy(b.email) && Truthy(b.password) && Truthy(b.userType)
    ensures SelfServiceType(b.userType.value) && JsLength(b.password.value) >= 6
    ensures b.userType.value in {"veteran", "local_shop", "restaurant"} ==> Truthy(b.place) && Truthy(b.phone)
    ensures b.userType.value == "veteran" ==> Truthy(b.description) && JsLength(b.description.value) >= 10
    ensures IsBusinessType(b.userType.value) ==>
      && JsLength(b.businessName.value) >= 2 && JsLength(b.businessDescription.value) >= 10 && JsLength(b.businessAddress.value) >= 5
      && JsLength(b.businessPhone.value) >= 10 && JsLength(b.businessHours.value) >= 5
    ensures Truthy(b.place) ==> PlaceModel.FindById(places, b.place.value).Some? && PlaceModel.FindById(places, b.place.value).value.isActive
    ensures FindByEmail(users, EmailQuery(b.email.value)).None?
  {
  }

  /** An empty optional field is not copied: a newbie's "" phone is stored as no phone. */
  lemma EmptyFieldsNotCopied(b: SignupBody, hashed: string)
    requires b.name.Some? && b.email.Some? && b.userType.Some?
    ensures var f := UserData(b, hashed);
      && (b.phone == Some("") ==> f.phone.None?)
      && (b.description == Some("") ==> f.description.None?)
      && (b.profilePicture == Some("") ==> f.profilePicture.None?)
      && (Truthy(b.businessName) ==> f.businessName == b.businessName)
  {
  }
}
