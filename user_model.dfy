/**
 * The User document and its schema: six user types, the role-conditional
 * required paths, the minimum lengths, the email pattern, the trim and
 * lowercase setters and the defaults.
 */
module UserModel {
  import opened Wrappers
  import opened Http
  import opened Text

  datatype Role = Newbie | Veteran | LocalAdmin | Admin | LocalShop | Restaurant

  function RoleName(r: Role): string {
    match r
    case Newbie => "newbie"
    case Veteran => "veteran"
    case LocalAdmin => "local_admin"
    case Admin => "admin"
    case LocalShop => "local_shop"
    case Restaurant => "restaurant"
  }

  function ParseRole(s: string): (r: Option<Role>)
    ensures r.Some? ==> RoleName(r.value) == s
    ensures r.None? ==> forall t :: RoleName(t) != s
  {
    if s == "newbie" then Some(Newbie)
    else if s == "veteran" then Some(Veteran)
    else if s == "local_admin" then Some(LocalAdmin)
    else if s == "admin" then Some(Admin)
    else if s == "local_shop" then Some(LocalShop)
    else if s == "restaurant" then Some(Restaurant)
    else None
  }

  /** Parsing a role's name gives the role back. */
  lemma ParseRoleName(r: Role)
    ensures ParseRole(RoleName(r)) == Some(r)
  {
  }

  /** Roles that must name a place: veteran, local_admin, local_shop, restaurant. */
  predicate NeedsPlace(r: Role) {
    r == Veteran || r == LocalAdmin || r == LocalShop || r == Restaurant
  }

  /** Roles that offer a service and must give a phone: veteran, local_shop, restaurant. */
  predicate NeedsPhone(r: Role) {
    r == Veteran || r == LocalShop || r == Restaurant
  }

  /** The two business roles: local_shop and restaurant. */
  predicate IsBusiness(r: Role) {
    r == LocalShop || r == Restaurant
  }

  /** The address pattern `^\w+([.-]?\w+)*@\w+([.-]?\w+)*(\.\w{2,3})+$`. */
  predicate IsSep(c: char) {
    c == '.' || c == '-'
  }

  /** `\w+([.-]?\w+)*`: word characters, with single `.` or `-` between two of them. */
  predicate Dotted(s: string)
    decreases |s|
  {
    && |s| > 0 && IsWordChar(s[0])
    && (|s| == 1 || Dotted(s[1..]) || (IsSep(s[1]) && Dotted(s[2..])))
  }

  /** `(\.\w{2,3})+`. */
  predicate Tlds(s: string)
    decreases |s|
  {
    && |s| >= 3 && s[0] == '.' && IsWordChar(s[1]) && IsWordChar(s[2])
    && (|s| == 3 || Tlds(s[3..])
        || (IsWordChar(s[3]) && (|s| == 4 || Tlds(s[4..]))))
  }

  /** `\w+([.-]?\w+)*(\.\w{2,3})+` on the part after `@`, trying each split point from `j` on. */
  predicate DomainFrom(s: string, j: nat)
    decreases |s| - j
  {
    j < |s| && ((0 < j && Dotted(s[..j]) && Tlds(s[j..])) || DomainFrom(s, j + 1))
  }

  predicate DomainOk(s: string) {
    DomainFrom(s, 1)
  }

  /** The position of the first `c` in `s`, if any. */
  function IndexOf(s: string, c: char): (r: Option<nat>)
    ensures r.Some? ==> r.value < |s| && s[r.value] == c && forall k :: 0 <= k < r.value ==> s[k] != c
    ensures r.None? ==> forall k :: 0 <= k < |s| ==> s[k] != c
  {
    if s == [] then None
    else if s[0] == c then Some(0)
    else
      var rest := IndexOf(s[1..], c);
      if rest.Some? then Some(rest.value + 1) else None
  }

  /**
   * The whole address pattern.  Neither side of the `@` may contain an `@`,
   * so the separating `@` is the first one.
   */
  predicate EmailPattern(s: string) {
    var at := IndexOf(s, '@');
    at.Some? && Dotted(s[..at.value]) && DomainOk(s[at.value + 1..])
  }

  /** Minimum lengths of the two business-and-profile groups of paths. */
  const NameMin := 2
  const PasswordMin := 6
  const BusinessNameMin := 2
  const BusinessDescriptionMin := 10
  const BusinessAddressMin := 5
  const BusinessPhoneMin := 10
  const BusinessHoursMin := 5
  const DescriptionMin := 10

  const DefaultProfilePicture := "https://res.cloudinary.com/deshidirective/image/upload/v1/defaults/default-profile"

  /** The stored user. */
  datatype UserDoc = UserDoc(
    id: Id,
    name: string,
    email: string,
    password: string,
    userType: Role,
    place: Option<Id>,
    phone: Option<string>,
    businessName: Option<string>,
    businessDescription: Option<string>,
    businessAddress: Option<string>,
    businessPhone: Option<string>,
    businessHours: Option<string>,
    description: Option<string>,
    profilePicture: string,
    isActive: bool,
    createdAt: int)

  /** A document as handed to `new User(...)` or `User.create`: every path may be missing. */
  datatype UserFields = UserFields(
    name: Option<string>,
    email: Option<string>,
    password: Option<string>,
    userType: Option<string>,
    place: Option<Id>,
    phone: Option<string>,
    businessName: Option<string>,
    businessDescription: Option<string>,
    businessAddress: Option<string>,
    businessPhone: Option<string>,
    businessHours: Option<string>,
    description: Option<string>,
    profilePicture: Option<string>,
    isActive: Option<bool>)

  function TrimOpt(o: Option<string>): Option<string> {
    if o.Some? then Some(Trim(o.value)) else None
  }

  /** The setters: name, phone, the business paths and description are trimmed; email is trimmed and lowercased. */
  function Normalize(f: UserFields): UserFields {
    f.(name := TrimOpt(f.name),
       email := if f.email.Some? then Some(Lower(Trim(f.email.value))) else None,
       phone := TrimOpt(f.phone),
       businessName := TrimOpt(f.businessName),
       businessDescription := TrimOpt(f.businessDescription),
       businessAddress := TrimOpt(f.businessAddress),
       businessPhone := TrimOpt(f.businessPhone),
       businessHours := TrimOpt(f.businessHours),
       description := TrimOpt(f.description))
  }

  /** The user type the document will have: the default "newbie" when the path is missing. */
  function EffectiveRole(f: UserFields): Option<Role> {
    if f.userType.None? then Some(Newbie) else ParseRole(f.userType.value)
  }


  /** A path with a `minLength`: required for some roles, and length-checked whenever present. */
  function LengthPath(path: string, v: Option<string>, required: bool, min: nat): set<string> {
    if (required && !Truthy(v)) || (v.Some? && JsLength(v.value) < min) then {path} else {}
  }

  /** name, email, password (required, with their minimum lengths and pattern) and the user type enum. */
  function IdentityErrors(f: UserFields): set<string> {
    (if !Truthy(f.name) || JsLength(f.name.value) < NameMin then {"name"} else {})
    + (if !Truthy(f.email) || !EmailPattern(f.email.value) then {"email"} else {})
    + (if !Truthy(f.password) || JsLength(f.password.value) < PasswordMin then {"password"} else {})
    + (if EffectiveRole(f).None? then {"userType"} else {})
  }

  /**
   * place and phone, required only for some roles.  An empty place is not an
   * ObjectId whatever the role: its cast fails, and saving fails with it.
   */
  function ContactErrors(f: UserFields): set<string> {
    var role := EffectiveRole(f);
    (if f.place == Some("") || (role.Some? && NeedsPlace(role.value) && !Truthy(f.place)) then {"place"} else {})
    + (if role.Some? && NeedsPhone(role.value) && !Truthy(f.phone) then {"phone"} else {})
  }

  /** The five business paths, required for the business roles. */
  function BusinessErrors(f: UserFields): set<string> {
    var role := EffectiveRole(f);
    var business := role.Some? && IsBusiness(role.value);
    LengthPath("businessName", f.businessName, business, BusinessNameMin)
    + LengthPath("businessDescription", f.businessDescription, business, BusinessDescriptionMin)
    + LengthPath("businessAddress", f.businessAddress, business, BusinessAddressMin)
    + LengthPath("businessPhone", f.businessPhone, business, BusinessPhoneMin)
    + LengthPath("businessHours", f.businessHours, business, BusinessHoursMin)
  }

  /** The guide's description, required for veterans. */
  function DescriptionErrors(f: UserFields): set<string> {
    LengthPath("description", f.description, EffectiveRole(f) == Some(Veteran), DescriptionMin)
  }

  /** The paths whose validators fail on an already normalized document. */
  function Errors(f: UserFields): set<string> {
    IdentityErrors(f) + ContactErrors(f) + BusinessErrors(f) + DescriptionErrors(f)
  }

  /**
   * Saving a new user: setters, then validators, then defaults (user type
   * "newbie", the default picture, active, created now).  Refused with the
   * set of failing paths.
   */
  function Construct(input: UserFields, id: Id, now: int): Result<UserDoc, set<string>> {
    var f := Normalize(input);
    if Errors(f) != {} then Err(Errors(f))
    else Ok(UserDoc(id, f.name.value, f.email.value, f.password.value, EffectiveRole(f).value,
                    f.place, f.phone, f.businessName, f.businessDescription,
                    f.businessAddress, f.businessPhone, f.businessHours, f.description,
                    f.profilePicture.GetOr(DefaultProfilePicture), f.isActive.GetOr(true), now))
  }

  /** No white space at either end: what `trim` leaves. */
  predicate Clean(s: string) {
    s == [] || (!IsSpace(s[0]) && !IsSpace(s[|s| - 1]))
  }

  /** No upper-case ASCII letter: what `toLowerCase` leaves. */
  predicate NoUpper(s: string) {
    forall i :: 0 <= i < |s| ==> !('A' <= s[i] <= 'Z')
  }

  predicate CleanOpt(o: Option<string>) {
    o.None? || Clean(o.value)
  }

  predicate LengthOk(v: Option<string>, required: bool, min: nat) {
    (required ==> Truthy(v)) && (v.Some? ==> JsLength(v.value) >= min)
  }

  predicate ValidIdentity(u: UserDoc) {
    && JsLength(u.name) >= NameMin && Clean(u.name)
    && EmailPattern(u.email) && Clean(u.email) && NoUpper(u.email)
    && JsLength(u.password) >= PasswordMin
  }

  predicate ValidContact(u: UserDoc) {
    && (NeedsPlace(u.userType) ==> u.place.Some?) && (u.place.Some? ==> u.place.value != "")
    && (NeedsPhone(u.userType) ==> Truthy(u.phone)) && CleanOpt(u.phone)
  }

  predicate ValidBusiness(u: UserDoc) {
    var b := IsBusiness(u.userType);
    && LengthOk(u.businessName, b, BusinessNameMin) && CleanOpt(u.businessName)
    && LengthOk(u.businessDescription, b, BusinessDescriptionMin) && CleanOpt(u.businessDescription)
    && LengthOk(u.businessAddress, b, BusinessAddressMin) && CleanOpt(u.businessAddress)
    && LengthOk(u.businessPhone, b, BusinessPhoneMin) && CleanOpt(u.businessPhone)
    && LengthOk(u.businessHours, b, BusinessHoursMin) && CleanOpt(u.businessHours)
  }

  predicate ValidDescription(u: UserDoc) {
    LengthOk(u.description, u.userType == Veteran, DescriptionMin) && CleanOpt(u.description)
  }

  /** The invariant every stored user satisfies. */
  predicate ValidUser(u: UserDoc) {
    ValidIdentity(u) && ValidContact(u) && ValidBusiness(u) && ValidDescription(u)
  }

  /** The fields a stored user would be saved from again. */
  function FieldsOf(u: UserDoc): UserFields {
    UserFields(Some(u.name), Some(u.email), Some(u.password), Some(RoleName(u.userType)), u.place,
               u.phone, u.businessName, u.businessDescription, u.businessAddress, u.businessPhone,
               u.businessHours, u.description, Some(u.profilePicture), Some(u.isActive))
  }

  lemma LowerNoUpper(s: string)
    ensures NoUpper(Lower(s))
  {
  }

  lemma LowerOfNoUpper(s: string)
    requires NoUpper(s)
    ensures Lower(s) == s
  {
  }

  /** Lowercasing keeps a string without white space at its ends. */
  lemma LowerClean(s: string)
    requires Clean(s)
    ensures Clean(Lower(s))
  {
  }

  lemma TrimClean(s: string)
    ensures Clean(Trim(s))
  {
  }

  lemma TrimOfClean(s: string)
    requires Clean(s)
    ensures Trim(s) == s
  {
    TrimFixedPoint(s);
  }

  lemma TrimOptClean(o: Option<string>)
    ensures CleanOpt(TrimOpt(o))
  {
  }

  lemma TrimOptOfClean(o: Option<string>)
    requires CleanOpt(o)
    ensures TrimOpt(o) == o
  {
    if o.Some? {
      TrimOfClean(o.value);
    }
  }

  /** Whatever is saved satisfies the stored-user invariant and gets the id it was given. */
  lemma ConstructValid(input: UserFields, id: Id, now: int)
    requires Construct(input, id, now).Ok?
    ensures ValidUser(Construct(input, id, now).value)
    ensures Construct(input, id, now).value.id == id
    ensures Construct(input, id, now).value.createdAt == now
  {
    var f := Normalize(input);
    var u := Construct(input, id, now).value;
    assert IdentityErrors(f) == {} && ContactErrors(f) == {};
    assert BusinessErrors(f) == {} && DescriptionErrors(f) == {};
    TrimClean(input.name.value);
    TrimClean(input.email.value);
    LowerClean(Trim(input.email.value));
    LowerNoUpper(Trim(input.email.value));
    assert ValidIdentity(u);
    TrimOptClean(input.phone);
    assert ValidContact(u);
    TrimOptClean(input.businessName);
    TrimOptClean(input.businessDescription);
    TrimOptClean(input.businessAddress);
    TrimOptClean(input.businessPhone);
    TrimOptClean(input.businessHours);
    assert ValidBusiness(u);
    TrimOptClean(input.description);
  }

  /** The setters leave a valid stored user's fields as they are. */
  lemma NormalizeStored(u: UserDoc)
    requires ValidUser(u)
    ensures Normalize(FieldsOf(u)) == FieldsOf(u)
  {
    TrimOfClean(u.name);
    TrimOfClean(u.email);
    LowerOfNoUpper(u.email);
    TrimOptOfClean(u.phone);
    TrimOptOfClean(u.businessName);
    TrimOptOfClean(u.businessDescription);
    TrimOptOfClean(u.businessAddress);
    TrimOptOfClean(u.businessPhone);
    TrimOptOfClean(u.businessHours);
    TrimOptOfClean(u.description);
  }

  /** No validator fails on a valid stored user's fields. */
  lemma StoredPassesValidators(u: UserDoc)
    requires ValidUser(u)
    ensures Errors(FieldsOf(u)) == {}
  {
    var f := FieldsOf(u);
    ParseRoleName(u.userType);
    assert EffectiveRole(f) == Some(u.userType);
    assert IdentityErrors(f) == {};
    assert ContactErrors(f) == {};
    assert BusinessErrors(f) == {};
    assert DescriptionErrors(f) == {};
  }

  /** Saving a valid stored user again gives back the same user: the setters and validators are stable. */
  lemma ResaveRoundTrip(u: UserDoc)
    requires ValidUser(u)
    ensures Construct(FieldsOf(u), u.id, u.createdAt) == Ok(u)
  {
    NormalizeStored(u);
    StoredPassesValidators(u);
    ParseRoleName(u.userType);
    assert EffectiveRole(FieldsOf(u)) == Some(u.userType);
  }

  /** The role-conditional paths: place for four roles, phone for three, the business paths for two, description for one. */
  lemma RoleConditionalRequirements(u: UserDoc)
    requires ValidUser(u)
    ensures u.userType in {Veteran, LocalAdmin, LocalShop, Restaurant} ==> u.place.Some?
    ensures u.userType in {Veteran, LocalShop, Restaurant} ==> u.phone.Some? && u.phone.value != ""
    ensures u.userType in {LocalShop, Restaurant} ==>
      && u.businessName.Some? && JsLength(u.businessName.value) >= 2
      && u.businessDescription.Some? && JsLength(u.businessDescription.value) >= 10
      && u.businessAddress.Some? && JsLength(u.businessAddress.value) >= 5
      && u.businessPhone.Some? && JsLength(u.businessPhone.value) >= 10
      && u.businessHours.Some? && JsLength(u.businessHours.value) >= 5
    ensures u.userType == Veteran ==> u.description.Some? && JsLength(u.description.value) >= 10
  {
  }

  /**
   * A document with an empty place is refused whatever its role, and an
   * empty business path or description fails its minimum length even
   * where the role does not require it.
   */
  lemma EmptyPathsRefused(input: UserFields, id: Id, now: int)
    requires input.place == Some("")
    ensures Construct(input, id, now).Err?
    ensures var errors := Construct(input, id, now).error;
      && "place" in errors
      && (input.businessName == Some("") ==> "businessName" in errors)
      && (input.businessDescription == Some("") ==> "businessDescription" in errors)
      && (input.businessAddress == Some("") ==> "businessAddress" in errors)
      && (input.businessPhone == Some("") ==> "businessPhone" in errors)
      && (input.businessHours == Some("") ==> "businessHours" in errors)
      && (input.description == Some("") ==> "description" in errors)
  {
    var f := Normalize(input);
    assert "place" in ContactErrors(f);
    assert Construct(input, id, now) == Err(Errors(f));
    assert input.businessName == Some("") ==> "businessName" in BusinessErrors(f);
    assert input.businessDescription == Some("") ==> "businessDescription" in BusinessErrors(f);
    assert input.businessAddress == Some("") ==> "businessAddress" in BusinessErrors(f);
    assert input.businessPhone == Some("") ==> "businessPhone" in BusinessErrors(f);
    assert input.businessHours == Some("") ==> "businessHours" in BusinessErrors(f);
    assert input.description == Some("") ==> "description" in DescriptionErrors(f);
  }

  /** A newbie needs nothing but a name, an address and a password: with no other path, it is saved with the defaults. */
  lemma NewbieConstruct(name: string, email: string, password: string, isActive: bool, id: Id, now: int)
    requires Clean(name) && JsLength(name) >= NameMin
    requires Clean(email) && NoUpper(email) && EmailPattern(email)
    requires JsLength(password) >= PasswordMin
    ensures Construct(UserFields(Some(name), Some(email), Some(password), Some("newbie"), None, None,
                                 None, None, None, None, None, None, None, Some(isActive)), id, now)
      == Ok(UserDoc(id, name, email, password, Newbie, None, None, None, None, None, None, None, None,
                    DefaultProfilePicture, isActive, now))
  {
    var input := UserFields(Some(name), Some(email), Some(password), Some("newbie"), None, None,
                            None, None, None, None, None, None, None, Some(isActive));
    TrimOfClean(name);
    TrimOfClean(email);
    LowerOfNoUpper(email);
    assert Normalize(input) == input;
    assert IdentityErrors(input) == {};
    assert ContactErrors(input) == {} && BusinessErrors(input) == {} && DescriptionErrors(input) == {};
  }

  /** A name is stored trimmed: "  a  " is refused although it has five characters. */
  lemma ShortTrimmedNameRefused()
    ensures "name" in Errors(Normalize(UserFields(Some("  a  "), None, None, None, None, None, None,
                                                 None, None, None, None, None, None, None)))
  {
    assert TrimStart("a  ") == "a  ";
    assert TrimStart(" a  ") == TrimStart("a  ");
    assert TrimStart("  a  ") == TrimStart(" a  ");
    assert TrimEnd("a") == "a";
    assert TrimEnd("a ") == TrimEnd("a");
    assert TrimEnd("a  ") == TrimEnd("a ");
  }

  /** `User.findById`: the stored user with that id, if any. */
  function FindById(users: seq<UserDoc>, id: Id): (r: Option<UserDoc>)
    ensures r.Some? ==> r.value in users && r.value.id == id
    ensures r.None? ==> forall u :: u in users ==> u.id != id
  {
    if users == [] then None
    else if users[0].id == id then Some(users[0])
    else FindById(users[1..], id)
  }

  /**
   * The value a query on the email path looks for: Mongoose casts a query
   * filter through the path's setters, so `findOne({ email })` trims and
   * lowercases the address first, as saving does.
   */
  function EmailQuery(email: string): string {
    Lower(Trim(email))
  }

  /** The first stored user whose address is exactly `email`; `findOne({ email: e })` is `FindByEmail(users, EmailQuery(e))`. */
  function FindByEmail(users: seq<UserDoc>, email: string): (r: Option<UserDoc>)
    ensures r.Some? ==> r.value in users && r.value.email == email
    ensures r.None? ==> forall u :: u in users ==> u.email != email
  {
    if users == [] then None
    else if users[0].email == email then Some(users[0])
    else FindByEmail(users[1..], email)
  }

  /** Whether `id` names a stored user of the given type. */
  predicate HasRole(users: seq<UserDoc>, id: Id, r: Role) {
    FindById(users, id).Some? && FindById(users, id).value.userType == r
  }
}
