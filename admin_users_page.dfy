/**
 * The admin "User Management" page's add/edit dialog: the role-dependent
 * list of required fields, the submit handler that stops at the first empty
 * one, the payload that leaves out an untouched password when editing, and
 * the user-type labels of the table.
 */
module AdminUsersPage {
  import opened Wrappers
  import opened Http
  import UserModel
  import Text
  import AdminUsersRoute

  /** The keys of `formData`, in the order the form declares them. */
  datatype Key =
    | NameKey | EmailKey | PasswordKey | UserTypeKey | PlaceKey | PhoneKey
    | BusinessNameKey | BusinessDescriptionKey | BusinessAddressKey
    | BusinessPhoneKey | BusinessHoursKey | DescriptionKey | IsActiveKey

  const AllKeys: set<Key> := {
    NameKey, EmailKey, PasswordKey, UserTypeKey, PlaceKey, PhoneKey,
    BusinessNameKey, BusinessDescriptionKey, BusinessAddressKey,
    BusinessPhoneKey, BusinessHoursKey, DescriptionKey, IsActiveKey }

  /** The dialog's inputs; `userType` is whatever the select (or a loaded user) holds. */
  datatype FormData = FormData(
    name: string,
    email: string,
    password: string,
    userType: string,
    place: string,
    phone: string,
    businessName: string,
    businessDescription: string,
    businessAddress: string,
    businessPhone: string,
    businessHours: string,
    description: string,
    isActive: bool)

  /** The initial form, and the one `resetForm` restores. */
  const EmptyForm := FormData("", "", "", "newbie", "", "", "", "", "", "", "", "", true)

  /** A JSON value of the payload. */
  datatype Value = Str(s: string) | Flag(b: bool)

  function ValueOf(d: FormData, k: Key): Value {
    match k
    case NameKey => Str(d.name)
    case EmailKey => Str(d.email)
    case PasswordKey => Str(d.password)
    case UserTypeKey => Str(d.userType)
    case PlaceKey => Str(d.place)
    case PhoneKey => Str(d.phone)
    case BusinessNameKey => Str(d.businessName)
    case BusinessDescriptionKey => Str(d.businessDescription)
    case BusinessAddressKey => Str(d.businessAddress)
    case BusinessPhoneKey => Str(d.businessPhone)
    case BusinessHoursKey => Str(d.businessHours)
    case DescriptionKey => Str(d.description)
    case IsActiveKey => Flag(d.isActive)
  }

  /** `!formData[field]`: the empty string (or `false`). */
  predicate Blank(d: FormData, k: Key) {
    ValueOf(d, k) == Str("") || ValueOf(d, k) == Flag(false)
  }

  predicate PlaceType(t: string) {
    t == "veteran" || t == "local_admin" || t == "local_shop" || t == "restaurant"
  }

  predicate PhoneType(t: string) {
    t == "veteran" || t == "local_shop" || t == "restaurant"
  }

  predicate ShopType(t: string) {
    t == "local_shop" || t == "restaurant"
  }

  /** Which fields the dialog demands for a user type, when creating (`!editing`) or editing. */
  predicate Required(k: Key, t: string, editing: bool) {
    match k
    case NameKey => true
    case EmailKey => true
    case PasswordKey => !editing
    case PlaceKey => PlaceType(t)
    case PhoneKey => PhoneType(t)
    case BusinessNameKey => ShopType(t)
    case BusinessDescriptionKey => ShopType(t)
    case BusinessAddressKey => ShopType(t)
    case BusinessPhoneKey => ShopType(t)
    case BusinessHoursKey => ShopType(t)
    case DescriptionKey => t == "veteran"
    case UserTypeKey => false
    case IsActiveKey => false
  }

  /** A key's position in the declaration order. */
  function Rank(k: Key): nat {
    match k
    case NameKey => 0
    case EmailKey => 1
    case PasswordKey => 2
    case UserTypeKey => 3
    case PlaceKey => 4
    case PhoneKey => 5
    case BusinessNameKey => 6
    case BusinessDescriptionKey => 7
    case BusinessAddressKey => 8
    case BusinessPhoneKey => 9
    case BusinessHoursKey => 10
    case DescriptionKey => 11
    case IsActiveKey => 12
  }

  predicate InOrder(fields: seq<Key>) {
    forall i, j :: 0 <= i < j < |fields| ==> Rank(fields[i]) < Rank(fields[j])
  }

  /**
   * `getRequiredFields`: name and email, the password when creating, then
   * place, phone, the five business fields and the description as the type
   * demands.  The list holds exactly the required keys, each once, in form order.
   */
  method RequiredFields(userType: string, editing: bool) returns (fields: seq<Key>)
    ensures forall k :: k in fields <==> Required(k, userType, editing)
    ensures InOrder(fields)
  {
    fields := [NameKey, EmailKey];
    if !editing {
      fields := fields + [PasswordKey];
    }
    if PlaceType(userType) {
      fields := fields + [PlaceKey];
    }
    if PhoneType(userType) {
      fields := fields + [PhoneKey];
    }
    if ShopType(userType) {
      fields := fields + [BusinessNameKey, BusinessDescriptionKey, BusinessAddressKey,
                          BusinessPhoneKey, BusinessHoursKey];
    }
    if userType == "veteran" {
      fields := fields + [DescriptionKey];
    }
  }

  /**
   * The `for ... of` loop of `handleSubmit`: the index of the first blank
   * field of the list, or `|fields|` when none is blank.
   */
  method FirstBlank(d: FormData, fields: seq<Key>) returns (i: nat)
    ensures i <= |fields|
    ensures forall j :: 0 <= j < i ==> !Blank(d, fields[j])
    ensures i < |fields| ==> Blank(d, fields[i])
  {
    i := 0;
    while i < |fields|
      invariant i <= |fields|
      invariant forall j :: 0 <= j < i ==> !Blank(d, fields[j])
    {
      if Blank(d, fields[i]) {
        return;
      }
      i := i + 1;
    }
  }

  /** In an ordered list of exactly the required keys, every required key ranked before position `i` sits before it. */
  lemma EarlierRequiredListed(fields: seq<Key>, t: string, editing: bool, i: nat, k: Key)
    requires forall k' :: k' in fields <==> Required(k', t, editing)
    requires InOrder(fields)
    requires i < |fields|
    requires Required(k, t, editing) && Rank(k) < Rank(fields[i])
    ensures k in fields[..i]
  {
    var j :| 0 <= j < |fields| && fields[j] == k;
    assert j < i;
    assert fields[..i][j] == k;
  }

  /** ASCII `toUpperCase` of one character (the keys are ASCII). */
  function UpperChar(c: char): (r: char)
    ensures 'a' <= c <= 'z' ==> 'A' <= r <= 'Z'
    ensures !('a' <= c <= 'z') ==> r == c
  {
    if 'a' <= c <= 'z' then (c as int - 'a' as int + 'A' as int) as char else c
  }

  predicate IsCapital(c: char) {
    'A' <= c <= 'Z'
  }

  /** `.replace(/([A-Z])/g, " $1")`: a space before every capital letter. */
  function SpaceCapitals(s: string): (r: string)
    ensures |r| >= |s|
  {
    if s == [] then []
    else (if IsCapital(s[0]) then [' ', s[0]] else [s[0]]) + SpaceCapitals(s[1..])
  }

  /** `field.charAt(0).toUpperCase() + field.slice(1).replace(...)`. */
  function Label(field: string): string {
    if field == [] then [] else [UpperChar(field[0])] + SpaceCapitals(field[1..])
  }

  /** Removing the inserted spaces and lower-casing the first letter gives the key back. */
  function Unlabel(text: string): string {
    if text == [] then [] else [LowerAscii(text[0])] + DropSpaces(text[1..])
  }

  function LowerAscii(c: char): char {
    if 'A' <= c <= 'Z' then (c as int - 'A' as int + 'a' as int) as char else c
  }

  function DropSpaces(s: string): string {
    if s == [] then [] else (if s[0] == ' ' then [] else [s[0]]) + DropSpaces(s[1..])
  }

  predicate NoSpace(s: string) {
    forall i :: 0 <= i < |s| ==> s[i] != ' '
  }

  lemma {:induction false} DropSpacesOfSpaced(s: string)
    requires NoSpace(s)
    ensures DropSpaces(SpaceCapitals(s)) == s
  {
    if s != [] {
      DropSpacesOfSpaced(s[1..]);
      if IsCapital(s[0]) {
        assert SpaceCapitals(s) == [' ', s[0]] + SpaceCapitals(s[1..]);
        assert DropSpaces(SpaceCapitals(s)) == [s[0]] + DropSpaces(SpaceCapitals(s[1..])) by {
          assert SpaceCapitals(s)[1..] == [s[0]] + SpaceCapitals(s[1..]);
        }
      } else {
        assert SpaceCapitals(s) == [s[0]] + SpaceCapitals(s[1..]);
        assert (SpaceCapitals(s))[1..] == SpaceCapitals(s[1..]);
      }
    }
  }

  /** For a camel-case key without spaces that starts in lower case, the label determines the key. */
  lemma LabelRoundTrip(field: string)
    requires NoSpace(field)
    requires field != [] ==> 'a' <= field[0] <= 'z'
    ensures Unlabel(Label(field)) == field
  {
    if field != [] {
      DropSpacesOfSpaced(field[1..]);
      assert Label(field)[1..] == SpaceCapitals(field[1..]);
    }
  }

  /** The key as it appears in `formData`. */
  function KeyName(k: Key): string {
    match k
    case NameKey => "name"
    case EmailKey => "email"
    case PasswordKey => "password"
    case UserTypeKey => "userType"
    case PlaceKey => "place"
    case PhoneKey => "phone"
    case BusinessNameKey => "businessName"
    case BusinessDescriptionKey => "businessDescription"
    case BusinessAddressKey => "businessAddress"
    case BusinessPhoneKey => "businessPhone"
    case BusinessHoursKey => "businessHours"
    case DescriptionKey => "description"
    case IsActiveKey => "isActive"
  }

  /** The toast for a blank required field, e.g. "Business Phone is required". */
  function MissingMessage(k: Key): string {
    Label(KeyName(k)) + " is required"
  }

  /**
   * `submitData`: every form field, except that the password key is dropped
   * when editing with an empty password.
   */
  function SubmitData(d: FormData, editing: bool): map<Key, Value> {
    map k | k in AllKeys && (k != PasswordKey || !editing || d.password != "") :: ValueOf(d, k)
  }

  /** The payload omits nothing but an untouched password on edit, and copies every value. */
  lemma SubmitDataKeys(d: FormData, editing: bool)
    ensures PasswordKey in SubmitData(d, editing) <==> !editing || d.password != ""
    ensures forall k :: k != PasswordKey ==> k in SubmitData(d, editing)
    ensures forall k :: k in SubmitData(d, editing) ==> SubmitData(d, editing)[k] == ValueOf(d, k)
  {
    forall k | k != PasswordKey
      ensures k in SubmitData(d, editing)
    {
      assert k in AllKeys by { match k { case _ => } }
    }
  }

  datatype Verb = Post | Put

  datatype Request = Request(verb: Verb, url: string, body: map<Key, Value>)

  /** PUT to the user's own URL when editing, POST to the collection when creating. */
  function RequestFor(d: FormData, editingUser: Option<Id>): Request {
    match editingUser
    case Some(id) => Request(Put, "/api/admin/users/" + id, SubmitData(d, true))
    case None => Request(Post, "/api/admin/users", SubmitData(d, false))
  }

  /** A string value of the payload, as the path `new User(body)` reads. */
  function StrAt(body: map<Key, Value>, k: Key): Option<string> {
    if k in body && body[k].Str? then Some(body[k].s) else None
  }

  function FlagAt(body: map<Key, Value>, k: Key): Option<bool> {
    if k in body && body[k].Flag? then Some(body[k].b) else None
  }

  /** The document `new User(body)` is constructed from: one path per key sent; the dialog sends no picture. */
  function BodyFields(body: map<Key, Value>): UserModel.UserFields {
    UserModel.UserFields(
      StrAt(body, NameKey), StrAt(body, EmailKey), StrAt(body, PasswordKey), StrAt(body, UserTypeKey),
      StrAt(body, PlaceKey), StrAt(body, PhoneKey), StrAt(body, BusinessNameKey),
      StrAt(body, BusinessDescriptionKey), StrAt(body, BusinessAddressKey), StrAt(body, BusinessPhoneKey),
      StrAt(body, BusinessHoursKey), StrAt(body, DescriptionKey), None, FlagAt(body, IsActiveKey))
  }

  /** The dialog's payload when creating: every field is a present path. */
  lemma CreateFields(d: FormData)
    ensures BodyFields(RequestFor(d, None).body) == UserModel.UserFields(
      Some(d.name), Some(d.email), Some(d.password), Some(d.userType), Some(d.place), Some(d.phone),
      Some(d.businessName), Some(d.businessDescription), Some(d.businessAddress), Some(d.businessPhone),
      Some(d.businessHours), Some(d.description), None, Some(d.isActive))
  {
    SubmitDataKeys(d, false);
  }

  /**
   * Creating a user from the dialog without choosing a place always fails:
   * the payload carries `place: ""`, which does not cast to an ObjectId, so
   * the save is refused whatever the user type; every business field and
   * the description left empty fail their minimum lengths as well, even for
   * a newbie.  Nothing is stored.
   */
  lemma CreateWithoutPlaceRefused(store: seq<UserModel.UserDoc>, d: FormData, id: Id, now: int)
    requires d.place == ""
    ensures var (r, after) := AdminUsersRoute.Post(store, BodyFields(RequestFor(d, None).body), id, now);
      && r.Invalid? && "place" in r.errors && after == store
      && (d.businessName == "" ==> "businessName" in r.errors)
      && (d.businessDescription == "" ==> "businessDescription" in r.errors)
      && (d.businessAddress == "" ==> "businessAddress" in r.errors)
      && (d.businessPhone == "" ==> "businessPhone" in r.errors)
      && (d.businessHours == "" ==> "businessHours" in r.errors)
      && (d.description == "" ==> "description" in r.errors)
  {
    var input := BodyFields(RequestFor(d, None).body);
    CreateFields(d);
    UserModel.EmptyPathsRefused(input, id, now);
    assert AdminUsersRoute.Post(store, input, id, now)
      == (AdminUsersRoute.Invalid(UserModel.Construct(input, id, now).error), store);
  }

  /** A payload that leaves out every empty string, as the sign-up route copies only the filled fields. */
  function CreateBody(d: FormData): (body: map<Key, Value>)
    ensures forall k :: k in body <==> k in AllKeys && ValueOf(d, k) != Str("")
  {
    map k | k in AllKeys && ValueOf(d, k) != Str("") :: ValueOf(d, k)
  }

  /** The payload without empty strings, for the default form with a name, address and password typed. */
  lemma CreateBodyFields(d: FormData)
    requires d.name != "" && d.email != "" && d.password != "" && d.userType != ""
    requires d.place == "" && d.phone == "" && d.description == ""
    requires d.businessName == "" && d.businessDescription == "" && d.businessAddress == ""
    requires d.businessPhone == "" && d.businessHours == ""
    ensures BodyFields(CreateBody(d)) == UserModel.UserFields(
      Some(d.name), Some(d.email), Some(d.password), Some(d.userType), None, None,
      None, None, None, None, None, None, None, Some(d.isActive))
  {
    var body := CreateBody(d);
    assert NameKey in body && EmailKey in body && PasswordKey in body;
    assert UserTypeKey in body && IsActiveKey in body;
  }

  /**
   * With the empty strings left out, the default form with a valid name,
   * address and password creates a newbie with no place, stored with the
   * values typed.
   */
  lemma CreateBodyCreatesNewbie(store: seq<UserModel.UserDoc>, d: FormData, id: Id, now: int)
    requires d.userType == "newbie"
    requires UserModel.Clean(d.name) && Text.JsLength(d.name) >= UserModel.NameMin
    requires UserModel.Clean(d.email) && UserModel.NoUpper(d.email) && UserModel.EmailPattern(d.email)
    requires Text.JsLength(d.password) >= UserModel.PasswordMin
    requires d.place == "" && d.phone == "" && d.description == ""
    requires d.businessName == "" && d.businessDescription == "" && d.businessAddress == ""
    requires d.businessPhone == "" && d.businessHours == ""
    requires UserModel.FindByEmail(store, d.email).None?
    ensures var (r, after) := AdminUsersRoute.Post(store, BodyFields(CreateBody(d)), id, now);
      && r.Created? && after == store + [r.user]
      && r.user.name == d.name && r.user.email == d.email && r.user.password == d.password
      && r.user.userType == UserModel.Newbie && r.user.place.None? && r.user.isActive == d.isActive
  {
    var input := BodyFields(CreateBody(d));
    assert d.email != "" by { assert UserModel.EmailPattern(d.email); }
    CreateBodyFields(d);
    UserModel.NewbieConstruct(d.name, d.email, d.password, d.isActive, id, now);
    var u := UserModel.Construct(input, id, now).value;
    assert AdminUsersRoute.Post(store, input, id, now) == (AdminUsersRoute.Created(u), store + [u]);
  }

  /** What one press of the submit button does. */
  datatype Outcome =
    | Ignored                          // a submission is already in flight
    | Missing(field: Key, message: string)
    | Sent(request: Request)

  /** `formatUserType`: the table's label for a user type. */
  function FormatUserType(t: string): (r: string)
    ensures UserModel.ParseRole(t).None? ==> r == t
  {
    match t
    case "newbie" => "Newbie"
    case "veteran" => "Veteran"
    case "local_admin" => "Local Admin"
    case "admin" => "Admin"
    case "local_shop" => "Local Shop"
    case "restaurant" => "Restaurant"
    case _ => t
  }

  /** The six roles get six different labels. */
  lemma FormatDistinguishesRoles(r1: UserModel.Role, r2: UserModel.Role)
    requires FormatUserType(UserModel.RoleName(r1)) == FormatUserType(UserModel.RoleName(r2))
    ensures r1 == r2
  {
  }

  /** An unknown type that happens to read like a label is shown like the role: "Newbie" and "newbie" look alike. */
  lemma FormatConflatesLabels()
    ensures FormatUserType("Newbie") == FormatUserType("newbie")
    ensures "Newbie" != "newbie"
  {
  }

  /** The form loaded from a stored user by `handleEdit`: missing fields become "", the password is cleared. */
  function EditForm(u: UserModel.UserDoc): (d: FormData)
    ensures d.password == ""
    ensures UserModel.ParseRole(d.userType) == Some(u.userType)
  {
    FormData(u.name, u.email, "", UserModel.RoleName(u.userType), u.place.GetOr(""),
             u.phone.GetOr(""), u.businessName.GetOr(""), u.businessDescription.GetOr(""),
             u.businessAddress.GetOr(""), u.businessPhone.GetOr(""), u.businessHours.GetOr(""),
             u.description.GetOr(""), u.isActive)
  }

  /** Editing a user without typing a password never sends a password, so the stored hash is kept. */
  lemma EditWithoutPasswordOmitsIt(u: UserModel.UserDoc, id: Id)
    ensures PasswordKey !in RequestFor(EditForm(u), Some(id)).body
    ensures RequestFor(EditForm(u), Some(id)).verb == Put
  {
    SubmitDataKeys(EditForm(u), true);
  }

  /** The dialog and the submit flag. */
  class AdminUserDialog {
    var formData: FormData
    var editingUser: Option<Id>
    var isSubmitting: bool
    var isAddDialogOpen: bool
    var isEditDialogOpen: bool

    constructor ()
      ensures formData == EmptyForm && editingUser == None
      ensures !isSubmitting && !isAddDialogOpen && !isEditDialogOpen
    {
      formData := EmptyForm;
      editingUser := None;
      isSubmitting := false;
      isAddDialogOpen := false;
      isEditDialogOpen := false;
    }

    /** `resetForm`. */
    method ResetForm()
      modifies this
      ensures formData == EmptyForm && editingUser == None
      ensures unchanged(this`isSubmitting, this`isAddDialogOpen, this`isEditDialogOpen)
    {
      formData := EmptyForm;
      editingUser := None;
    }

    /**
     * `handleEdit` once the user's details arrived (`fetched`); when the
     * fetch failed nothing changes.
     */
    method Edit(fetched: Option<UserModel.UserDoc>)
      modifies this
      ensures fetched.Some? ==> formData == EditForm(fetched.value) && editingUser == Some(fetched.value.id) && isEditDialogOpen
      ensures fetched.Some? ==> unchanged(this`isSubmitting, this`isAddDialogOpen)
      ensures fetched.None? ==> unchanged(this)
    {
      if fetched.Some? {
        formData := EditForm(fetched.value);
        editingUser := Some(fetched.value.id);
        isEditDialogOpen := true;
      }
    }

    /**
     * The first half of `handleSubmit`, up to the request: ignored while a
     * submission is in flight; otherwise the first blank required field (in
     * list order) stops it with its message and nothing is sent; otherwise the
     * request is sent and the submission is in flight.
     */
    method Submit() returns (outcome: Outcome)
      modifies this
      ensures old(isSubmitting) ==> outcome == Ignored
      ensures outcome.Missing? ==>
        && Required(outcome.field, formData.userType, editingUser.Some?)
        && Blank(formData, outcome.field)
        && outcome.message == MissingMessage(outcome.field)
        && (forall k :: Required(k, formData.userType, editingUser.Some?) && Rank(k) < Rank(outcome.field) ==> !Blank(formData, k))
      ensures outcome.Sent? <==>
        !old(isSubmitting) && forall k :: Required(k, formData.userType, editingUser.Some?) ==> !Blank(formData, k)
      ensures outcome.Sent? ==> outcome.request == RequestFor(formData, editingUser) && isSubmitting
      ensures !outcome.Sent? ==> isSubmitting == old(isSubmitting)
      ensures unchanged(this`formData, this`editingUser, this`isAddDialogOpen, this`isEditDialogOpen)
    {
      if isSubmitting {
        return Ignored;
      }
      var fields := RequiredFields(formData.userType, editingUser.Some?);
      var i := FirstBlank(formData, fields);
      if i < |fields| {
        var k := fields[i];
        forall k' | Required(k', formData.userType, editingUser.Some?) && Rank(k') < Rank(k)
          ensures !Blank(formData, k')
        {
          EarlierRequiredListed(fields, formData.userType, editingUser.Some?, i, k');
        }
        return Missing(k, MissingMessage(k));
      }
      isSubmitting := true;
      outcome := Sent(RequestFor(formData, editingUser));
    }

    /**
     * The second half, once the response arrived (`ok` is `response.ok`; a
     * thrown fetch counts as not ok): on success the dialog that was open is
     * closed and the form reset; in every case the submission is over.
     */
    method Complete(ok: bool)
      requires isSubmitting
      modifies this
      ensures !isSubmitting
      ensures ok ==> formData == EmptyForm && editingUser == None
      ensures ok && old(editingUser).Some? ==> !isEditDialogOpen && isAddDialogOpen == old(isAddDialogOpen)
      ensures ok && old(editingUser).None? ==> !isAddDialogOpen && isEditDialogOpen == old(isEditDialogOpen)
      ensures !ok ==> unchanged(this`formData, this`editingUser, this`isAddDialogOpen, this`isEditDialogOpen)
    {
      if ok {
        if editingUser.Some? {
          isEditDialogOpen := false;
        } else {
          isAddDialogOpen := false;
        }
        ResetForm();
      }
      isSubmitting := false;
    }
  }
}
