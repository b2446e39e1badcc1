/**
 * The sign-up form: the client-side `validateForm`, which records one
 * message per failing field, the request body `handleSubmit` builds for the
 * chosen user type, and the reset when another user type is picked.  Every
 * input of the form is a string held in component state.
 */
module SignupPage {
  import opened Wrappers
  import opened Http
  import opened Text
  import opened SignupRoute
  import opened UserModel
  import PlaceModel

  /** The form's inputs at one moment. */
  datatype FormData = FormData(
    name: string,
    email: string,
    password: string,
    confirmPassword: string,
    userType: Role,
    place: string,
    phone: string,
    businessName: string,
    businessDescription: string,
    businessAddress: string,
    businessPhone: string,
    businessHours: string,
    description: string,
    profilePicture: string)

  /*
   * The client's address test `/\S+@\S+\.\S+/`, unanchored: somewhere in the
   * text a non-blank character, an `@`, a non-empty run of non-blank
   * characters, a `.` and a non-blank character.
   */

  /** `@` at `i` with a non-blank character before it, and the rest of the match after it. */
  predicate AtFrom(s: string, i: nat)
    decreases |s| - i
  {
    i < |s| && ((1 <= i && s[i] == '@' && !IsSpace(s[i - 1]) && DotFrom(s, i + 1, false)) || AtFrom(s, i + 1))
  }

  /** A run of non-blank characters from `k` (non-empty before the dot unless `seen`) ending in `.` and a non-blank character. */
  predicate DotFrom(s: string, k: nat, seen: bool)
    decreases |s| - k
  {
    && k < |s| && !IsSpace(s[k])
    && ((seen && s[k] == '.' && k + 1 < |s| && !IsSpace(s[k + 1])) || DotFrom(s, k + 1, true))
  }

  predicate ClientEmailOk(s: string) {
    AtFrom(s, 0)
  }

  /** The pattern matches with its `@` at `i` and its `.` at `j`. */
  predicate MatchAt(s: string, i: nat, j: nat) {
    && 1 <= i && i + 2 <= j && j + 1 < |s|
    && !IsSpace(s[i - 1]) && s[i] == '@' && s[j] == '.' && !IsSpace(s[j + 1])
    && forall m :: i < m < j ==> !IsSpace(s[m])
  }

  lemma {:induction false} DotFromWitness(s: string, k: nat, seen: bool) returns (j: nat)
    requires DotFrom(s, k, seen)
    ensures (if seen then k else k + 1) <= j && j + 1 < |s|
    ensures s[j] == '.' && !IsSpace(s[j + 1])
    ensures forall m :: k <= m < j ==> !IsSpace(s[m])
    decreases |s| - k
  {
    if seen && s[k] == '.' && k + 1 < |s| && !IsSpace(s[k + 1]) {
      j := k;
    } else {
      j := DotFromWitness(s, k + 1, true);
    }
  }

  lemma {:induction false} DotFromOf(s: string, k: nat, seen: bool, j: nat)
    requires (if seen then k else k + 1) <= j && j + 1 < |s|
    requires s[j] == '.' && !IsSpace(s[j + 1])
    requires forall m :: k <= m < j ==> !IsSpace(s[m])
    ensures DotFrom(s, k, seen)
    decreases j - k
  {
    if k < j {
      DotFromOf(s, k + 1, true, j);
    }
  }

  lemma {:induction false} AtFromWitness(s: string, i0: nat) returns (i: nat, j: nat)
    requires AtFrom(s, i0)
    ensures i0 <= i && MatchAt(s, i, j)
    decreases |s| - i0
  {
    if 1 <= i0 && s[i0] == '@' && !IsSpace(s[i0 - 1]) && DotFrom(s, i0 + 1, false) {
      i := i0;
      j := DotFromWitness(s, i0 + 1, false);
    } else {
      i, j := AtFromWitness(s, i0 + 1);
    }
  }

  lemma {:induction false} AtFromOf(s: string, i0: nat, i: nat, j: nat)
    requires i0 <= i && MatchAt(s, i, j)
    ensures AtFrom(s, i0)
    decreases i - i0
  {
    if i0 == i {
      DotFromOf(s, i + 1, false, j);
    } else {
      AtFromOf(s, i0 + 1, i, j);
    }
  }

  /** The scan accepts exactly the texts in which the pattern matches somewhere. */
  lemma ClientEmailMeaning(s: string)
    ensures ClientEmailOk(s) <==> exists i: nat, j: nat :: MatchAt(s, i, j)
  {
    if ClientEmailOk(s) {
      var i, j := AtFromWitness(s, 0);
    }
    if exists i: nat, j: nat :: MatchAt(s, i, j) {
      var i: nat, j: nat :| MatchAt(s, i, j);
      AtFromOf(s, 0, i, j);
    }
  }

  /** The schema's address pattern uses only word characters, `.` and `-`: none of them blank, ending in a word character. */
  lemma {:induction false} DottedChars(x: string)
    requires UserModel.Dotted(x)
    ensures forall k :: 0 <= k < |x| ==> IsWordChar(x[k]) || UserModel.IsSep(x[k])
    ensures IsWordChar(x[|x| - 1])
    decreases |x|
  {
    if |x| > 1 {
      if UserModel.Dotted(x[1..]) {
        DottedChars(x[1..]);
        assert forall k :: 1 <= k < |x| ==> x[k] == x[1..][k - 1];
      } else {
        DottedChars(x[2..]);
        assert forall k :: 2 <= k < |x| ==> x[k] == x[2..][k - 2];
      }
    }
  }

  lemma {:induction false} DomainWitness(d: string, j0: nat) returns (j: nat)
    requires UserModel.DomainFrom(d, j0)
    ensures j0 <= j < |d| && 0 < j && UserModel.Dotted(d[..j]) && UserModel.Tlds(d[j..])
    decreases |d| - j0
  {
    if 0 < j0 && UserModel.Dotted(d[..j0]) && UserModel.Tlds(d[j0..]) {
      j := j0;
    } else {
      j := DomainWitness(d, j0 + 1);
    }
  }

  /** Every address the schema accepts passes the client's test. */
  lemma SchemaEmailPassesClient(s: string)
    requires UserModel.EmailPattern(s)
    ensures ClientEmailOk(s)
  {
    var i := UserModel.IndexOf(s, '@').value;
    DottedChars(s[..i]);
    var d := s[i + 1..];
    var j := DomainWitness(d, 1);
    DottedChars(d[..j]);
    assert d[j..][0] == '.' && IsWordChar(d[j..][1]);
    assert s[i - 1] == s[..i][i - 1];
    forall m | i < m < i + 1 + j
      ensures !IsSpace(s[m])
    {
      assert s[m] == d[..j][m - i - 1];
    }
    assert MatchAt(s, i, i + 1 + j);
    AtFromOf(s, 0, i, i + 1 + j);
  }

  /** The client's test is looser: a one-letter top-level domain passes it but not the schema. */
  lemma ClientEmailLooser()
    ensures ClientEmailOk("a@b.c") && !UserModel.EmailPattern("a@b.c")
  {
    AtFromOf("a@b.c", 0, 1, 3);
    var d := "b.c";
    assert UserModel.IndexOf("a@b.c", '@') == Some(1);
    assert "a@b.c"[2..] == d;
    assert !UserModel.Tlds(d[1..]);
    assert !UserModel.Dotted(d[..2]) by {
      assert d[..2][1..] == ".";
      assert d[..2][2..] == "";
    }
    assert !UserModel.DomainFrom(d, 3);
    assert !UserModel.DomainFrom(d, 2);
  }

  /** The messages `validateForm` records. */
  const NameMissing := "Name is required"
  const NameShort := "Name must be at least 2 characters long"
  const EmailMissing := "Email is required"
  const EmailMalformed := "Please enter a valid email"
  const PasswordMissing := "Password is required"
  const PasswordShort := "Password must be at least 6 characters long"
  const ConfirmMissing := "Please confirm your password"
  const ConfirmMismatch := "Passwords do not match"
  const PlaceMissing := "Please select a place"
  const PhoneMissing := "Phone number is required"
  const PhoneShort := "Please enter a valid phone number"
  const DescriptionMissing := "Description is required"
  const DescriptionShort := "Description must be at least 10 characters long"
  const BusinessNameMissing := "Business name is required"
  const BusinessNameShort := "Business name must be at least 2 characters long"
  const BusinessDescriptionMissing := "Business description is required"
  const BusinessDescriptionShort := "Business description must be at least 10 characters long"
  const BusinessAddressMissing := "Business address is required"
  const BusinessAddressShort := "Business address must be at least 5 characters long"
  const BusinessPhoneMissing := "Business phone is required"
  const BusinessPhoneShort := "Please enter a valid business phone number"
  const BusinessHoursMissing := "Business hours are required"
  const BusinessHoursShort := "Please specify your business hours"

  /** `!v` / `v.length < min` with the two messages of one field. */
  function LengthError(v: string, min: nat, missing: string, short: string): Option<string> {
    if v == "" then Some(missing) else if JsLength(v) < min then Some(short) else None
  }

  /**
   * The keys of the error record, one per input.  The form's user type is
   * always one of the six names, none of them empty, so `validateForm` never
   * records "Please select a user type" and that key is not listed.
   */
  datatype Field = NameField | EmailField | PasswordField | ConfirmField | PlaceField | PhoneField
                 | DescriptionField | BusinessNameField | BusinessDescriptionField | BusinessAddressField
                 | BusinessPhoneField | BusinessHoursField

  const AllFields: set<Field> := {NameField, EmailField, PasswordField, ConfirmField, PlaceField, PhoneField,
                                  DescriptionField, BusinessNameField, BusinessDescriptionField, BusinessAddressField,
                                  BusinessPhoneField, BusinessHoursField}

  /** The message `validateForm` records under a key, if any. */
  function FieldError(d: FormData, f: Field): Option<string> {
    match f
    case NameField => LengthError(d.name, 2, NameMissing, NameShort)
    case EmailField =>
      if d.email == "" then Some(EmailMissing)
      else if !ClientEmailOk(d.email) then Some(EmailMalformed) else None
    case PasswordField => LengthError(d.password, 6, PasswordMissing, PasswordShort)
    case ConfirmField =>
      if d.confirmPassword == "" then Some(ConfirmMissing)
      else if d.password != d.confirmPassword then Some(ConfirmMismatch) else None
    case PlaceField => if NeedsPhone(d.userType) && d.place == "" then Some(PlaceMissing) else None
    case PhoneField =>
      if NeedsPhone(d.userType) then LengthError(d.phone, 10, PhoneMissing, PhoneShort) else None
    case DescriptionField =>
      if d.userType == Veteran
      then LengthError(d.description, 10, DescriptionMissing, DescriptionShort)
      else None
    case BusinessNameField =>
      if IsBusiness(d.userType)
      then LengthError(d.businessName, 2, BusinessNameMissing, BusinessNameShort)
      else None
    case BusinessDescriptionField =>
      if IsBusiness(d.userType)
      then LengthError(d.businessDescription, 10, BusinessDescriptionMissing,
                       BusinessDescriptionShort)
      else None
    case BusinessAddressField =>
      if IsBusiness(d.userType)
      then LengthError(d.businessAddress, 5, BusinessAddressMissing, BusinessAddressShort)
      else None
    case BusinessPhoneField =>
      if IsBusiness(d.userType)
      then LengthError(d.businessPhone, 10, BusinessPhoneMissing, BusinessPhoneShort)
      else None
    case BusinessHoursField =>
      if IsBusiness(d.userType)
      then LengthError(d.businessHours, 5, BusinessHoursMissing, BusinessHoursShort)
      else None
  }

  /** The error record of a form. */
  function FormErrors(d: FormData): map<Field, string> {
    map f | f in AllFields && FieldError(d, f).Some? :: FieldError(d, f).value
  }

  /** What an accepted form satisfies, role by role. */
  predicate FormValid(d: FormData) {
    && JsLength(d.name) >= 2
    && ClientEmailOk(d.email)
    && JsLength(d.password) >= 6 && d.confirmPassword == d.password
    && (NeedsPhone(d.userType) ==> d.place != "" && JsLength(d.phone) >= 10)
    && (d.userType == Veteran ==> JsLength(d.description) >= 10)
    && (IsBusiness(d.userType) ==>
          && JsLength(d.businessName) >= 2 && JsLength(d.businessDescription) >= 10 && JsLength(d.businessAddress) >= 5
          && JsLength(d.businessPhone) >= 10 && JsLength(d.businessHours) >= 5)
  }

  /** Every key of the record is one of the twelve. */
  lemma AllFieldsComplete(f: Field)
    ensures f in AllFields
  {
  }

  /** A valid form has no failing field. */
  lemma ValidHasNoFieldError(d: FormData, f: Field)
    requires FormValid(d)
    ensures FieldError(d, f).None?
  {
  }

  /** An invalid form has a failing field. */
  lemma InvalidHasFieldError(d: FormData) returns (f: Field)
    requires !FormValid(d)
    ensures FieldError(d, f).Some?
  {
    if JsLength(d.name) < 2 { f := NameField; }
    else if !ClientEmailOk(d.email) { f := EmailField; }
    else if JsLength(d.password) < 6 { f := PasswordField; }
    else if d.confirmPassword != d.password { f := ConfirmField; }
    else if NeedsPhone(d.userType) && d.place == "" { f := PlaceField; }
    else if NeedsPhone(d.userType) && JsLength(d.phone) < 10 { f := PhoneField; }
    else if d.userType == Veteran && JsLength(d.description) < 10 { f := DescriptionField; }
    else if IsBusiness(d.userType) && JsLength(d.businessName) < 2 { f := BusinessNameField; }
    else if IsBusiness(d.userType) && JsLength(d.businessDescription) < 10 { f := BusinessDescriptionField; }
    else if IsBusiness(d.userType) && JsLength(d.businessAddress) < 5 { f := BusinessAddressField; }
    else if IsBusiness(d.userType) && JsLength(d.businessPhone) < 10 { f := BusinessPhoneField; }
    else { f := BusinessHoursField; }
  }

  /** A key is recorded exactly when its field fails, and the form is valid exactly when nothing is recorded. */
  lemma NoErrorsIffValid(d: FormData)
    ensures forall f :: f in FormErrors(d) <==> FieldError(d, f).Some?
    ensures FormErrors(d) == map[] <==> FormValid(d)
  {
    forall f ensures f in FormErrors(d) <==> FieldError(d, f).Some? {
      AllFieldsComplete(f);
    }
    if FormValid(d) {
      forall f ensures f !in FormErrors(d) {
        ValidHasNoFieldError(d, f);
      }
    } else {
      var f := InvalidHasFieldError(d);
      assert f in FormErrors(d);
    }
  }

  /** The record with `o`'s message, if any, under `f`. */
  function Record(e: map<Field, string>, f: Field, o: Option<string>): map<Field, string> {
    if o.Some? then e[f := o.value] else e
  }

  /** The five business entries of `FieldError`, spelled out for the checks that record them. */
  lemma BusinessFieldErrors(d: FormData)
    ensures var b := IsBusiness(d.userType);
      && FieldError(d, BusinessNameField) == (if b then LengthError(d.businessName, 2, BusinessNameMissing, BusinessNameShort) else None)
      && FieldError(d, BusinessDescriptionField)
         == (if b then LengthError(d.businessDescription, 10, BusinessDescriptionMissing, BusinessDescriptionShort) else None)
      && FieldError(d, BusinessAddressField)
         == (if b then LengthError(d.businessAddress, 5, BusinessAddressMissing, BusinessAddressShort) else None)
      && FieldError(d, BusinessPhoneField) == (if b then LengthError(d.businessPhone, 10, BusinessPhoneMissing, BusinessPhoneShort) else None)
      && FieldError(d, BusinessHoursField) == (if b then LengthError(d.businessHours, 5, BusinessHoursMissing, BusinessHoursShort) else None)
  {
  }

  /** One step of `validateForm`: record the field's message if it fails. */
  function Step(e: map<Field, string>, d: FormData, f: Field): map<Field, string> {
    Record(e, f, FieldError(d, f))
  }

  /** The record after the four identity fields. */
  function IdentityChecked(d: FormData): map<Field, string> {
    Step(Step(Step(Step(map[], d, NameField), d, EmailField), d, PasswordField), d, ConfirmField)
  }

  /** ... then place, phone and description. */
  function ContactChecked(d: FormData): map<Field, string> {
    Step(Step(Step(IdentityChecked(d), d, PlaceField), d, PhoneField), d, DescriptionField)
  }

  /** ... then the five business fields: the record after all twelve steps, in the order of the form. */
  function Checked(d: FormData): map<Field, string> {
    Step(Step(Step(Step(Step(ContactChecked(d), d, BusinessNameField), d, BusinessDescriptionField), d, BusinessAddressField),
              d, BusinessPhoneField), d, BusinessHoursField)
  }

  /** `e` holds exactly the messages of the failing fields among `done`. */
  predicate Agrees(e: map<Field, string>, d: FormData, done: set<Field>) {
    && (forall f :: f in e <==> f in done && FieldError(d, f).Some?)
    && (forall f :: f in e ==> FieldError(d, f) == Some(e[f]))
  }

  lemma StepAgrees(e: map<Field, string>, d: FormData, done: set<Field>, f: Field)
    requires Agrees(e, d, done)
    ensures Agrees(Step(e, d, f), d, done + {f})
  {
  }

  /** Once every field has been checked the record is the form's error record. */
  lemma AgreesAll(e: map<Field, string>, d: FormData)
    requires Agrees(e, d, AllFields)
    ensures e == FormErrors(d)
  {
    forall f ensures f in e <==> f in FormErrors(d) {
      AllFieldsComplete(f);
    }
  }
  lemma IdentityAgrees(d: FormData)
    ensures Agrees(IdentityChecked(d), d, {NameField, EmailField, PasswordField, ConfirmField})
  {
    var e := map[];
    StepAgrees(e, d, {}, NameField);
    e := Step(e, d, NameField);
    StepAgrees(e, d, {NameField}, EmailField);
    e := Step(e, d, EmailField);
    StepAgrees(e, d, {NameField, EmailField}, PasswordField);
    e := Step(e, d, PasswordField);
    StepAgrees(e, d, {NameField, EmailField, PasswordField}, ConfirmField);
  }

  lemma ContactAgrees(d: FormData)
    ensures Agrees(ContactChecked(d), d, {NameField, EmailField, PasswordField, ConfirmField, PlaceField, PhoneField, DescriptionField})
  {
    var done := {NameField, EmailField, PasswordField, ConfirmField};
    var e := IdentityChecked(d);
    IdentityAgrees(d);
    StepAgrees(e, d, done, PlaceField);
    e, done := Step(e, d, PlaceField), done + {PlaceField};
    StepAgrees(e, d, done, PhoneField);
    e, done := Step(e, d, PhoneField), done + {PhoneField};
    StepAgrees(e, d, done, DescriptionField);
  }

  /** Checking the fields one after another yields the error record. */
  lemma CheckedIsErrors(d: FormData)
    ensures Checked(d) == FormErrors(d)
  {
    var done := {NameField, EmailField, PasswordField, ConfirmField, PlaceField, PhoneField, DescriptionField};
    var e := ContactChecked(d);
    ContactAgrees(d);
    StepAgrees(e, d, done, BusinessNameField);
    e, done := Step(e, d, BusinessNameField), done + {BusinessNameField};
    StepAgrees(e, d, done, BusinessDescriptionField);
    e, done := Step(e, d, BusinessDescriptionField), done + {BusinessDescriptionField};
    StepAgrees(e, d, done, BusinessAddressField);
    e, done := Step(e, d, BusinessAddressField), done + {BusinessAddressField};
    StepAgrees(e, d, done, BusinessPhoneField);
    e, done := Step(e, d, BusinessPhoneField), done + {BusinessPhoneField};
    StepAgrees(e, d, done, BusinessHoursField);
    e, done := Step(e, d, BusinessHoursField), done + {BusinessHoursField};
    assert done == AllFields;
    AgreesAll(e, d);
  }



  /** The body `handleSubmit` posts: contact fields for service roles, the description for guides, business fields for shops. */
  function RequestBody(d: FormData): (r: SignupBody)
    ensures r.name == Some(d.name) && r.email == Some(d.email) && r.password == Some(d.password)
    ensures r.userType == Some(RoleName(d.userType)) && r.profilePicture == Some(d.profilePicture)
    ensures (r.place.Some? <==> NeedsPhone(d.userType)) && (r.phone.Some? <==> NeedsPhone(d.userType))
    ensures r.description.Some? <==> d.userType == Veteran
    ensures (r.businessName.Some? <==> IsBusiness(d.userType)) && (r.businessHours.Some? <==> IsBusiness(d.userType))
    ensures (r.businessDescription.Some? <==> IsBusiness(d.userType)) && (r.businessAddress.Some? <==> IsBusiness(d.userType))
    ensures r.businessPhone.Some? <==> IsBusiness(d.userType)
    ensures r.place.Some? ==> r.place.value == d.place && r.phone.value == d.phone
    ensures r.description.Some? ==> r.description.value == d.description
    ensures r.businessName.Some? ==> && r.businessName.value == d.businessName && r.businessDescription.value == d.businessDescription
                                     && r.businessAddress.value == d.businessAddress && r.businessPhone.value == d.businessPhone
                                     && r.businessHours.value == d.businessHours
  {
    var service := NeedsPhone(d.userType);
    var business := IsBusiness(d.userType);
    SignupBody(Some(d.name), Some(d.email), Some(d.password), Some(RoleName(d.userType)),
               if service then Some(d.place) else None,
               if service then Some(d.phone) else None,
               if business then Some(d.businessName) else None,
               if business then Some(d.businessDescription) else None,
               if business then Some(d.businessAddress) else None,
               if business then Some(d.businessPhone) else None,
               if business then Some(d.businessHours) else None,
               if d.userType == Veteran then Some(d.description) else None,
               Some(d.profilePicture))
  }

  /** The four user types offered on the form's cards. */
  predicate Offered(t: Role) {
    t == Newbie || t == Veteran || t == LocalShop || t == Restaurant
  }

  /** Picking user type `t`: the contact, business and description inputs are emptied. */
  function Reset(d: FormData, t: Role): FormData {
    d.(userType := t, place := "", phone := "", businessName := "", businessDescription := "",
       businessAddress := "", businessPhone := "", businessHours := "", description := "")
  }

  /** After switching to a service role the form cannot be submitted until place and phone are entered again. */
  lemma ResetNeedsReentry(d: FormData, t: Role)
    requires NeedsPhone(t)
    ensures FormErrors(Reset(d, t))[PlaceField] == PlaceMissing
    ensures FormErrors(Reset(d, t))[PhoneField] == PhoneMissing
    ensures !FormValid(Reset(d, t))
    ensures Reset(d, t).name == d.name && Reset(d, t).email == d.email && Reset(d, t).password == d.password
  {
  }

  /**
   * A form the client accepts passes every check of the route except the two
   * that need the database: the place must exist and be active, and the
   * address must be new.
   */
  lemma FormPassesRouteChecks(users: seq<UserModel.UserDoc>, places: seq<PlaceModel.PlaceDoc>, d: FormData)
    requires Offered(d.userType) && FormValid(d)
    ensures var badPlace := NeedsPhone(d.userType)
              && (PlaceModel.FindById(places, d.place).None? || !PlaceModel.FindById(places, d.place).value.isActive);
      Check(users, places, RequestBody(d))
        == if badPlace then Some(BadPlace)
           else if UserModel.FindByEmail(users, UserModel.EmailQuery(d.email)).Some? then Some(EmailTaken)
           else None
  {
    ClientEmailMeaning(d.email);
  }

  /**
   * The form counts characters before trimming and the route does not
   * measure the name at all: a name of a blank and one letter passes the form
   * and is refused by the schema, which the route reports as 500.
   */
  lemma BlankPaddedNameAccepted(users: seq<UserModel.UserDoc>, places: seq<PlaceModel.PlaceDoc>, hashed: string, id: Id, now: int)
    ensures var d := FormData(" a", "ab@cd.com", "secret", "secret", Newbie, "", "", "", "", "", "", "", "", "");
      && FormValid(d)
      && (Check(users, places, RequestBody(d)).None? ==> Signup(users, places, RequestBody(d), hashed, id, now).0 == Err(InternalError))
  {
    var d := FormData(" a", "ab@cd.com", "secret", "secret", Newbie, "", "", "", "", "", "", "", "", "");
    AtFromOf(d.email, 0, 2, 5);
    assert TrimStart(" a") == "a" by {
      assert TrimStart(" a") == TrimStart("a");
    }
    assert Trim(" a") == "a";
    if Check(users, places, RequestBody(d)).None? {
      ShortNameIsServerError(users, places, RequestBody(d), hashed, id, now);
    }
  }

  /** An address the client accepts but the schema refuses reaches the insert and comes back as 500. */
  lemma LooseEmailIsServerError(users: seq<UserModel.UserDoc>, places: seq<PlaceModel.PlaceDoc>, d: FormData, hashed: string, id: Id, now: int)
    requires Check(users, places, RequestBody(d)).None?
    requires !UserModel.EmailPattern(Lower(Trim(d.email)))
    ensures Signup(users, places, RequestBody(d), hashed, id, now).0 == Err(InternalError)
  {
    assert "email" in UserModel.IdentityErrors(UserModel.Normalize(UserData(RequestBody(d), hashed)));
  }

  class SignupForm {
    var name: string
    var email: string
    var password: string
    var confirmPassword: string
    var userType: Role
    var place: string
    var phone: string
    var businessName: string
    var businessDescription: string
    var businessAddress: string
    var businessPhone: string
    var businessHours: string
    var description: string
    var profilePicture: string
    var errors: map<Field, string>
    var isLoading: bool

    function Data(): FormData
      reads this
    {
      FormData(name, email, password, confirmPassword, userType, place, phone, businessName, businessDescription,
               businessAddress, businessPhone, businessHours, description, profilePicture)
    }

    /** The user type is always one of the four offered on the form. */
    predicate Valid()
      reads this
    {
      Offered(userType)
    }

    constructor ()
      ensures Valid() && !isLoading && errors == map[]
      ensures Data() == FormData("", "", "", "", Newbie, "", "", "", "", "", "", "", "", "")
    {
      name, email, password, confirmPassword := "", "", "", "";
      userType := Newbie;
      place, phone := "", "";
      businessName, businessDescription, businessAddress, businessPhone, businessHours := "", "", "", "", "";
      description, profilePicture := "", "";
      errors := map[];
      isLoading := false;
    }

    /** A click on one of the user-type cards. */
    method SelectUserType(t: Role)
      requires Offered(t)
      modifies this`userType, this`place, this`phone, this`description
      modifies this`businessName, this`businessDescription, this`businessAddress, this`businessPhone, this`businessHours
      ensures Valid()
      ensures userType == t && place == "" && phone == "" && description == ""
      ensures businessName == "" && businessDescription == "" && businessAddress == "" && businessPhone == "" && businessHours == ""
    {
      userType := t;
      place, phone, description := "", "", "";
      businessName, businessDescription, businessAddress, businessPhone, businessHours := "", "", "", "", "";
    }

    /** One field's check in `validateForm`: the "required" message when empty, the "too short" one when shorter than `min`. */
    static method RecordLength(e: map<Field, string>, f: Field, v: string, min: nat, missing: string, short: string)
      returns (e': map<Field, string>)
      ensures e' == Record(e, f, LengthError(v, min, missing, short))
    {
      if v == "" {
        e' := e[f := missing];
      } else if JsLength(v) < min {
        e' := e[f := short];
      } else {
        e' := e;
      }
    }

    /** The checks of name, email, password and its confirmation, from an empty record. */
    method IdentityChecks() returns (e: map<Field, string>)
      ensures e == IdentityChecked(Data())
    {
      e := RecordLength(map[], NameField, name, 2, NameMissing, NameShort);
      var message: Option<string> := None;
      if email == "" {
        message := Some(EmailMissing);
      } else if !ClientEmailOk(email) {
        message := Some(EmailMalformed);
      }
      e := Record(e, EmailField, message);
      e := RecordLength(e, PasswordField, password, 6, PasswordMissing, PasswordShort);
      message := None;
      if confirmPassword == "" {
        message := Some(ConfirmMissing);
      } else if password != confirmPassword {
        message := Some(ConfirmMismatch);
      }
      e := Record(e, ConfirmField, message);
    }

    /** The checks for the service roles: place, phone, and for a guide the description. */
    method ContactChecks(e0: map<Field, string>) returns (e: map<Field, string>)
      ensures e == Step(Step(Step(e0, Data(), PlaceField), Data(), PhoneField), Data(), DescriptionField)
    {
      e := e0;
      if NeedsPhone(userType) {
        e := Record(e, PlaceField, if place == "" then Some(PlaceMissing) else None);
        e := RecordLength(e, PhoneField, phone, 10, PhoneMissing, PhoneShort);
        if userType == Veteran {
          e := RecordLength(e, DescriptionField, description, 10, DescriptionMissing,
                            DescriptionShort);
        }
      }
    }

    /** The checks of the five business fields for the shop roles. */
    method BusinessChecks(e0: map<Field, string>) returns (e: map<Field, string>)
      ensures e == Step(Step(Step(Step(Step(e0, Data(), BusinessNameField), Data(), BusinessDescriptionField),
                                   Data(), BusinessAddressField), Data(), BusinessPhoneField), Data(), BusinessHoursField)
    {
      ghost var d := Data();
      BusinessFieldErrors(d);
      e := e0;
      if IsBusiness(userType) {
        e := RecordLength(e, BusinessNameField, businessName, 2, BusinessNameMissing,
                          BusinessNameShort);
        e := RecordLength(e, BusinessDescriptionField, businessDescription, 10, BusinessDescriptionMissing,
                          BusinessDescriptionShort);
        e := RecordLength(e, BusinessAddressField, businessAddress, 5, BusinessAddressMissing,
                          BusinessAddressShort);
        e := RecordLength(e, BusinessPhoneField, businessPhone, 10, BusinessPhoneMissing,
                          BusinessPhoneShort);
        e := RecordLength(e, BusinessHoursField, businessHours, 5, BusinessHoursMissing,
                          BusinessHoursShort);
      }
    }

    /** `validateForm`: records the messages and answers whether none was recorded. */
    method ValidateForm() returns (valid: bool)
      modifies this`errors
      ensures errors == FormErrors(Data())
      ensures valid <==> FormValid(Data())
    {
      var e := IdentityChecks();
      e := ContactChecks(e);
      e := BusinessChecks(e);
      CheckedIsErrors(Data());
      NoErrorsIffValid(Data());
      errors := e;
      valid := |e| == 0;
    }

    /** `requestData`, grown field by field for the current user type. */
    method BuildRequestData() returns (body: SignupBody)
      ensures body == RequestBody(Data())
    {
      body := SignupBody(Some(name), Some(email), Some(password), Some(RoleName(userType)),
                         None, None, None, None, None, None, None, None, Some(profilePicture));
      if NeedsPhone(userType) {
        body := body.(place := Some(place));
        body := body.(phone := Some(phone));
        if userType == Veteran {
          body := body.(description := Some(description));
        }
      }
      if IsBusiness(userType) {
        body := body.(businessName := Some(businessName));
        body := body.(businessDescription := Some(businessDescription));
        body := body.(businessAddress := Some(businessAddress));
        body := body.(businessPhone := Some(businessPhone));
        body := body.(businessHours := Some(businessHours));
      }
    }

    /**
     * `handleSubmit` up to the request: an invalid form sends nothing; a
     * valid one sends its body, and the loading flag is down again once the
     * answer (whatever it is) has been handled.
     */
    method Submit() returns (sent: Option<SignupBody>)
      modifies this`errors, this`isLoading
      ensures errors == FormErrors(Data())
      ensures sent.Some? <==> FormValid(Data())
      ensures sent.Some? ==> sent.value == RequestBody(Data())
      ensures isLoading == (if sent.Some? then false else old(isLoading))
    {
      var valid := ValidateForm();
      if !valid {
        return None;
      }
      isLoading := true;
      var body := BuildRequestData();
      sent := Some(body);
      isLoading := false;
    }
  }
}
