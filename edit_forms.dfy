/**
 * The three profile edit forms (veteran, business, administrator).  Each has
 * a zod schema: minimum lengths on its profile fields and two refinements on
 * the password fields.  Its `onSubmit` runs only once the schema accepts the
 * values, and it builds the JSON body of `PUT /api/auth/profile` one
 * assignment at a time.
 */
module EditForms {
  import opened Wrappers
  import opened Text
  import UserModel
  import ProfileRoute

  datatype Kind = VeteranForm | BusinessForm | AdminForm

  /** The form's values.  Every one is a string, and the three password fields start as "". */
  datatype EditData = EditData(
    name: string,
    phone: string,
    description: string,
    businessName: string,
    businessDescription: string,
    businessAddress: string,
    businessPhone: string,
    businessHours: string,
    currentPassword: string,
    newPassword: string,
    confirmPassword: string)

  /** The `user` prop each form is opened with. */
  datatype EditProps = EditProps(
    name: string,
    phone: Option<string>,
    description: Option<string>,
    businessName: Option<string>,
    businessDescription: Option<string>,
    businessAddress: Option<string>,
    businessPhone: Option<string>,
    businessHours: Option<string>,
    profilePicture: Option<string>)

  /** Form fields, which double as the keys of the submitted body. */
  datatype Key =
    | NameKey | PhoneKey | DescriptionKey
    | BusinessNameKey | BusinessDescriptionKey | BusinessAddressKey | BusinessPhoneKey | BusinessHoursKey
    | ProfilePictureKey | CurrentPasswordKey | NewPasswordKey | ConfirmPasswordKey

  /** One schema issue: the field it is reported on and its message. */
  datatype Issue = Issue(path: Key, message: string)

  const PasswordTooShort := "Password must be at least 6 characters"
  const PasswordsDiffer := "Passwords don't match"

  /** The value of a text field.  The picture is not a form value here: the administrator form keeps it in its own state. */
  function ValueOf(d: EditData, k: Key): string {
    match k
    case NameKey => d.name
    case PhoneKey => d.phone
    case DescriptionKey => d.description
    case BusinessNameKey => d.businessName
    case BusinessDescriptionKey => d.businessDescription
    case BusinessAddressKey => d.businessAddress
    case BusinessPhoneKey => d.businessPhone
    case BusinessHoursKey => d.businessHours
    case ProfilePictureKey => ""
    case CurrentPasswordKey => d.currentPassword
    case NewPasswordKey => d.newPassword
    case ConfirmPasswordKey => d.confirmPassword
  }

  /** The fields a schema puts a minimum length on, in the order the schema declares them. */
  function CheckedFields(kind: Kind): seq<Key> {
    match kind
    case VeteranForm => [NameKey, PhoneKey, DescriptionKey]
    case BusinessForm => [NameKey, PhoneKey, BusinessNameKey, BusinessDescriptionKey,
                          BusinessAddressKey, BusinessPhoneKey, BusinessHoursKey]
    case AdminForm => [NameKey]
  }

  /** The `.min(n)` of a checked field; 0 for a field its schema does not check. */
  function MinLength(kind: Kind, k: Key): nat {
    match k
    case NameKey => UserModel.NameMin
    case PhoneKey => if kind == AdminForm then 0 else 10
    case DescriptionKey => if kind == VeteranForm then UserModel.DescriptionMin else 0
    case BusinessNameKey => if kind == BusinessForm then UserModel.BusinessNameMin else 0
    case BusinessDescriptionKey => if kind == BusinessForm then UserModel.BusinessDescriptionMin else 0
    case BusinessAddressKey => if kind == BusinessForm then UserModel.BusinessAddressMin else 0
    case BusinessPhoneKey => if kind == BusinessForm then UserModel.BusinessPhoneMin else 0
    case BusinessHoursKey => if kind == BusinessForm then UserModel.BusinessHoursMin else 0
    case _ => 0
  }

  /** The message of a field's `.min(n, message)`. */
  function MinMessage(kind: Kind, k: Key): string {
    match k
    case NameKey => "Name must be at least 2 characters"
    case PhoneKey => "Phone number must be at least 10 characters"
    case DescriptionKey => "Description must be at least 10 characters"
    case BusinessNameKey => "Business name must be at least 2 characters"
    case BusinessDescriptionKey => "Business description must be at least 10 characters"
    case BusinessAddressKey => "Business address must be at least 5 characters"
    case BusinessPhoneKey => "Business phone must be at least 10 characters"
    case BusinessHoursKey => "Business hours must be specified"
    case _ => ""
  }

  /** The issues of the field checks over `fields`, in order; none exactly when every field is long enough. */
  function FieldIssues(kind: Kind, d: EditData, fields: seq<Key>): (r: seq<Issue>)
    ensures r == [] <==> forall i :: 0 <= i < |fields| ==> JsLength(ValueOf(d, fields[i])) >= MinLength(kind, fields[i])
    ensures forall j :: 0 <= j < |r| ==> r[j].path in fields && JsLength(ValueOf(d, r[j].path)) < MinLength(kind, r[j].path)
    ensures |r| <= |fields|
  {
    if fields == [] then []
    else
      var rest := FieldIssues(kind, d, fields[1..]);
      if JsLength(ValueOf(d, fields[0])) < MinLength(kind, fields[0])
      then [Issue(fields[0], MinMessage(kind, fields[0]))] + rest
      else rest
  }

  /** The first refinement: a non-empty new password has at least six characters. */
  predicate PasswordLengthOk(d: EditData) {
    d.newPassword != "" ==> JsLength(d.newPassword) >= UserModel.PasswordMin
  }

  /** The second refinement: once either new-password field is filled in, the two are equal. */
  predicate PasswordsMatch(d: EditData) {
    (d.newPassword != "" || d.confirmPassword != "") ==> d.newPassword == d.confirmPassword
  }

  /**
   * Every issue the schema reports: the field checks, then each refinement
   * that fails.  zod reports a refinement even when a field check has
   * already failed.
   */
  function Issues(kind: Kind, d: EditData): seq<Issue> {
    FieldIssues(kind, d, CheckedFields(kind))
      + (if PasswordLengthOk(d) then [] else [Issue(NewPasswordKey, PasswordTooShort)])
      + (if PasswordsMatch(d) then [] else [Issue(ConfirmPasswordKey, PasswordsDiffer)])
  }

  /** The resolver lets `onSubmit` run only when the schema reports no issue. */
  predicate Accepted(kind: Kind, d: EditData) {
    Issues(kind, d) == []
  }

  /** Acceptance is exactly: every checked field long enough, and both refinements hold. */
  lemma AcceptedIff(kind: Kind, d: EditData)
    ensures Accepted(kind, d) <==>
      (forall k :: k in CheckedFields(kind) ==> JsLength(ValueOf(d, k)) >= MinLength(kind, k))
      && PasswordLengthOk(d) && PasswordsMatch(d)
  {
    var fields := CheckedFields(kind);
    var f := FieldIssues(kind, d, fields);
    if Accepted(kind, d) {
      assert f == [];
      forall k | k in fields ensures JsLength(ValueOf(d, k)) >= MinLength(kind, k) {
        var i :| 0 <= i < |fields| && fields[i] == k;
      }
    }
  }

  /** The veteran schema: name of 2, phone of 10 and description of 10 characters, and the refinements. */
  lemma VeteranSchema(d: EditData)
    ensures Accepted(VeteranForm, d) <==>
      JsLength(d.name) >= 2 && JsLength(d.phone) >= 10 && JsLength(d.description) >= 10 && PasswordLengthOk(d) && PasswordsMatch(d)
  {
    AcceptedIff(VeteranForm, d);
    assert CheckedFields(VeteranForm)[1] == PhoneKey && CheckedFields(VeteranForm)[2] == DescriptionKey;
  }

  /** The business schema: name 2, phone 10, and the business fields 2, 10, 5, 10 and 5, and the refinements. */
  lemma BusinessSchema(d: EditData)
    ensures Accepted(BusinessForm, d) <==>
      JsLength(d.name) >= 2 && JsLength(d.phone) >= 10
      && JsLength(d.businessName) >= 2 && JsLength(d.businessDescription) >= 10 && JsLength(d.businessAddress) >= 5
      && JsLength(d.businessPhone) >= 10 && JsLength(d.businessHours) >= 5
      && PasswordLengthOk(d) && PasswordsMatch(d)
  {
    AcceptedIff(BusinessForm, d);
    var fields := CheckedFields(BusinessForm);
    assert fields[1] == PhoneKey && fields[2] == BusinessNameKey && fields[3] == BusinessDescriptionKey;
    assert fields[4] == BusinessAddressKey && fields[5] == BusinessPhoneKey && fields[6] == BusinessHoursKey;
  }

  /** The administrator schema: a name of 2 characters and the refinements; the picture is not checked. */
  lemma AdminSchema(d: EditData)
    ensures Accepted(AdminForm, d) <==> JsLength(d.name) >= 2 && PasswordLengthOk(d) && PasswordsMatch(d)
  {
    AcceptedIff(AdminForm, d);
  }

  /** `data.newPassword && data.currentPassword`: the password fields are added to the body. */
  predicate SendsPassword(d: EditData) {
    d.newPassword != "" && d.currentPassword != ""
  }

  /** The profile fields each form always sends. */
  predicate Profile(kind: Kind, k: Key) {
    match k
    case NameKey => true
    case PhoneKey => kind != AdminForm
    case DescriptionKey => kind == VeteranForm
    case BusinessNameKey => kind == BusinessForm
    case BusinessDescriptionKey => kind == BusinessForm
    case BusinessAddressKey => kind == BusinessForm
    case BusinessPhoneKey => kind == BusinessForm
    case BusinessHoursKey => kind == BusinessForm
    case _ => false
  }

  /** The profile fields a form sends are exactly the fields its schema checks. */
  lemma SentFieldsAreChecked(kind: Kind, k: Key)
    ensures Profile(kind, k) <==> k in CheckedFields(kind)
  {
  }

  /** The JSON body: a key is present with its value, or undefined. */
  datatype Body = Body(
    name: Option<string>,
    phone: Option<string>,
    description: Option<string>,
    businessName: Option<string>,
    businessDescription: Option<string>,
    businessAddress: Option<string>,
    businessPhone: Option<string>,
    businessHours: Option<string>,
    profilePicture: Option<string>,
    currentPassword: Option<string>,
    newPassword: Option<string>)

  const EmptyBody := Body(None, None, None, None, None, None, None, None, None, None, None)

  /** The entry of a body under a key; a body has no confirmation entry. */
  function Get(b: Body, k: Key): Option<string> {
    match k
    case NameKey => b.name
    case PhoneKey => b.phone
    case DescriptionKey => b.description
    case BusinessNameKey => b.businessName
    case BusinessDescriptionKey => b.businessDescription
    case BusinessAddressKey => b.businessAddress
    case BusinessPhoneKey => b.businessPhone
    case BusinessHoursKey => b.businessHours
    case ProfilePictureKey => b.profilePicture
    case CurrentPasswordKey => b.currentPassword
    case NewPasswordKey => b.newPassword
    case ConfirmPasswordKey => None
  }

  /** A profile field the form sends, with its form value. */
  function Sent(kind: Kind, d: EditData, k: Key): Option<string> {
    if Profile(kind, k) then Some(ValueOf(d, k)) else None
  }

  /**
   * The body `onSubmit` sends.  The administrator form also sends its
   * picture state, which `JSON.stringify` drops while it is undefined.
   */
  function Payload(kind: Kind, d: EditData, picture: Option<string>): Body {
    Body(Sent(kind, d, NameKey), Sent(kind, d, PhoneKey), Sent(kind, d, DescriptionKey),
         Sent(kind, d, BusinessNameKey), Sent(kind, d, BusinessDescriptionKey),
         Sent(kind, d, BusinessAddressKey), Sent(kind, d, BusinessPhoneKey), Sent(kind, d, BusinessHoursKey),
         if kind == AdminForm then picture else None,
         if SendsPassword(d) then Some(d.currentPassword) else None,
         if SendsPassword(d) then Some(d.newPassword) else None)
  }

  /**
   * The body carries exactly the form's profile fields with their values,
   * the administrator's picture when there is one, and the current and new
   * password exactly when both are filled in; the confirmation is never sent.
   */
  lemma PayloadContents(kind: Kind, d: EditData, picture: Option<string>)
    ensures var p := Payload(kind, d, picture);
      (forall k :: Profile(kind, k) ==> Get(p, k) == Some(ValueOf(d, k)))
      && (forall k :: (!Profile(kind, k) && k != ProfilePictureKey && k != CurrentPasswordKey && k != NewPasswordKey)
                      ==> Get(p, k).None?)
      && (Get(p, CurrentPasswordKey).Some? <==> SendsPassword(d))
      && (Get(p, NewPasswordKey).Some? <==> SendsPassword(d))
      && (SendsPassword(d) ==> p.currentPassword == Some(d.currentPassword) && p.newPassword == Some(d.newPassword))
      && Get(p, ConfirmPasswordKey).None?
      && p.profilePicture == (if kind == AdminForm then picture else None)
  {
  }

  /**
   * A new password typed with the current one left empty passes the schema
   * (no refinement asks for the current password) and is then left out of
   * the body, so the password does not change.
   */
  lemma NewPasswordWithoutCurrentDropped(kind: Kind, d: EditData, picture: Option<string>)
    requires d.newPassword != "" && d.currentPassword == ""
    ensures Payload(kind, d, picture).newPassword.None?
  {
  }

  /** A password the body carries has passed both refinements: six characters at least, and confirmed. */
  lemma SentPasswordConfirmed(kind: Kind, d: EditData, picture: Option<string>)
    requires Accepted(kind, d)
    requires Payload(kind, d, picture).newPassword.Some?
    ensures var pw := Payload(kind, d, picture).newPassword.value;
      JsLength(pw) >= 6 && pw == d.confirmPassword
  {
    AcceptedIff(kind, d);
  }

  /** The fields `PUT /api/auth/profile` destructures from a body; `profilePicture` is not among them. */
  function RouteBody(b: Body): ProfileRoute.ProfileBody {
    ProfileRoute.ProfileBody(b.name, b.phone, b.businessName, b.businessDescription, b.businessAddress,
                             b.businessPhone, b.businessHours, b.description, b.currentPassword, b.newPassword)
  }

  /** The route asks for a password change on a form's body exactly when the form sent both passwords. */
  lemma RouteSeesPasswordChangeIff(kind: Kind, d: EditData, picture: Option<string>)
    ensures ProfileRoute.AsksPasswordChange(RouteBody(Payload(kind, d, picture))) <==> SendsPassword(d)
  {
  }

  /** An accepted form's name is non-empty, so the route always replaces the stored name with it. */
  lemma AcceptedFormRenames(kind: Kind, d: EditData, picture: Option<string>)
    requires Accepted(kind, d)
    ensures var b := RouteBody(Payload(kind, d, picture)); Truthy(b.name) && b.name.value == d.name
  {
    AcceptedIff(kind, d);
    assert NameKey in CheckedFields(kind);
  }

  /**
   * What the route makes of an administrator's body: only the name and,
   * when both passwords were sent, the password change.  The picture the
   * form sends is never stored by this route.
   */
  lemma AdminBodyChangesOnlyName(u: UserModel.UserDoc, d: EditData, picture: Option<string>, hashed: string)
    requires Accepted(AdminForm, d)
    ensures ProfileRoute.Merge(u, RouteBody(Payload(AdminForm, d, picture)), hashed)
      == u.(name := d.name, password := if SendsPassword(d) then hashed else u.password)
  {
    AcceptedFormRenames(AdminForm, d, picture);
    RouteSeesPasswordChangeIff(AdminForm, d, picture);
    NameOnlyMerge(u, RouteBody(Payload(AdminForm, d, picture)), hashed);
  }

  /** A body with a name and no other profile field changes the name and, when asked, the password. */
  lemma NameOnlyMerge(u: UserModel.UserDoc, b: ProfileRoute.ProfileBody, hashed: string)
    requires Truthy(b.name)
    requires b.phone.None? && b.description.None? && b.businessName.None? && b.businessDescription.None?
    requires b.businessAddress.None? && b.businessPhone.None? && b.businessHours.None?
    ensures ProfileRoute.Merge(u, b, hashed)
      == u.(name := b.name.value, password := if ProfileRoute.AsksPasswordChange(b) then hashed else u.password)
  {
    var u1 := u.(password := if ProfileRoute.AsksPasswordChange(b) then hashed else u.password);
    var u2 := ProfileRoute.AssignContact(u1, b);
    assert u2 == u1.(name := b.name.value);
  }

  /** `defaultValues`: the prop's fields or "", and empty password fields. */
  function Defaults(kind: Kind, user: EditProps): (d: EditData)
    ensures d.currentPassword == "" && d.newPassword == "" && d.confirmPassword == ""
    ensures forall k :: Profile(kind, k) && k != NameKey ==> ValueOf(d, k) == PropOf(user, k).GetOr("")
    ensures d.name == user.name
  {
    var e := (v: Option<string>) => v.GetOr("");
    match kind
    case VeteranForm =>
      EditData(user.name, e(user.phone), e(user.description), "", "", "", "", "", "", "", "")
    case BusinessForm =>
      EditData(user.name, e(user.phone), "", e(user.businessName), e(user.businessDescription),
               e(user.businessAddress), e(user.businessPhone), e(user.businessHours), "", "", "")
    case AdminForm =>
      EditData(user.name, "", "", "", "", "", "", "", "", "", "")
  }

  /** The prop a field is filled from. */
  function PropOf(user: EditProps, k: Key): Option<string> {
    match k
    case NameKey => Some(user.name)
    case PhoneKey => user.phone
    case DescriptionKey => user.description
    case BusinessNameKey => user.businessName
    case BusinessDescriptionKey => user.businessDescription
    case BusinessAddressKey => user.businessAddress
    case BusinessPhoneKey => user.businessPhone
    case BusinessHoursKey => user.businessHours
    case ProfilePictureKey => user.profilePicture
    case _ => None
  }

  /**
   * Opening a form and saving it untouched sends no password, and the
   * refinements never object to it; the administrator form then submits
   * whenever the stored name has two characters.
   */
  lemma UntouchedFormSendsNoPassword(kind: Kind, user: EditProps, picture: Option<string>)
    ensures var d := Defaults(kind, user);
      PasswordLengthOk(d) && PasswordsMatch(d)
      && Payload(kind, d, picture).currentPassword.None? && Payload(kind, d, picture).newPassword.None?
      && (kind == AdminForm ==> (Accepted(kind, d) <==> JsLength(user.name) >= 2))
  {
    var d := Defaults(kind, user);
    if kind == AdminForm {
      AdminSchema(d);
    }
  }

  /** A form on screen: its values, the administrator's picture state, and `isLoading`. */
  class ProfileEditForm {
    const kind: Kind
    var data: EditData
    var picture: Option<string>
    var isLoading: bool

    constructor(kind: Kind, user: EditProps)
      ensures this.kind == kind && data == Defaults(kind, user)
      ensures picture == user.profilePicture && !isLoading
    {
      this.kind := kind;
      data := Defaults(kind, user);
      picture := user.profilePicture;
      isLoading := false;
    }

    /** The user edits the values. */
    method SetData(d: EditData)
      modifies this`data
      ensures data == d
    {
      data := d;
    }

    /** The picture upload's callback stores the new URL. */
    method SetPicture(url: string)
      modifies this`picture
      ensures picture == Some(url)
    {
      picture := Some(url);
    }

    /**
     * The resolver, then `onSubmit`: nothing is sent unless the schema
     * accepts the values; otherwise the body is built field by field and
     * sent, and `isLoading` is cleared in the `finally`.
     */
    method Submit() returns (sent: Option<Body>)
      modifies this`isLoading
      ensures sent.Some? <==> Accepted(kind, data)
      ensures sent.Some? ==> sent.value == Payload(kind, data, picture)
      ensures sent.Some? ==> !isLoading
      ensures sent.None? ==> isLoading == old(isLoading)
    {
      if !Accepted(kind, data) {
        return None;
      }
      isLoading := true;
      var body := EmptyBody.(name := Some(data.name));
      match kind {
        case VeteranForm =>
          body := body.(phone := Some(data.phone), description := Some(data.description));
        case BusinessForm =>
          body := body.(phone := Some(data.phone), businessName := Some(data.businessName));
          body := body.(businessDescription := Some(data.businessDescription), businessAddress := Some(data.businessAddress));
          body := body.(businessPhone := Some(data.businessPhone), businessHours := Some(data.businessHours));
        case AdminForm =>
          body := body.(profilePicture := picture);
      }
      if data.newPassword != "" && data.currentPassword != "" {
        body := body.(currentPassword := Some(data.currentPassword), newPassword := Some(data.newPassword));
      }
      sent := Some(body);
      isLoading := false;
    }
  }
}
