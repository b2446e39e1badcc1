/**
 * `POST /api/auth/signin`: both credentials must be given, the account must
 * exist and be active, and the password must match the stored hash; a
 * session token naming the user and their type is then set as a cookie for
 * one week.  The address is looked up through the email path's setters.
 */
module SigninRoute {
  import opened Wrappers
  import opened Http
  import opened Text
  import opened UserModel
  import SignupRoute
  import PlaceModel

  datatype SigninBody = SigninBody(email: Option<string>, password: Option<string>)

  /** The user object of the response. */
  datatype SigninView = SigninView(
    id: Id,
    name: string,
    email: string,
    userType: Role,
    place: Option<Id>,
    phone: Option<string>,
    businessName: Option<string>,
    description: Option<string>)

  /** The `token` cookie's options. */
  datatype Cookie = Cookie(name: string, httpOnly: bool, secure: bool, sameSite: string, maxAge: int)

  datatype SignedIn = SignedIn(user: SigninView, claims: SignupRoute.Claims, cookie: Cookie)

  const MissingCredentials := HttpError(400, "Email and password are required")
  const InvalidCredentials := HttpError(400, "Invalid email or password")
  const Deactivated := HttpError(403, "Account is deactivated. Please contact support.")

  function View(u: UserDoc): SigninView {
    SigninView(u.id, u.name, u.email, u.userType, u.place, u.phone, u.businessName, u.description)
  }

  /**
   * The handler.  `matches(plain, hash)` is `bcrypt.compare`; `production`
   * is whether `NODE_ENV` is "production", which makes the cookie secure.
   */
  function Signin(users: seq<UserDoc>, b: SigninBody, matches: (string, string) -> bool, production: bool)
    : Result<SignedIn, HttpError>
  {
    if !Truthy(b.email) || !Truthy(b.password) then Err(MissingCredentials)
    else
      match FindByEmail(users, EmailQuery(b.email.value))
      case None => Err(InvalidCredentials)
      case Some(u) =>
        if !u.isActive then Err(Deactivated)
        else if !matches(b.password.value, u.password) then Err(InvalidCredentials)
        else Ok(SignedIn(View(u), SignupRoute.Claims(u.id, RoleName(u.userType)),
                         Cookie("token", true, production, "lax", SessionMaxAge)))
  }

  /** A missing or empty email or password gets 400 before any lookup. */
  lemma MissingCredentialsRefused(users: seq<UserDoc>, b: SigninBody, matches: (string, string) -> bool, production: bool)
    requires !Truthy(b.email) || !Truthy(b.password)
    ensures Signin(users, b, matches, production) == Err(HttpError(400, "Email and password are required"))
  {
  }

  /**
   * An unknown address and a wrong password for an active account get the
   * very same answer, so the response does not tell which addresses exist.
   */
  lemma UnknownAndWrongPasswordAlike(users: seq<UserDoc>, b: SigninBody, matches: (string, string) -> bool, production: bool)
    requires Truthy(b.email) && Truthy(b.password)
    requires var found := FindByEmail(users, EmailQuery(b.email.value));
      found.None? || (found.value.isActive && !matches(b.password.value, found.value.password))
    ensures Signin(users, b, matches, production) == Err(InvalidCredentials)
  {
  }

  /** A deactivated account gets 403 whatever the password: the check comes before the comparison. */
  lemma DeactivatedBeforePassword(users: seq<UserDoc>, b: SigninBody, m1: (string, string) -> bool, m2: (string, string) -> bool, production: bool)
    requires Truthy(b.email) && Truthy(b.password)
    requires var found := FindByEmail(users, EmailQuery(b.email.value)); found.Some? && !found.value.isActive
    ensures Signin(users, b, m1, production) == Signin(users, b, m2, production) == Err(Deactivated)
  {
  }

  /**
   * A successful sign-in is for an active account with that address whose
   * hash matches the password; the token carries exactly its id and type,
   * and the cookie is the HTTP-only `token` cookie, lax, secure in
   * production, for 604800 seconds.
   */
  lemma SigninSuccess(users: seq<UserDoc>, b: SigninBody, matches: (string, string) -> bool, production: bool)
    requires Signin(users, b, matches, production).Ok?
    ensures Truthy(b.email) && Truthy(b.password)
    ensures var s := Signin(users, b, matches, production).value;
      exists u :: u in users && u.email == Lower(Trim(b.email.value)) && u.isActive
        && matches(b.password.value, u.password)
        && s.claims == SignupRoute.Claims(u.id, RoleName(u.userType))
        && s.user.id == u.id && s.user.email == u.email
    ensures var c := Signin(users, b, matches, production).value.cookie;
      c.name == "token" && c.httpOnly && c.secure == production && c.sameSite == "lax" && c.maxAge == 604800
  {
    var u := FindByEmail(users, EmailQuery(b.email.value)).value;
    assert u in users;
  }

  /** Appending a user whose address is new leaves the earlier lookups alone and finds the new one. */
  lemma {:induction false} FindByEmailAppend(users: seq<UserDoc>, u: UserDoc)
    requires FindByEmail(users, u.email).None?
    ensures FindByEmail(users + [u], u.email) == Some(u)
  {
    if users != [] {
      assert (users + [u])[1..] == users[1..] + [u];
      FindByEmailAppend(users[1..], u);
    }
  }

  /**
   * Whoever signs up can sign in at once, against the users the sign-up
   * stored, with the address and password they registered (when the hash stored for the password matches it), and gets
   * the same claims as the sign-up token.
   */
  lemma SignupThenSignin(users: seq<UserDoc>, places: seq<PlaceModel.PlaceDoc>, b: SignupRoute.SignupBody, hashed: string, id: Id, now: int,
                         matches: (string, string) -> bool, production: bool)
    requires SignupRoute.Signup(users, places, b, hashed, id, now).0.Ok?
    requires matches(b.password.value, hashed)
    ensures var c := SignupRoute.Signup(users, places, b, hashed, id, now).0.value;
      var r := Signin(SignupRoute.Signup(users, places, b, hashed, id, now).1, SigninBody(b.email, b.password), matches, production);
      r.Ok? && r.value.claims == c.claims && r.value.user == View(c.user)
  {
    var c := SignupRoute.Signup(users, places, b, hashed, id, now).0.value;
    SignupRoute.SignupCreatesValidUser(users, places, b, hashed, id, now);
    SignupRoute.CheckPassed(users, places, b);
    FindByEmailAppend(users, c.user);
    assert c.user.isActive;
  }
}
