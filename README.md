# Deshi Directive — a Dafny model of its decision logic

Deshi Directive is a Next.js application. Through it, newcomers ("newbies") book local guides ("veterans") for tours of a place, negotiate a price and pay for the tour. The same site hosts a small marketplace of local shops and restaurants, community fundraisers and reviews, and an admin area.

This project models the parts of the application that decide things:

- **Tour negotiation.** Covers the tour-request document and its status, the creation route's chain of guards, the participant lists, and the per-request update and payment route. It also covers the two copies of the turn-taking rule: one in the offers dialog, one on the guide's page.
- **Accounts.** Covers the User schema with its role-conditional requirements, and the sign-up route and sign-up form. It also covers the admin user dialog, profile update, sign-in, and the three profile edit forms.
- **Marketplace orders.** Covers single-seller order creation, the order listing, and the seller's statistics loop.
- **Admin listings and places.** Covers filters, pagination arithmetic, the unique key of a place, and the insert-if-absent seeding of sample places.
- **Community.** Covers donating to a fundraiser, by an in-place update, and posting and listing reviews.
- **Uploads.** Covers the file-upload hook's validation and its list of uploaded files.

## Layout

Each source file is modelled by one module, usually in a file of its own:

- common.dfy: Wrappers, Http, Text, Seqs — shared: Option/Result, HTTP errors and sessions, JavaScript truthiness, `trim`, `toLowerCase`
- paging.dfy: Paging — `skip`/`limit` and `Math.ceil(total / limit)` of the listing routes
- tour_model.dfy: TourModel, PaymentModel — models/TourRequest.ts, models/Payment.ts
- tour_requests.dfy: TourRequestsRoute — app/api/tours/requests/route.ts, app/api/tours/my/route.ts, app/tour/page.tsx
- tour_update.dfy: TourUpdate — app/api/tours/[id]/route.ts
- offers_modal.dfy: OffersModal — components/ui/OffersModal.tsx
- guide_requests.dfy: GuideRequests — app/guide/requests/page.tsx
- user_model.dfy: UserModel — models/User.ts
- signup_route.dfy: SignupRoute — app/api/auth/signup/route.ts
- signup_page.dfy: SignupPage — app/signup/page.tsx
- admin_users_page.dfy: AdminUsersPage — app/admin/users/page.tsx
- profile_route.dfy: ProfileRoute — app/api/auth/profile/route.ts
- signin_route.dfy: SigninRoute — app/api/auth/signin/route.ts
- edit_forms.dfy: EditForms — components/profiles/VeteranEditForm.tsx, BusinessEditForm.tsx, AdminEditForm.tsx
- order_model.dfy: OrderModel — models/Order.ts
- orders_route.dfy: OrdersRoute — app/api/orders/route.ts
- seller_stats.dfy: SellerStats — app/api/seller/stats/route.ts
- places.dfy: PlaceModel, AdminPlaces — models/Place.ts, app/api/admin/places/route.ts
- admin_users_route.dfy: AdminUsersRoute — app/api/admin/users/route.ts
- seed.dfy: Seed — lib/seed.ts
- fundraisers.dfy: FundraiserModel, DonateRoute — models/Fundraiser.ts, app/api/community/fundraisers/donate/route.ts
- reviews.dfy: ReviewsRoute — app/api/community/reviews/route.ts
- file_upload.dfy: FileUpload — hooks/use-file-upload.ts

## Conventions

- **Collections.** A collection is a `seq` in creation order, so "newest first" is its reverse. A route handler is a function from the collection before to its response and the collection after. Where the source changes a loaded document or component state step by step, the model is a class whose methods change those fields. Examples are the profile route, the seed loop, the donation, the upload hook and the forms.
- **Sessions.** A session is `NoToken`, `DecodedNull` (decoding resolved to null), `DecodeThrew` (decoding threw), or `Decoded(userId, userType)`. With next-auth's `decode`, null comes back only for an empty token and a token it cannot decrypt throws. A route's `if (!token)` and `if (!decoded)` checks catch the first two (`Session.Refused`); a throw skips them and reaches the route's catch, which answers 500. Token decoding (`decode`, `jwt.verify`) and `bcrypt` are outside the model. `bcrypt.compare` is a parameter `matches`, and the hash of a new password is a parameter `hashed`.
- **Ids.** Ids are opaque values compared for equality. New ids and times are parameters: `id`, `newId(k)`, `now`.
- **Mongoose validation.** Validation is modelled as it runs:
  - A query's filter on the email path goes through the path's setters (`trim`, `lowercase`) before it is matched.
  - A `required` string must be present and non-empty.
  - A minimum length is checked after the setters.
  - An empty string on an ObjectId path (a user's `place`) does not cast, so saving fails whatever the role.
  - Defaults fill absent paths when a document is saved and when it is loaded.
- **Lengths.** JavaScript's `.length`, Mongoose's `minlength` and zod's `.min` count UTF-16 code units, and so does `Text.JsLength`. Every minimum-length check in the model uses it, so a character outside the Basic Multilingual Plane counts twice.
- **Search.** The listing routes' case-insensitive `$regex` search is a parameter `hit`, a predicate on documents, applied only when a search text is given.
- **Numbers.** Amounts, prices, ratings and counts are whole numbers, and `parseInt` results are integers. `Math.ceil(total / limit)` is a `JsNum`: `NaN` for `0 / 0`, `Infinity` for a positive total over 0.

## Where the code was followed

- **No state guards on update or payment.** The per-request route app/api/tours/[id]/route.ts accepts any status in a PATCH and never touches the offers log. Its payment marks the request "confirmed", not "completed". It checks neither the caller nor the current status. The model follows this code: TourUpdate.CancelledCanReopen and TourUpdate.PayIgnoresStatus state it. The model has no state machine with guarded transitions.
- **Unchecked fields on creation.** Creating a tour request checks neither that `newbie` is the caller nor that the place exists.
- **Admin user creation.** `POST /api/admin/users` stores the body's password as given, unhashed (AdminUsersRoute.PostCreated).
- **Administrator edit form.** The form sends its picture, but the profile route never stores it (EditForms.AdminBodyChangesOnlyName).
- **Password changes in the edit forms.** A new password typed without the current one passes the edit form's schema and is then left out of the body. The password does not change and no error is shown (EditForms.NewPasswordWithoutCurrentDropped).
- **Name length at sign-up.** The sign-up route never checks a name's length, but the User schema does. A short name therefore passes the route's checks and fails at the insert with 500 (SignupRoute.ShortNameIsServerError).
- **local_admin.** The sign-up route rejects `local_admin` outright. The User schema's place requirement for it only matters for users the admin creates.

## Model

| member | source | states |
|---|---|---|
| TourModel.Create | models/TourRequest.ts:24-54 | saving a new tour request: specified by CreateRequiredPaths and CreateDefaults |
| TourModel.ParseStatus | models/TourRequest.ts:49-53 | the enum check accepts exactly the five status names and refuses every other string |
| TourModel.StatusNamesRoundTrip | models/TourRequest.ts:3-8 | each status's name parses back to that status, and the five names are distinct |
| TourModel.StoreOffers | models/TourRequest.ts:42-48 | each offers entry keeps its who and amount, and `at` defaults to the insertion time |
| TourModel.CreateRequiredPaths | models/TourRequest.ts:25-38 | a document without newbie, place, startTime or endTime is refused; veteran and the three prices may be left out |
| TourModel.CreateDefaults | models/TourRequest.ts:39-54 | a created request keeps its fields, has status "requested" and the creation time when they are left out, and dates undated offers now |
| TourModel.WhoIsUnconstrained | models/TourRequest.ts:19-19 | an offers entry whose who is neither "newbie" nor "veteran" is still stored: the schema does not enforce the interface's type |
| PaymentModel.Create | models/Payment.ts:13-26 | a receipt is stored exactly when the tour request and the four card strings are given and non-empty and the amount is given and at least 0 |
| PaymentModel.NoCardFormat | models/Payment.ts:20-23 | card strings of any format are accepted |
| TourRequestsRoute.My | app/api/tours/my/route.ts:6-35 | the caller's requests: specified by MyRequests (401 and 500 exactly in their cases, otherwise exactly the caller's requests, newest first) |
| TourRequestsRoute.List | app/api/tours/requests/route.ts:7-21 | the unfiltered listing: specified by ListNewest |
| TourRequestsRoute.Post | app/api/tours/requests/route.ts:23-100 | the request-creation handler: specified by PostUnauthenticated, PostRejectsNonNewbies, PostMissingFields, PostInternalOnlyOnThrow, PostCreated, ZeroOfferLeavesLogEmpty and PostTrustsNewbieAndPlace |
| TourRequestsRoute.PostUnauthenticated | app/api/tours/requests/route.ts:24-99 | without decoded claims the body and the store are not looked at: no token or a null decode gives 401, a decode that throws gives the catch's 500 |
| TourRequestsRoute.PostRejectsNonNewbies | app/api/tours/requests/route.ts:44-49 | a caller who is not a stored user of type "newbie" gets 403 before the body is read |
| TourRequestsRoute.PostMissingFields | app/api/tours/requests/route.ts:60-64 | once the caller is a newbie, a missing newbie, veteran, place, startTime or endTime gives 400 "Missing fields" |
| TourRequestsRoute.PostInternalOnlyOnThrow | app/api/tours/requests/route.ts:24-99 | the schema never refuses what the guards let through, so the route answers 500 exactly when decoding the token threw |
| TourRequestsRoute.PostCreated | app/api/tours/requests/route.ts:66-91 | a created request has a stored guide as veteran, end strictly after start, status "requested", the body's ids and prices, and the opening offer in its log exactly when the offer is non-zero |
| TourRequestsRoute.ZeroOfferLeavesLogEmpty | app/api/tours/requests/route.ts:90-90 | an opening offer of 0 is falsy and leaves the log empty |
| TourRequestsRoute.PostTrustsNewbieAndPlace | app/api/tours/requests/route.ts:51-91 | any other non-empty newbie and place ids give the same outcome: creation checks neither that newbie is the caller nor that the place exists |
| TourRequestsRoute.ListNewest | app/api/tours/requests/route.ts:10-13 | the listing holds at most 100 requests, the most recently created, newest first |
| TourRequestsRoute.Involving | app/api/tours/my/route.ts:26-28 | the filter never returns more requests than it is given |
| TourRequestsRoute.InvolvingExactly | app/api/tours/my/route.ts:26-28 | a request is kept exactly when the caller is its newbie or its veteran |
| TourRequestsRoute.InvolvingKeepsOrder | app/api/tours/my/route.ts:29-29 | the filter keeps the requests it keeps in their order |
| TourRequestsRoute.ReverseNewestFirst | app/api/tours/my/route.ts:29-29 | the store reversed is newest first |
| TourRequestsRoute.MyRequests | app/api/tours/my/route.ts:8-34 | 401 exactly for no token or a null decode, 500 "Failed" exactly when decoding throws; otherwise every request naming the caller as newbie or veteran and nothing else, newest first |
| TourRequestsRoute.TourPageNeverCreates | app/tour/page.tsx:38-44 | the body the tour page sends, with `time` and without startTime and endTime, is always refused; once the token is decoded the answer is 403 or 400 "Missing fields" |
| TourRequestsRoute.TourPageFixedCreates | app/tour/page.tsx:38-44 | a body carrying the chosen window as startTime and endTime creates the request of a newbie for a guide with a valid window |
| OffersModal.ModalMyTurn | components/ui/OffersModal.tsx:33-44 | the dialog's turn rule: specified by NoTurnOutsideNegotiation, NewbieOpens, TurnsAlternate, TurnNeverLastAuthor and ModalLogsAlternate |
| OffersModal.LastWho | components/ui/OffersModal.tsx:28-29 | the last entry's who, and none exactly when the log is empty |
| OffersModal.NoTurnOutsideNegotiation | components/ui/OffersModal.tsx:33-37 | outside "requested" and "offered" nobody has the turn |
| OffersModal.NewbieOpens | components/ui/OffersModal.tsx:38-40 | on an empty log the request's newbie has the turn and a veteran who is not also the newbie does not |
| OffersModal.TurnsAlternate | components/ui/OffersModal.tsx:41-42 | after a newbie entry exactly the veteran has the turn, after a veteran entry exactly the newbie |
| OffersModal.TurnNeverLastAuthor | components/ui/OffersModal.tsx:36-44 | the party with the turn never wrote the last entry, unless one user is both parties |
| OffersModal.SelfNegotiation | components/ui/OffersModal.tsx:30-31 | a user who is both newbie and veteran may answer their own offer |
| OffersModal.OutsiderOnlyRejects | components/ui/OffersModal.tsx:30-31 | a viewer who is neither party never has the turn, so only Reject is enabled |
| OffersModal.ControlsNeedTurn | components/ui/OffersModal.tsx:142-156 | Send Offer needs the turn and a non-zero amount, Accept needs the turn, Reject is always enabled |
| OffersModal.BodiesByParty | components/ui/OffersModal.tsx:46-102 | Send Offer names the sender's own price field, Accept sends "confirmed" and Reject "cancelled" |
| OffersModal.SentBodiesAtHandler | components/ui/OffersModal.tsx:46-102 | at the PATCH handler a newbie's counter-offer changes nothing, a veteran's stores the price and sets "offered", Accept confirms, Reject cancels, and none writes the log |
| OffersModal.ModalLogsAlternate | components/ui/OffersModal.tsx:36-44 | a log built by the dialog's turns alternates strictly, starting with the newbie, and every such log could be built |
| GuideRequests.ShowsControls | app/guide/requests/page.tsx:155-161 | the page's controls gated on that rule: specified by PageAgreesWithDialog and ControlsOnlyWhileOpen |
| GuideRequests.GuideMyTurn | app/guide/requests/page.tsx:85-91 | the guide page's turn rule as written: specified by TurnRulesDiffer, TurnRulesDifferOnlyOnEmptyLog and GuideOpensAsWritten |
| GuideRequests.MyRequests | app/guide/requests/page.tsx:66-69 | the filter never returns more requests than it is given |
| GuideRequests.MyRequestsExactly | app/guide/requests/page.tsx:66-69 | a listed request is kept exactly when its guide reference is the viewer's id |
| GuideRequests.GuideMyTurnFixed | app/guide/requests/page.tsx:85-91 | the rule the comment at line 87 describes is the dialog's rule |
| GuideRequests.TurnRulesDiffer | app/guide/requests/page.tsx:85-91 | the page and the dialog disagree exactly when the request is open and the last who is blank, and the viewer is the guide but not the newbie |
| GuideRequests.TurnRulesDifferOnlyOnEmptyLog | app/guide/requests/page.tsx:86-87 | when every entry names one of the two parties, they disagree only on an empty log |
| GuideRequests.GuideOpensAsWritten | app/guide/requests/page.tsx:87-87 | as written, a guide gets the turn on an untouched open request, although the dialog gives the opening to the newbie |
| GuideRequests.GuideWaitsWhenFixed | app/guide/requests/page.tsx:87-89 | with the corrected rule the guide waits on an empty log, has the turn after a newbie entry, and not after their own |
| GuideRequests.PageAgreesWithDialog | app/guide/requests/page.tsx:76-161 | on populated requests the page, gating its controls on its as-written rule, disagrees with the dialog exactly on an open request with no named last entry viewed by one party only; with entries naming only the two parties, exactly on an open request with an empty log |
| GuideRequests.FixedPageAgreesWithDialog | app/guide/requests/page.tsx:76-161 | with the rule line 87's comment describes, the page would show its controls exactly when the dialog gives the viewer the turn |
| GuideRequests.ControlsOnlyWhileOpen | app/guide/requests/page.tsx:83-86 | the controls appear only while the request is "requested" or "offered" |
| GuideRequests.ReplaceMatching | app/guide/requests/page.tsx:50-52 | the list keeps its length, entries with another id are unchanged, and the matching entries become the server's copy, or stay as they were when it sent none |
| GuideRequests.ReplaceIdempotent | app/guide/requests/page.tsx:211-215 | replacing with the server's copy twice is the same as replacing once |
| GuideRequests.GuideRequestsPage.constructor | app/guide/requests/page.tsx:10-12 | the page starts loading, with no user and no requests |
| GuideRequests.GuideRequestsPage.Load | app/guide/requests/page.tsx:17-39 | loading ends; the user is whoever the session lookup returned, and the listed requests replace the list only when that lookup succeeded |
| GuideRequests.GuideRequestsPage.View | app/guide/requests/page.tsx:61-69 | the page lists requests only for a signed-in guide, and then shows exactly the guide's filtered requests |
| GuideRequests.GuideRequestsPage.UpdateStatus | app/guide/requests/page.tsx:41-59 | on success the matching entries are replaced by the server's copy, on failure the list is kept; the user and loading state do not change |
| GuideRequests.GuideRequestsPage.OnUpdated | app/guide/requests/page.tsx:211-215 | the entry with the updated request's id becomes that request; nothing else changes |
| UserModel.Construct | models/User.ts:29-150 | saving a new user: specified by ConstructValid, ResaveRoundTrip, RoleConditionalRequirements, NewbieConstruct and ShortTrimmedNameRefused; an empty place fails its ObjectId cast whatever the role |
| UserModel.ParseRole | models/User.ts:52-64 | the enum accepts exactly the six role names and gives back the role so named |
| UserModel.ParseRoleName | models/User.ts:3-9 | every role's name parses back to that role |
| UserModel.IndexOf | models/User.ts:42-45 | the position of the first `@` of an address, or none exactly when it has none |
| UserModel.ConstructValid | models/User.ts:29-150 | whatever the schema saves satisfies every validator, is trimmed and lowercased where the setters say, and gets the given id and creation time |
| UserModel.NormalizeStored | models/User.ts:33-131 | the trim and lowercase setters leave a stored user's fields as they are |
| UserModel.StoredPassesValidators | models/User.ts:29-136 | no validator fails on a stored user's fields |
| UserModel.ResaveRoundTrip | models/User.ts:29-150 | saving a stored user again gives back the same user |
| UserModel.RoleConditionalRequirements | models/User.ts:65-136 | a stored user has a place when veteran, local_admin, local_shop or restaurant, a phone when veteran, local_shop or restaurant, the five business fields with their minimum lengths when a business, and a description of at least 10 UTF-16 code units when a veteran |
| UserModel.EmptyPathsRefused | models/User.ts:65-136 | a document with an empty place is refused on "place" whatever its role, and an empty business path or description fails its minimum length whether or not the role requires it |
| UserModel.NewbieConstruct | models/User.ts:29-150 | a newbie with a valid name, address and password and no other path is saved with the default picture, no place and the given status |
| UserModel.ShortTrimmedNameRefused | models/User.ts:30-35 | the minimum length is checked after trimming: "  a  " is refused as a name |
| UserModel.FindById | models/User.ts:152-153 | the lookup finds a stored user with that id, and none exactly when no stored user has it |
| UserModel.FindByEmail | models/User.ts:36-46 | the lookup finds a stored user with exactly that address, and none exactly when no stored user has it |
| SignupRoute.Signup | app/api/auth/signup/route.ts:8-211 | the sign-up handler, with the users after the insert: specified by SignupCreatesValidUser (a created user is valid, stored last and gets a session), SignupRefusedStoresNothing, UniqueIndexNeverFires and EmptyFieldsNotCopied |
| SignupRoute.Check | app/api/auth/signup/route.ts:28-140 | the route's guard chain: specified by CheckPassed (what a passing body has), AdminTypesRejected, CaseVariantEmailRefused and ShortNameIsServerError |
| SignupRoute.SignupCreatesValidUser | app/api/auth/signup/route.ts:142-203 | whatever registers is a valid stored user of one of the four self-service types, stored with the password's hash, under an address no stored user had, appended after the users there were, and answered with a week-long token naming the new user and its type |
| SignupRoute.SignupRefusedStoresNothing | app/api/auth/signup/route.ts:142-211 | a refused sign-up leaves the users as they were |
| SignupRoute.AdminTypesRejected | app/api/auth/signup/route.ts:35-44 | "admin" and "local_admin" cannot self-register: 400 "Invalid user type" |
| SignupRoute.ShortNameIsServerError | app/api/auth/signup/route.ts:28-33 | the route never checks the name's length, so a name under two UTF-16 code units after trimming passes its checks and fails at the insert with 500 |
| SignupRoute.UniqueIndexNeverFires | app/api/auth/signup/route.ts:134-163 | the duplicate lookup goes through the same setters as the stored address, so once every check has passed the unique index cannot refuse the insert |
| SignupRoute.CaseVariantEmailRefused | app/api/auth/signup/route.ts:134-140 | an address differing from a stored one only in case or surrounding blanks is refused as taken |
| SignupRoute.CheckPassed | app/api/auth/signup/route.ts:28-140 | a body that passes has the four required fields, a self-service type, a password of at least 6, place and phone for service types, a description of at least 10 for veterans, the five business minimums for businesses, an active stored place when it names one, and an unused address |
| SignupRoute.EmptyFieldsNotCopied | app/api/auth/signup/route.ts:152-161 | an empty optional field is not copied into the new user |
| SignupPage.ClientEmailMeaning | app/signup/page.tsx:186-186 | the scan accepts an address exactly when `\S+@\S+\.\S+` matches somewhere in it |
| SignupPage.SchemaEmailPassesClient | app/signup/page.tsx:184-188 | every address the schema's pattern accepts also passes the form's test |
| SignupPage.ClientEmailLooser | app/signup/page.tsx:184-188 | the form's test is looser: an address with a one-letter top-level domain passes it and is refused by the schema |
| SignupPage.ValidHasNoFieldError | app/signup/page.tsx:175-265 | an accepted form records no message under any key |
| SignupPage.InvalidHasFieldError | app/signup/page.tsx:175-265 | a refused form records a message under some key |
| SignupPage.NoErrorsIffValid | app/signup/page.tsx:263-264 | a key is recorded exactly when its field fails, and the form is valid exactly when the record is empty |
| SignupPage.BusinessFieldErrors | app/signup/page.tsx:226-261 | the five business checks apply only to the business roles, each with its "required" and "too short" messages |
| SignupPage.CheckedIsErrors | app/signup/page.tsx:175-263 | checking the fields one after another in the form's order yields exactly the error record |
| SignupPage.RequestBody | app/signup/page.tsx:275-298 | the body always carries name, email, password, user type and picture; place and phone exactly for the service roles; the description exactly for guides; the five business fields exactly for businesses, each as entered |
| SignupPage.ResetNeedsReentry | app/signup/page.tsx:397-409 | after switching to a service role the form is refused until place and phone are entered again; name, email and password are kept |
| SignupPage.FormPassesRouteChecks | app/signup/page.tsx:275-306 | an accepted form passes every check of the signup route except that its place must be stored and active and its address unused |
| SignupPage.BlankPaddedNameAccepted | app/signup/page.tsx:178-182 | the form counts code units before trimming: " a" passes the form and, once the route's checks pass, is refused by the schema with 500 |
| SignupPage.LooseEmailIsServerError | app/signup/page.tsx:184-188 | an address the form accepts and the schema refuses reaches the insert and comes back as 500 |
| SignupPage.SignupForm.constructor | app/signup/page.tsx:68-87 | the form starts empty, as a newbie, not loading and with no errors |
| SignupPage.SignupForm.SelectUserType | app/signup/page.tsx:397-409 | picking a card sets the user type and empties place, phone, description and the five business fields |
| SignupPage.SignupForm.IdentityChecks | app/signup/page.tsx:178-204 | the name, email, password and confirmation checks record exactly their messages |
| SignupPage.SignupForm.ContactChecks | app/signup/page.tsx:206-224 | the place, phone and description checks record exactly their messages |
| SignupPage.SignupForm.BusinessChecks | app/signup/page.tsx:226-261 | the five business checks record exactly their messages |
| SignupPage.SignupForm.ValidateForm | app/signup/page.tsx:175-265 | the errors become the form's error record, and the form is accepted exactly when it is valid |
| SignupPage.SignupForm.BuildRequestData | app/signup/page.tsx:275-298 | the body grown field by field is the request body of the current inputs |
| SignupPage.SignupForm.Submit | app/signup/page.tsx:267-306 | a body is sent exactly when the form is valid, and it is the request body; an invalid form sets only the errors |
| AdminUsersPage.RequiredFields | app/admin/users/page.tsx:263-299 | the list holds exactly the keys the user type and mode demand (the password only when creating), in the form's order |
| AdminUsersPage.FirstBlank | app/admin/users/page.tsx:203-214 | the scan stops at the first blank field of the list; every field before it is filled |
| AdminUsersPage.EarlierRequiredListed | app/admin/users/page.tsx:263-299 | in the ordered list of required keys, a required key ranked before the one at position i is scanned before it |
| AdminUsersPage.UpperChar | app/admin/users/page.tsx:207-207 | `toUpperCase` maps a lower-case ASCII letter to a capital and leaves every other character alone |
| AdminUsersPage.SpaceCapitals | app/admin/users/page.tsx:208-208 | inserting a space before each capital never shortens the text |
| AdminUsersPage.DropSpacesOfSpaced | app/admin/users/page.tsx:208-208 | removing the spaces again gives back a text that had none |
| AdminUsersPage.LabelRoundTrip | app/admin/users/page.tsx:205-210 | the message label of a camel-case key determines the key |
| AdminUsersPage.SubmitDataKeys | app/admin/users/page.tsx:217-225 | the payload carries every field with its value, and the password exactly when creating or when one was typed |
| AdminUsersPage.FormatUserType | app/admin/users/page.tsx:373-390 | a text that names no role is shown as it is |
| AdminUsersPage.FormatDistinguishesRoles | app/admin/users/page.tsx:373-390 | two roles with the same label are the same role |
| AdminUsersPage.FormatConflatesLabels | app/admin/users/page.tsx:373-390 | the unknown type "Newbie" is shown exactly like the role newbie |
| AdminUsersPage.EditForm | app/admin/users/page.tsx:307-321 | the form loaded for editing has an empty password and the stored user's type |
| AdminUsersPage.CreateFields | app/admin/users/page.tsx:217-225 | creating from the dialog sends every field as a present path, the place and the empty ones included, and no picture |
| AdminUsersPage.CreateWithoutPlaceRefused | app/admin/users/page.tsx:118-132 | a create without a chosen place is refused on "place" whatever the user type, and on every business field and description left empty; nothing is stored |
| AdminUsersPage.CreateBody | app/admin/users/page.tsx:217-225 | the corrected payload carries exactly the keys whose value is not an empty string |
| AdminUsersPage.CreateBodyCreatesNewbie | app/api/admin/users/route.ts:81-93 | with that payload, the default form with a valid name, address and password creates a newbie with no place, the values typed and the status chosen, and appends it |
| AdminUsersPage.EditWithoutPasswordOmitsIt | app/admin/users/page.tsx:217-233 | editing a loaded user without typing a password sends a PUT whose body has no password |
| AdminUsersPage.AdminUserDialog.constructor | app/admin/users/page.tsx:115-133 | the dialog starts with the empty form, no user being edited, nothing open and nothing in flight |
| AdminUsersPage.AdminUserDialog.ResetForm | app/admin/users/page.tsx:179-196 | the form is back to its initial values and no user is being edited; the flags are kept |
| AdminUsersPage.AdminUserDialog.Edit | app/admin/users/page.tsx:301-331 | a fetched user loads its form, becomes the edited user and opens the edit dialog; a failed fetch changes nothing |
| AdminUsersPage.AdminUserDialog.Submit | app/admin/users/page.tsx:198-237 | ignored while in flight; the first blank required field stops it with its message; otherwise the request for the form is sent exactly when every required field is filled |
| AdminUsersPage.AdminUserDialog.Complete | app/admin/users/page.tsx:239-259 | the submission ends; on success the open dialog closes and the form resets, on failure the form is kept |
| ProfileRoute.Merge | app/api/auth/profile/route.ts:46-72 | the field-by-field assignments before `save`: specified by SavedFields, TrimOverwrite, MergeSaved, ApplyContact and ApplyBusiness, and by EditForms.NameOnlyMerge |
| ProfileRoute.Put | app/api/auth/profile/route.ts:7-104 | the profile handler: specified by PutNeedsToken (no token 401, no claims 500), PutRejections (unknown user 404, wrong current password 400), PutSuccess and MergeSaved (the saved merge replaces exactly the caller's document), EmptyBodyKeepsUser and VeteranClearingPhoneIsServerError |
| ProfileRoute.View | app/api/auth/profile/route.ts:78-96 | the response's user carries the stored document's id, name, email, type, place, phone, description and business fields, and no password |
| ProfileRoute.IndexOfId | app/api/auth/profile/route.ts:23-30 | a position is found exactly when a user with that id is stored, and it holds that user |
| ProfileRoute.PutNeedsToken | app/api/auth/profile/route.ts:9-20 | no token gives 401 "No token provided"; a token that does not verify, or a null payload (there is no null check), gives 500; nothing is stored |
| ProfileRoute.PutRejections | app/api/auth/profile/route.ts:23-56 | an unknown user gets 404 and, when a change is asked for, a wrong current password gets 400; nothing is stored |
| ProfileRoute.SavedFields | app/api/auth/profile/route.ts:72-72 | a saved document is valid and holds the merged values through the schema's trimming and lower-casing setters |
| ProfileRoute.TrimOverwrite | app/api/auth/profile/route.ts:62-70 | overwriting a stored trimmed field and saving stores the trimmed new value when given and the old one otherwise |
| ProfileRoute.MergeSaved | app/api/auth/profile/route.ts:46-72 | a saved update keeps email, type, place, picture, status and creation time; the password is the new hash exactly when both passwords were sent; the name changes only when non-empty; every other field is the trimmed new value when present |
| ProfileRoute.PutSuccess | app/api/auth/profile/route.ts:23-96 | a successful update replaces only the caller's document, by the saved merge, and answers with its view |
| ProfileRoute.EmptyBodyKeepsUser | app/api/auth/profile/route.ts:32-96 | a body with none of the fields saves the document unchanged and shows it |
| ProfileRoute.VeteranClearingPhoneIsServerError | app/api/auth/profile/route.ts:62-72 | a veteran sending an empty phone fails the schema and gets 500 (or 400 for a wrong password first) |
| ProfileRoute.ApplyContact | app/api/auth/profile/route.ts:61-62 | the name, phone and description assignments, applied one at a time, give the merged contact fields |
| ProfileRoute.ApplyBusiness | app/api/auth/profile/route.ts:63-69 | the five business assignments, applied one at a time, give the merged business fields |
| ProfileRoute.UserCollection.constructor | app/api/auth/profile/route.ts:22-23 | the collection holds the given users |
| ProfileRoute.UserCollection.HandlePut | app/api/auth/profile/route.ts:7-104 | the response and the stored users afterwards are those of the handler's specification |
| SigninRoute.Signin | app/api/auth/signin/route.ts:8-87 | the sign-in handler: specified by MissingCredentialsRefused, UnknownAndWrongPasswordAlike, DeactivatedBeforePassword, SigninSuccess and SignupThenSignin |
| SigninRoute.MissingCredentialsRefused | app/api/auth/signin/route.ts:15-22 | a missing or empty email or password gets 400 "Email and password are required" |
| SigninRoute.UnknownAndWrongPasswordAlike | app/api/auth/signin/route.ts:24-48 | an unknown address and a wrong password for an active account get the same 400 "Invalid email or password" |
| SigninRoute.DeactivatedBeforePassword | app/api/auth/signin/route.ts:35-42 | a deactivated account gets 403 whatever the password |
| SigninRoute.SigninSuccess | app/api/auth/signin/route.ts:42-79 | a sign-in succeeds only for a stored active account with that (lower-cased, trimmed) address whose hash matches; the claims are its id and type and the cookie is the HTTP-only lax `token` cookie, secure in production, for one week |
| SigninRoute.FindByEmailAppend | app/api/auth/signin/route.ts:24-27 | storing a user with a new address makes the lookup find it |
| SigninRoute.SignupThenSignin | app/api/auth/signin/route.ts:15-79 | whoever signs up can sign in, against the users the sign-up stored, with the address and password they registered and gets the sign-up token's claims |
| EditForms.FieldIssues | components/profiles/BusinessEditForm.tsx:42-58 | no issue exactly when every checked field reaches its minimum length; each issue names a checked field that is too short |
| EditForms.AcceptedIff | components/profiles/VeteranEditForm.tsx:35-70 | a form is accepted exactly when every checked field is long enough, a new password has six UTF-16 code units and the new password equals its confirmation |
| EditForms.VeteranSchema | components/profiles/VeteranEditForm.tsx:35-70 | the veteran form needs a name of 2, a phone of 10 and a description of 10 UTF-16 code units, plus both refinements |
| EditForms.BusinessSchema | components/profiles/BusinessEditForm.tsx:40-85 | the business form needs name 2, phone 10, business name 2, description 10, address 5, phone 10 and hours 5 UTF-16 code units, plus both refinements |
| EditForms.AdminSchema | components/profiles/AdminEditForm.tsx:35-65 | the administrator form needs only a name of 2 UTF-16 code units and both refinements |
| EditForms.SentFieldsAreChecked | components/profiles/BusinessEditForm.tsx:114-126 | the profile fields a form sends are exactly those its schema checks |
| EditForms.PayloadContents | components/profiles/VeteranEditForm.tsx:93-112 | the body carries the form's profile fields with their values, the administrator's picture, the current and new password exactly when both are filled, and never the confirmation |
| EditForms.NewPasswordWithoutCurrentDropped | components/profiles/VeteranEditForm.tsx:44-63 | a new password with an empty current one passes the schema and is left out of the body |
| EditForms.SentPasswordConfirmed | components/profiles/VeteranEditForm.tsx:48-67 | a password the body carries has at least six UTF-16 code units and equals its confirmation |
| EditForms.RouteSeesPasswordChangeIff | components/profiles/VeteranEditForm.tsx:102-105 | the profile route asks for a password change on the body exactly when the form sent both passwords |
| EditForms.AcceptedFormRenames | components/profiles/VeteranEditForm.tsx:37-37 | an accepted form's name is non-empty, so the route always takes it |
| EditForms.AdminBodyChangesOnlyName | components/profiles/AdminEditForm.tsx:92-110 | the route stores only the administrator's name and, when sent, the password; the picture is dropped |
| EditForms.NameOnlyMerge | app/api/auth/profile/route.ts:46-69 | a body with a non-empty name and no other profile field changes only the name and, when both passwords are sent, the password |
| EditForms.Defaults | components/profiles/BusinessEditForm.tsx:100-111 | each form opens with the user's values (or "") in its fields and empty password fields |
| EditForms.UntouchedFormSendsNoPassword | components/profiles/AdminEditForm.tsx:83-102 | a form saved untouched sends no password, passes both refinements, and the administrator's form submits exactly when the name has two UTF-16 code units |
| EditForms.ProfileEditForm.constructor | components/profiles/AdminEditForm.tsx:73-90 | a form opens with its defaults, the user's picture and not loading |
| EditForms.ProfileEditForm.SetData | components/profiles/VeteranEditForm.tsx:80-91 | the form holds the values the user entered |
| EditForms.ProfileEditForm.SetPicture | components/profiles/AdminEditForm.tsx:165-168 | the uploaded picture's address becomes the picture state |
| EditForms.ProfileEditForm.Submit | components/profiles/VeteranEditForm.tsx:93-133 | a body is sent exactly when the schema accepts the values, and it is the form's payload; loading ends afterwards |
| OrderModel.Create | models/Order.ts:26-53 | saving a new order: specified by CreateOkIff (saved exactly when every line and the total pass) and CreateDefaults |
| OrderModel.AllStatusesListed | models/Order.ts:47-51 | the enumeration lists every order status, each once |
| OrderModel.CreateOkIff | models/Order.ts:26-53 | the schema accepts an order exactly when seller and total are given, the total is not negative and every item has a name, a non-negative price and a quantity of at least one |
| OrderModel.CreateDefaults | models/Order.ts:26-53 | a created order is valid, keeps its seller, user, items and total, and defaults to status "pending" and the creation time |
| OrderModel.LineNonNegative | models/Order.ts:42-43 | a line with a non-negative price and a positive quantity contributes a non-negative amount |
| OrderModel.ItemsTotalNonNegative | models/Order.ts:42-46 | items that pass validation never add up to a negative total |
| OrdersRoute.List | app/api/orders/route.ts:7-49 | the order listing: specified by ListOwnOrders (answers exactly when the skip is not negative, only the caller's orders, all counted, the page being the window of the caller's orders newest first) |
| OrdersRoute.PlaceOrder | app/api/orders/route.ts:97-127 | the seller check and the insert once every product is found: specified by PlaceOrderFailsOnInvalidLine, PlaceOrderCreated and PlaceOrderSeller |
| OrdersRoute.Post | app/api/orders/route.ts:52-130 | the order-creation handler: specified by PostUnauthenticated, PostNeedsItems, UnknownProductFails, MixedSellersRefused, PostCreated and PostFailsOnInvalidLine |
| OrdersRoute.FindProduct | app/api/orders/route.ts:84-87 | a product found has the item's id; none is found only when no product has it |
| OrdersRoute.Quantity | app/api/orders/route.ts:92-92 | `Number(it.quantity \|\| 1)`: a missing or zero quantity counts as one |
| OrdersRoute.Resolve | app/api/orders/route.ts:83-95 | the cart resolves exactly when every product is found, line for line from the product and the cart's quantity |
| OrdersRoute.Distinct | app/api/orders/route.ts:97-99 | the distinct sellers are exactly the sellers of the lines, the first line's seller first |
| OrdersRoute.Sellers | app/api/orders/route.ts:98-98 | one seller per line, in order |
| OrdersRoute.Stored | app/api/orders/route.ts:119-119 | the stored items are the lines without their seller |
| OrdersRoute.PostUnauthenticated | app/api/orders/route.ts:53-130 | without decoded claims nothing is stored: no token or a null decode gives 401 "Unauthorized", a decode that throws gives the catch's 500 "Failed" |
| OrdersRoute.PostNeedsItems | app/api/orders/route.ts:72-77 | a missing or empty cart gets 400 "Invalid items" |
| OrdersRoute.UnknownProductFails | app/api/orders/route.ts:83-87 | one unknown product makes the whole order fail with 500 and nothing is stored |
| OrdersRoute.MixedSellersRefused | app/api/orders/route.ts:97-104 | a cart from two sellers gets 400 "Multiple sellers in cart not supported" |
| OrdersRoute.TwoSellers | app/api/orders/route.ts:97-100 | two different sellers leave more than one distinct seller |
| OrdersRoute.OneSeller | app/api/orders/route.ts:97-111 | at most one distinct seller means every line has the first line's seller |
| OrdersRoute.PostCreated | app/api/orders/route.ts:79-127 | a created order belongs to the caller and the cart's one seller, has one line per cart item with the product's name and price, totals price times quantity, is "paid" exactly when a payment was sent, and is appended |
| OrdersRoute.PostFailsOnInvalidLine | app/api/orders/route.ts:106-130 | with the products found and one seller, the order fails with 500 exactly when some line fails validation |
| OrdersRoute.PlaceOrderFailsOnInvalidLine | app/api/orders/route.ts:97-130 | once the cart has one seller, the insert fails with 500 exactly when some stored line fails validation, and then nothing is stored |
| OrdersRoute.PlaceOrderCreated | app/api/orders/route.ts:106-127 | a placed order is valid, appended, belongs to the caller, holds the lines without their seller, totals price times quantity and is "paid" exactly when a payment was sent |
| OrdersRoute.PlaceOrderSeller | app/api/orders/route.ts:97-121 | a placed order's seller is the seller of every line of the cart |
| OrdersRoute.OwnedByExactly | app/api/orders/route.ts:30-32 | the query keeps exactly the caller's orders |
| OrdersRoute.ListWindow | app/api/orders/route.ts:25-46 | from page 1 with a positive limit the listing is the window of the caller's orders newest first, their count and the page count |
| OrdersRoute.ListOwnOrders | app/api/orders/route.ts:25-46 | the listing answers whenever the skip is not negative, shows only the caller's orders, counts all of them, and its page count is the least that holds them; from page 1 with a positive limit the page is exactly the caller's orders, newest first, after skipping the earlier pages, up to the limit |
| OrdersRoute.InReverse | app/api/orders/route.ts:33-33 | sorting newest first keeps the same orders |
| SellerStats.Stats | app/api/seller/stats/route.ts:8-65 | the statistics response: specified by StatsUnauthenticated, StatsFixedParts, UnnamedStatusZero, LastRowSetsCount and RevenueIgnoresRowOrder, and computed by HandleGet |
| SellerStats.InitialCountsTotal | app/api/seller/stats/route.ts:44-50 | the status map starts with every one of the five statuses at zero |
| SellerStats.CountsAfter | app/api/seller/stats/route.ts:52-55 | after the loop the map still has an entry for every status |
| SellerStats.HandleGet | app/api/seller/stats/route.ts:8-62 | the loop's response is the stats of the rows: 401 for no token or a null decode, 500 "Failed" when decoding throws, otherwise the counts, the summed revenue, the product count and zero feedback |
| SellerStats.StatsUnauthenticated | app/api/seller/stats/route.ts:9-65 | no token or a null decode gives 401 "Unauthorized"; a decode that throws gives the catch's 500 "Failed" |
| SellerStats.UnnamedStatusZero | app/api/seller/stats/route.ts:44-55 | a status with no row of its own is reported as zero |
| SellerStats.LastRowSetsCount | app/api/seller/stats/route.ts:52-53 | a status's count is that of the last row for it |
| SellerStats.RevenueSplit | app/api/seller/stats/route.ts:51-55 | the revenue of two runs of rows is the sum of their revenues |
| SellerStats.RevenueIgnoresRowOrder | app/api/seller/stats/route.ts:51-55 | the revenue does not depend on the order the aggregate returns its rows in |
| SellerStats.StatsFixedParts | app/api/seller/stats/route.ts:57-62 | a signed-in seller's answer carries the revenue of the rows, the product count given and zero feedback |
| Paging.CeilDiv | app/api/admin/places/route.ts:72-72 | for a positive limit the result is the least page count that holds the total; for a negative one, its mirror image |
| Paging.FloorBounds | app/api/admin/places/route.ts:72-72 | integer division rounds down |
| Paging.HasNextAgree | app/api/admin/places/route.ts:91-91 | for a non-negative limit `page < totalPages` and `page * limit < total` agree |
| Paging.MulMonotone | app/api/admin/users/route.ts:38-38 | multiplying by a non-negative limit keeps the order of pages |
| Paging.HasNextDisagreeOnNegativeLimit | app/api/admin/users/route.ts:63-63 | with limit -1 and 5 matches, page 1 has a next page by count but not by pages |
| Paging.Page | app/api/admin/users/route.ts:37-38 | a negative skip is refused; otherwise the page is the run of documents starting at the skip, of at most the limit's size, empty past the end |
| Paging.PageContents | app/api/admin/users/route.ts:37-38 | position k of page `page` holds document `(page - 1) * limit + k` |
| Paging.PageWindow | app/api/admin/users/route.ts:37-38 | for a skip that is not negative and a positive limit the cursor returns exactly the existing positions `skip` up to `skip + limit - 1`, in order |
| AdminUsersRoute.Post | app/api/admin/users/route.ts:81-109 | admin user creation: specified by PostCreated, PostDuplicateEmail and PostInvalid; the dialog's own payloads by AdminUsersPage.CreateWithoutPlaceRefused and CreateBodyCreatesNewbie |
| AdminUsersRoute.List | app/api/admin/users/route.ts:5-79 | the user listing: specified by ListPaged (which rows, the totals and both paging flags), ListUnfiltered and CountsOverrideActivity |
| AdminUsersRoute.Matches | app/api/admin/users/route.ts:16-34 | the listing's query filter: specified by FilterExactly and NoFilterKeepsAll |
| AdminUsersRoute.ActiveFilter | app/api/admin/users/route.ts:22-24 | the activity filter applies exactly when the parameter is non-empty and not "all" |
| AdminUsersRoute.Filter | app/api/admin/users/route.ts:16-34 | filtering never adds users |
| AdminUsersRoute.FilterExactly | app/api/admin/users/route.ts:16-34 | the query keeps exactly the users matching the type, activity and search filters |
| AdminUsersRoute.NoFilterKeepsAll | app/api/admin/users/route.ts:16-34 | without type, activity or search every user matches |
| AdminUsersRoute.ActivityPartition | app/api/admin/users/route.ts:40-45 | the active and the inactive matches together are all the matches without the activity filter |
| AdminUsersRoute.Rows | app/api/admin/users/route.ts:48-58 | one row per listed user, with that user's public fields |
| AdminUsersRoute.FilterReverse | app/api/admin/users/route.ts:34-36 | sorting newest first keeps exactly the matching users |
| AdminUsersRoute.ListPaged | app/api/admin/users/route.ts:5-71 | for page 1 or more and a positive limit the rows are the public fields of the matching users, newest first, at positions `(page - 1) * limit` up to `page * limit - 1`; at most `limit` of them, each a matching user's; `total` counts the matches, `hasNext` is `page * limit < total` and `hasPrev` is `page > 1` |
| AdminUsersRoute.SliceRowsMatch | app/api/admin/users/route.ts:33-37 | every row of a page taken from the matches is the public fields of a stored user that matches the query |
| AdminUsersRoute.ListUnfiltered | app/api/admin/users/route.ts:16-40 | without filters `total` is the number of users |
| AdminUsersRoute.CountsOverrideActivity | app/api/admin/users/route.ts:41-45 | the active and inactive counts ignore the activity parameter and add up to the matches without it |
| AdminUsersRoute.PostCreated | app/api/admin/users/route.ts:81-93 | a created user passes the schema, has a new address, is appended, keeps the body's password unhashed and the place as sent |
| AdminUsersRoute.PostDuplicateEmail | app/api/admin/users/route.ts:94-102 | an address already stored gets 400 "Email already exists" and nothing is stored |
| AdminUsersRoute.PostInvalid | app/api/admin/users/route.ts:87-107 | a body the schema refuses stores nothing |
| PlaceModel.Construct | models/Place.ts:14-55 | saving a new place: specified by ConstructValid |
| PlaceModel.ConstructValid | models/Place.ts:14-55 | a saved place passes the schema (trimmed name of 2, description of 10, country, state and city given), with the default image and active status unless given, created now |
| PlaceModel.FindByKey | app/api/admin/places/route.ts:128-132 | a place found has the key; none is found only when no place has it |
| PlaceModel.FindById | models/Place.ts:14-55 | a place found has the id; none is found only when no place has it |
| PlaceModel.AppendKeepsUnique | models/Place.ts:57-57 | adding a place whose name, city and state are not yet taken keeps the unique index satisfied |
| AdminPlaces.Create | app/api/admin/places/route.ts:105-164 | place creation: specified by CreateDuplicate (409 on a stored key), CreateStoresTrimmed and NonAdminRefused |
| AdminPlaces.List | app/api/admin/places/route.ts:26-103 | the place listing: specified by ListPaged (which places, the totals and the paging flags), ListPageZeroFails, StatsPartition and NonAdminRefused |
| AdminPlaces.Matches | app/api/admin/places/route.ts:46-59 | the listing's query filter: specified by FilterExactly |
| AdminPlaces.Filter | app/api/admin/places/route.ts:46-59 | filtering never adds places |
| AdminPlaces.FilterExactly | app/api/admin/places/route.ts:46-59 | the query keeps exactly the places matching the search and, when the parameter is non-empty, the activity it names |
| AdminPlaces.CountActive | app/api/admin/places/route.ts:74-83 | no more places are active than there are places |
| AdminPlaces.StatsPartition | app/api/admin/places/route.ts:74-94 | every place is counted once as active or inactive, the active count is the number of active places, and no places give zeros |
| AdminPlaces.ListPaged | app/api/admin/places/route.ts:26-95 | for an admin and page 1 or more the listing holds the matching places, newest first, at positions `(page - 1) * limit` up to `page * limit - 1`: at most `limit` matching places; it counts all matches, and has a next page exactly when `page * limit` is below the count |
| AdminPlaces.ListPageZeroFails | app/api/admin/places/route.ts:44-67 | page 0 skips a negative count and the answer is 500 "Failed to fetch places" |
| AdminPlaces.CreateDuplicate | app/api/admin/places/route.ts:128-139 | a trimmed name, city and state already stored gives 409 |
| AdminPlaces.CreateStoresTrimmed | app/api/admin/places/route.ts:141-156 | a created place is valid, holds the trimmed strings, is active unless told otherwise, is appended and keeps the key unique |
| AdminPlaces.NonAdminRefused | app/api/admin/places/route.ts:7-34 | a caller without an admin token gets 401 on both routes |
| Seed.Run | lib/seed.ts:52-77 | the seeding loop on values: specified by RunKeepsUnique, RunAddsSamples, RunCoversSamples, CreatesIffAbsent and SeedIdempotent, and carried out by PlaceCollection.SeedPlaces |
| Seed.CreatedKey | lib/seed.ts:57-64 | a created sample is stored under the key the lookup used |
| Seed.RunKeepsUnique | lib/seed.ts:56-69 | seeding keeps names, cities and states unique and adds at most one place per sample |
| Seed.SampleKeys | lib/seed.ts:57-61 | one lookup key per sample, in order |
| Seed.RunAddsSamples | lib/seed.ts:56-69 | every place seeding adds is a sample's |
| Seed.RunCoversSamples | lib/seed.ts:56-72 | after a successful run every sample's key is stored |
| Seed.KeepsFound | lib/seed.ts:56-69 | a place already found stays found |
| Seed.PrefixKept | lib/seed.ts:56-69 | seeding only appends: the stored places come first, unchanged |
| Seed.NothingToCreate | lib/seed.ts:56-72 | when every sample is already stored the run creates nothing and succeeds |
| Seed.SeedIdempotent | lib/seed.ts:52-77 | seeding again right after a successful run creates nothing |
| Seed.CreatesIffAbsent | lib/seed.ts:63-68 | a sample is created exactly when its key is not yet stored |
| Seed.PlaceCollection.constructor | lib/seed.ts:54-54 | the collection holds the given places |
| Seed.PlaceCollection.SeedPlaces | lib/seed.ts:52-77 | without a connection nothing changes and the result is the failure; otherwise the places afterwards and the success flag are those of the run, and the result says which |
| FundraiserModel.Construct | models/Fundraiser.ts:18-37 | saving a new fundraiser: specified by ConstructOkIff and ConstructDefaults |
| FundraiserModel.DonationsOf | models/Fundraiser.ts:30-36 | one stored donation per given donation, in order, dated now unless it carries its own date |
| FundraiserModel.ConstructOkIff | models/Fundraiser.ts:18-37 | the schema accepts a fundraiser exactly when it has a non-blank title, a non-negative goal, a creator, no negative `raised` and no donation with a negative amount |
| FundraiserModel.ConstructDefaults | models/Fundraiser.ts:18-37 | a created fundraiser is valid with its title trimmed, and defaults to nothing raised, active, created now, each donation dated now unless given |
| DonateRoute.Fundraiser.constructor | models/Fundraiser.ts:18-37 | a loaded fundraiser holds the stored document |
| DonateRoute.Fundraiser.AddDonation | app/api/community/fundraisers/donate/route.ts:48-50 | `raised` grows by the amount and one donation by the caller, of that amount, is appended |
| DonateRoute.FindFundraiser | app/api/community/fundraisers/donate/route.ts:41-46 | a fundraiser found has the id; none is found only when no stored fundraiser has it |
| DonateRoute.Checked | app/api/community/fundraisers/donate/route.ts:10-39 | the guards pass only for a decoded session of a stored user, a fundraiser id and a positive amount |
| DonateRoute.Donate | app/api/community/fundraisers/donate/route.ts:7-66 | a failed guard or an unknown fundraiser answers its error and changes nothing; a donation the schema would refuse answers 500 and changes nothing; otherwise only the found fundraiser takes the donation and the saved document is returned |
| DonateRoute.DonateUnauthenticated | app/api/community/fundraisers/donate/route.ts:8-64 | a missing token gets 401 "Authentication required", a null decode 401 "Invalid token", a decode that throws the catch's 500 |
| DonateRoute.DonateInvalidFields | app/api/community/fundraisers/donate/route.ts:27-32 | a signed-in caller gets 400 "Missing or invalid fields" exactly when the id is missing or the amount is absent, not a number, or not positive |
| DonateRoute.DonateUnknownUser | app/api/community/fundraisers/donate/route.ts:34-39 | with valid fields, a donor who is not stored gets 401 "User not found" |
| DonateRoute.DonatedStaysValid | app/api/community/fundraisers/donate/route.ts:48-51 | a fundraiser passing the save's validators (a non-empty title, blanks allowed, and the `min` bounds) still passes them after a positive donation, so the save succeeds; `raised` grows by exactly the amount and the earlier donations are kept, the new one last |
| DonateRoute.DonatedKeepsTotal | app/api/community/fundraisers/donate/route.ts:48-50 | when `raised` is the sum of the donations it still is after a donation |
| ReviewsRoute.PostStored | app/api/community/reviews/route.ts:22-51 | the handler on the stored reviews: specified by PostCreated and PostKeepsOrder |
| ReviewsRoute.Post | app/api/community/reviews/route.ts:22-51 | the body checks: specified by PostMissingFields (no reviewer, or a missing or zero rating) and PostRatingRange (a rating outside 1..5) |
| ReviewsRoute.List | app/api/community/reviews/route.ts:6-20 | the review listing: specified by ListNewest (the newest reviews first, at most the limit) |
| ReviewsRoute.PostMissingFields | app/api/community/reviews/route.ts:27-31 | a missing or empty reviewer, or a missing or zero rating, gets 400 "Missing fields", and nothing else does |
| ReviewsRoute.PostRatingRange | app/api/community/reviews/route.ts:32-36 | past that check, a rating outside 1 to 5 gets 400 "Invalid rating", and nothing else does |
| ReviewsRoute.PostCreated | app/api/community/reviews/route.ts:22-44 | a review is created exactly when a reviewer and a rating from 1 to 5 are given; it holds the body's reviewer, target user, place, rating and comment and is stored last; a refusal stores nothing |
| ReviewsRoute.ListNewest | app/api/community/reviews/route.ts:9-13 | the listing holds at most 50 reviews, the most recently created, newest first |
| ReviewsRoute.PostKeepsOrder | app/api/community/reviews/route.ts:37-43 | creating a review now keeps the store in creation order |
| FileUpload.DefaultConfig | hooks/use-file-upload.ts:32-40 | without options: one file, JPEG, PNG or WebP, at most 5 MiB, into the app's folder |
| FileUpload.GivenOptionsWin | hooks/use-file-upload.ts:32-40 | a given option replaces its default |
| FileUpload.Rejects | hooks/use-file-upload.ts:42-56 | a file is refused for its type exactly when the type is not accepted, and for its size exactly when the type is accepted and the size exceeds the limit |
| FileUpload.ValidFileIff | hooks/use-file-upload.ts:42-56 | a file is valid exactly when its type is accepted and its size is within the limit |
| FileUpload.SizeLimitInclusive | hooks/use-file-upload.ts:48-53 | a file of exactly 5 MiB passes the default limit and one byte more does not |
| FileUpload.ResultsInOrder | hooks/use-file-upload.ts:79-99 | all the uploads succeed exactly when none fails, and then their results are in file order |
| FileUpload.WithoutId | hooks/use-file-upload.ts:127-129 | removing never adds entries |
| FileUpload.WithoutIdExactly | hooks/use-file-upload.ts:127-129 | deleting keeps exactly the entries with another public id |
| FileUpload.WithoutIdSplits | hooks/use-file-upload.ts:127-129 | the filter works part by part, so the order is kept |
| FileUpload.WithoutAbsentId | hooks/use-file-upload.ts:127-129 | deleting an id that is not listed changes nothing |
| FileUpload.FileUploader.constructor | hooks/use-file-upload.ts:27-40 | the hook starts with its configuration, not uploading and with no files |
| FileUpload.FileUploader.CheckAll | hooks/use-file-upload.ts:68-72 | the loop accepts the batch exactly when every file is valid |
| FileUpload.FileUploader.UploadFiles | hooks/use-file-upload.ts:58-115 | too many files or an invalid one returns nothing and changes nothing; otherwise all results are appended in order and returned when every upload succeeds, nothing is kept when one fails, and uploading ends |
| FileUpload.FileUploader.DeleteFile | hooks/use-file-upload.ts:117-138 | a successful delete removes exactly the entries with that id; a failed one changes nothing |
| FileUpload.FileUploader.ClearFiles | hooks/use-file-upload.ts:140-142 | the list is emptied |
| Text.Trim | models/User.ts:33-33 | the schema's `trim` setter leaves no white space at either end and never lengthens the text |
| Text.TrimIdempotent | models/User.ts:33-33 | trimming twice is trimming once, so re-saving a stored document changes nothing |
| Text.JsLength | app/api/auth/signup/route.ts:46-46 | `.length` counts UTF-16 code units: at least one per character, at most two, and zero only for the empty string |
| Text.JsLengthConcat | app/api/auth/signup/route.ts:46-46 | the length of a concatenation is the sum of the lengths |
| Text.JsLengthBmp | app/api/auth/signup/route.ts:46-46 | a string inside the Basic Multilingual Plane has as many code units as characters |
| Text.AstralLength | app/api/auth/signup/route.ts:46-46 | a single character outside that plane, U+1F600, has length 2 |
| Text.Lower | models/User.ts:40-41 | the `lowercase` setter, on ASCII letters only: each of 'A'..'Z' becomes its lower-case letter, every other character stays, and the length is kept |

## Per-request tour route

The members below model app/api/tours/[id]/route.ts. Its path does not fit the table's source column, so they are listed here with the lines they model.

- TourUpdate.ApplyPatch, app/api/tours/[id]/route.ts lines 32-44: the changes a PATCH body makes to one request, specified by PatchKeepsLog, PatchStatus, PatchRejectsUnknownStatus, NewbieOfferIgnored and CancelledCanReopen.
- TourUpdate.Patch, app/api/tours/[id]/route.ts lines 24-46: the PATCH handler, a lookup by FindRequest (404 when absent) followed by ApplyPatch.
- TourUpdate.Pay, app/api/tours/[id]/route.ts lines 48-95: the payment handler, specified by PaySucceeded, PayNegativeAmount and PayIgnoresStatus.
- TourUpdate.FindRequest, app/api/tours/[id]/route.ts lines 29-31: the lookup finds a stored request with that id, and finds none exactly when no stored request has it.
- TourUpdate.PatchKeepsLog, app/api/tours/[id]/route.ts lines 32-38: a PATCH never changes the offers log, the newbie's offer, the newbie, the place or the times.
- TourUpdate.PatchStatus, app/api/tours/[id]/route.ts lines 32-36: the body's non-empty status wins, else a counter-offer sets "offered", else the status is kept.
- TourUpdate.PatchRejectsUnknownStatus, app/api/tours/[id]/route.ts lines 36-44: a status outside the enumeration fails at save with 500.
- TourUpdate.NewbieOfferIgnored, app/api/tours/[id]/route.ts lines 32-38: a body carrying only newbieOffer leaves the request exactly as it was.
- TourUpdate.CancelledCanReopen, app/api/tours/[id]/route.ts lines 36-36: there is no transition guard: a cancelled request can be set back to "requested".
- TourUpdate.PaySucceeded, app/api/tours/[id]/route.ts lines 54-88: a successful payment has a 16-digit card number, a 3- or 4-digit cvv and a non-negative amount, references the request and leaves it "confirmed" with nothing else changed.
- TourUpdate.PayNegativeAmount, app/api/tours/[id]/route.ts lines 78-93: a negative amount passes the handler's checks and fails only at the Payment schema, giving 500.
- TourUpdate.PayIgnoresStatus, app/api/tours/[id]/route.ts lines 86-87: payment is accepted whatever the request's status, including cancelled or already confirmed.

## Left out

- Text.Lower: lowers ASCII letters only. `toLowerCase` maps every cased character (U+212A KELVIN SIGN to "k", "Ä" to "ä"), and U+0130 even becomes two characters; full Unicode case mapping is not modelled, so an email with such characters is stored differently in the model.
- **Tokens and hashing.** Token signing and checking (`encode`, `decode`, `jwt.verify`) and `bcrypt` are outside the model. The sign-in and sign-up routes issue tokens with next-auth's `encode`, but the profile route checks them with `jsonwebtoken`'s `verify`. Whether such a token verifies there is not modelled: the profile route is modelled for a session that is already decoded, null or thrown.
- **The database.** Connection failures are left out, except for the seed's `connected` flag. So are `populate` joins, the `$regex` search (a parameter, see Conventions) and the sort implementation. The aggregations (seller statistics, place counts) are modelled through their result rows or an equivalent count. An empty place reference fails its ObjectId cast and is modelled (UserModel.ContactErrors). Any other malformed ObjectId, which makes Mongoose throw a CastError (500), is left out because ids are opaque. The search text is put into `$regex` unescaped, so a text that is not a valid regular expression, such as "(", makes the query throw and the route answer 500 (app/api/admin/places/route.ts:48-55, app/api/admin/users/route.ts:26-32). With `hit` a parameter, AdminPlaces.List and AdminUsersRoute.List always answer for such a text. An unparseable JSON body, which makes every route answer 500, is left out too.
- **Dates.** Date parsing and formatting are left out. A parsed time is an `Option<int>` given to the model.
- **JavaScript values.** The model does not distinguish a JSON `null` from an absent field. In the profile route, `phone: null` counts as "present" and is stored. The model has only present strings and absent fields.
- **Numbers.** Floating point is not modelled: upload progress, the "MB" message and fractional amounts or ratings. Amounts and ratings are whole numbers. `NaN` from `parseInt` is not modelled.
- **Services and concurrency.** Cloudinary uploads and deletes are parameters (`upload(i)`, `ok`). Concurrency is not modelled: the parallel uploads under `Promise.all`, and the read-modify-write race on a fundraiser's `raised`.
- **UI effects.** Toasts, `console` output, `router.push`, and the `onUpload…` callbacks of the upload hook are left out. So are the `fetchUsers` reload after an admin save, the profile-picture upload callbacks of the sign-up form, and the `isLoading` flag of the sign-up form after the request.
- SignupPage.SignupForm.ValidateForm: the form's `userType` check (app/signup/page.tsx:202-204) is not modelled. The user type is always one of the offered roles, so that message can never be recorded.
- SignupPage.SignupForm.SelectUserType: the card click is stated as the fields it sets and empties. It requires an offered user type, because the cards offer only those.
- FileUpload.FileUploader: the hook also returns `setUploadedFiles`, which lets a caller replace the list with anything. That raw setter is not modelled.
- DonateRoute.Donate: the save's validation is modelled as the whole changed document passing `ValidFundraiser`, not path by path. The answer is the saved document without the `populate` of its creator.
- ReviewsRoute.PostCreated: the review is modelled as the document handed to `Review.create`. The Review schema's own paths (models/Review.ts uses `from` and `to`, not `reviewer` and `targetUser`) are not part of this model. What that schema then makes of the document is not stated.
- Seed.PlaceCollection.SeedPlaces: the loop takes its sample list as a parameter, where the source always iterates its fixed list (`Seed.SamplePlaces` in the model). Which of the five samples pass the Place schema is not proved.
- AdminUsersPage.AdminUserDialog.Complete: the reload of the user list after a save is not modelled.

## Findings

All rows below come from reading the code; nothing was executed.

| source | as written | input that shows it | evidently intended | confidence | as-written member | corrected member |
|---|---|---|---|---|---|---|
| app/guide/requests/page.tsx:87 | on an empty offers log the guide (veteran) gets the turn | an open request with `offers: []`, viewed by its guide | the comment on the line and the offers dialog: the newbie opens, so the guide waits | not executed; high (the line contradicts its own comment) | GuideRequests.GuideOpensAsWritten | GuideRequests.GuideWaitsWhenFixed |
| app/tour/page.tsx:38-44 | the booking page posts `time` and no `startTime` or `endTime` | any booking submitted from the tour page | post the chosen window as `startTime` and `endTime`, which the creation route requires | not executed; high (the route answers 400 "Missing fields" for every such body) | TourRequestsRoute.TourPageNeverCreates | TourRequestsRoute.TourPageFixedCreates |
| app/admin/users/page.tsx:217-225 | the dialog posts every field, so a create with no place chosen sends `place: ""` and empty business fields and description | a newbie with a valid name, address and password and every other field left at its default | leave out the empty fields, as the sign-up form does, so that a newbie needs only name, address and password | not executed; high (`""` never casts to an ObjectId, and the route answers 500 with the validation message) | AdminUsersPage.CreateWithoutPlaceRefused | AdminUsersPage.CreateBodyCreatesNewbie |
