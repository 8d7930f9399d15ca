# Utopia backend: sessions, password reset, validators and route access

This project models the decision-making core of the Utopia tour-booking
backend (Express and Mongoose) and proves what it promises:

- **Session middleware** (`controllers/authController.js`):
  - where `protect` finds the token;
  - the order of its checks and the 401 each failed check gives;
  - the forgiving `isLoggedIn`;
  - the `restrictTo` role gate;
  - the credential checks of `logIn` and `signUp`;
  - what `createSendToken` returns.
- **Password-reset token lifecycle** (same file):
  - `forgotPassword` stores the digest and expiry of a fresh token, and rolls them back when the email fails;
  - `resetPassword` redeems a token once, strictly before its expiry;
  - `updatePassword`, both as written and as evidently intended.
- **Self-service handlers** (`controllers/userController.js`):
  - the in-place allow-list filter `filterObj`;
  - `getSelf`;
  - `updateSelf`;
  - `deleteSelf`, both as written and as evidently intended.
- **Schemas** (`models/tourModels.js`, `models/reviewModels.js`):
  - a tour is built from a body by the `trim` setters and the array defaults, then validated path by path;
  - on save the pre-save hook gives it the lower-cased slug of its title;
  - a review needs a user and a tour, and an optional rating in [0, 5].
- **Route access** (`routers/userRouters.js`, `routers/tourRouters.js`):
  - both routers are ordered registration tables run by a model of Express dispatch;
  - every layer whose path and method match contributes its handlers, in registration order;
  - the handlers run until one of them responds or passes an error to `next`;
  - from this follows, route by route, which requests need no session, which need a session, and which need a role.

How the model is built:

- **Libraries are parameters.** JWT signing and verification, SHA-256, bcrypt's `correctPassword`, `changedPasswordAfter` and the user schema's validators are function-valued fields of `AuthController.Oracles`. The clock and the outcome of sending an email are plain parameters.
- **The user collection** is a sequence of records held by the class `UserModel.UserStore`. `findOne` and `findById` return the first match.
- **Handlers that write the user collection are defined twice.** A pure `...Effect` function gives the new collection and the reply. A method with `modifies` runs the handler step by step and is proved equal to that function. This holds for `signUp`, `forgotPassword`, `resetPassword`, `updateSelf`, the intended `updatePassword` (`UpdateOwnPassword`) and the intended `deleteSelf` (`DeleteSelf`).
- **Middleware that works on the request is a method on the request.** `protect`, `isLoggedIn`, `getSelf` and `filterObj` are methods over `Http.Exchange` or `Js.JsObject`, and a tour's `save` is a method of `TourModel.TourDocument`.
- **Some handlers are functions only.** `updatePassword` as written (`UpdatePasswordAsWritten`) and `deleteSelf` as written (`DeleteSelfAsWritten`) exist only to show their defects, so they have no method. The login, logout and token helpers do not write the collection, so they are functions too.

Module by file:

| file | module | models |
|---|---|---|
| js.dfy | Js | `undefined`, JSON bodies, truthiness, `split`/`join`, `trim`, `toLowerCase`, plain objects |
| errors.dfy | Errors | what a handler passes to `next(err)` |
| user_model.dfy | UserModel | user records, `findOne`/`findById`, the user collection |
| http.dfy | Http | the request/response fields the middleware reads and writes |
| auth_controller.dfy | AuthController | controllers/authController.js |
| user_controller.dfy | UserController | controllers/userController.js |
| slug.dfy | Slug | `slugify(title, { lower: true })` |
| tour_model.dfy | TourModel | models/tourModels.js |
| review_model.dfy | ReviewModel | models/reviewModels.js |
| routing.dfy | Routing | Express router dispatch |
| user_routes.dfy | UserRoutes | routers/userRouters.js |
| tour_routes.dfy | TourRoutes | routers/tourRouters.js |

The tour schema marks `places`, `inclusions`, `page.places`, `detils.otherInclusions` and `detils.exclusions` as `required: [true]` (models/tourModels.js:29-33, 51, 69-70). Even so, a tour that leaves these paths unset passes validation:

- Mongoose gives an unset array path an empty array.
- `required` accepts an empty array.
- So only an explicit `null` makes those paths fail.
- This rests on Mongoose 5 or later. Mongoose 4's `required` rejected an empty array, and no file of the repository pins the version.
- `TourModel.MissingRequiredArraysPass` proves that the unset paths pass.
- `TourModel.NullRequiredPathsFail` proves that the `null` ones fail.

## Model

| member | source | states |
|---|---|---|
| UserModel.FindFirst | controllers/authController.js:58 | `findOne` returns the first record satisfying the filter, or none when no record does |
| UserModel.FindById | controllers/authController.js:92 | `findById` returns a record with that id, or none when no record has it |
| UserModel.FindByEmail | controllers/authController.js:58 | `findOne({ email })` returns a record with that email; an absent email finds nobody |
| Js.Split | controllers/authController.js:79 | `split(' ')` gives at least one piece and no piece contains the separator |
| Js.JoinSplit | controllers/authController.js:79 | joining the pieces of a split gives back the header |
| Js.SplitJoin | controllers/authController.js:79 | splitting joined separator-free pieces gives back the pieces, so the second word of a header is its token |
| Js.Trim | models/tourModels.js:19 | `trim` shortens the string and leaves no white space at either end |
| Js.TrimIdempotent | models/tourModels.js:19 | trimming twice is trimming once |
| Js.TrimAroundSpace | models/tourModels.js:19 | white space added around a string does not change its trim |
| Js.Lower | models/tourModels.js:108 | `toLowerCase` keeps the length and lower-cases each ASCII letter |
| AuthController.CreateSendToken | controllers/authController.js:22-40 | the body's token and the `jwt` cookie are both the token signed for the user's id; the user sent back is the record with only its password removed; the status is the one asked for |
| AuthController.RoleNamed | controllers/authController.js:48 | the four role names map one-to-one onto the role enum, and any other name is rejected |
| AuthController.SignUpEffect | controllers/authController.js:42-51 | a rejected create changes nothing; a successful one appends exactly one user, made from the body's name, email, password and requested role (default `user`), and replies with that user without its password; `findById` of the fresh id then finds the new user |
| AuthController.SignUp | controllers/authController.js:42-51 | creating the user and sending the session has exactly the effect `SignUpEffect` gives |
| AuthController.SignUpGrantsRequestedRole | controllers/authController.js:48 | anyone who signs up asking for `admin` becomes an admin once the schema accepts the record |
| AuthController.LogoutCookie | controllers/authController.js:65-70 | `logout` leaves a `jwt` cookie from which no token is read |
| AuthController.LoggedOutCookieIsNoSession | controllers/authController.js:65-70 | after `logout`, a request without a `Bearer` header is refused by `protect` with 401 and `isLoggedIn` recognises nobody |
| AuthController.ExtractToken | controllers/authController.js:75-82 | a token taken from a `Bearer` header is a single space-free word |
| AuthController.BearerHeaderYieldsToken | controllers/authController.js:75-79 | `Bearer <token>` yields exactly that token, whatever the cookie holds |
| AuthController.BearerHeaderTakesPrecedence | controllers/authController.js:75-82 | with a header starting `Bearer`, the cookie is never consulted, even when the header has no second word |
| AuthController.CookieIsTheFallback | controllers/authController.js:80-82 | without a `Bearer` header, the token is the `jwt` cookie when it is non-empty, else there is none |
| AuthController.Authenticate | controllers/authController.js:84-107 | success exactly when a token is present, verifies, names an existing user and predates no password change; the user is that stored record; no token gives the "not logged in" 401; every application error is a 401 |
| AuthController.StaleTokenIsRefused | controllers/authController.js:102-106 | a verifying token issued before its user's password changed is refused with 401 |
| AuthController.Protect | controllers/authController.js:73-111 | on success `req.user` and `res.locals.user` both become the authenticated user and no error is passed; on failure the decision's error is passed and neither field changes |
| AuthController.CookieUser | controllers/authController.js:113-138 | a user is recognised only from a non-empty cookie and only when stored |
| AuthController.CookieUserAgreesWithProtect | controllers/authController.js:113-138 | `isLoggedIn` recognises exactly the sessions `protect` accepts from the cookie alone |
| AuthController.IsLoggedIn | controllers/authController.js:113-138 | never fails; sets `res.locals.user` to the cookie's user when recognised and otherwise leaves it; ignores the Authorization header and `req.user` |
| AuthController.RestrictTo | controllers/authController.js:140-149 | passes exactly when the attached user's role is listed; an attached user with another role gets 403; with no user attached, reading the role throws |
| AuthController.LogIn | controllers/authController.js:53-63 | 400 unless both email and password are non-empty; success exactly when the stored password of that email matches; a found user without a stored hash makes `correctPassword` throw; every other failure is the same 401; success sends that user without the password |
| AuthController.UnknownUserLooksLikeWrongPassword | controllers/authController.js:58-61 | an unknown email and a wrong password for a known email get identical replies |
| AuthController.FindRedeemable | controllers/authController.js:192-195 | the reset query finds a user holding the digest with an expiry strictly after now, or none when no user does |
| AuthController.ForgotPasswordEffect | controllers/authController.js:151-185 | an unknown email is a 404 and changes nothing; otherwise only that user changes: a sent email leaves the digest and expiry stored, a failed one leaves both cleared, and the error carries no status |
| AuthController.ForgotPassword | controllers/authController.js:151-185 | storing the token, sending the email and rolling back on failure has exactly the effect `ForgotPasswordEffect` gives |
| AuthController.ForgotPasswordSucceeds | controllers/authController.js:151-184 | the reply is a success, after which `next()` is called, exactly when the email belongs to a user and the email was sent |
| AuthController.ResetPasswordEffect | controllers/authController.js:187-205 | no redeemable user gives a 400 and no change; success changes only that user (new password, both reset fields cleared) and replies with it without its password; a failed save changes nothing |
| AuthController.ResetPassword | controllers/authController.js:187-205 | the step-by-step handler has exactly the effect `ResetPasswordEffect` gives |
| AuthController.ResetTokenIsSingleUse | controllers/authController.js:199-203 | after a successful reset, the same raw token is refused with 400 at any later time |
| AuthController.ExpiredResetTokenIsRefused | controllers/authController.js:192-198 | a token whose holders' expiry is at or before now is refused and nothing changes |
| AuthController.SentTokenResetsItsOwner | controllers/authController.js:151-204 | a token that reached its owner by email resets that owner's password at any time before its expiry |
| AuthController.FailedEmailLeavesNoUsableToken | controllers/authController.js:170-178 | when the email fails, the token just drawn is refused at any time |
| AuthController.UpdatePasswordAsWritten | controllers/authController.js:207-219 | as written, the collection keeps its size, and with no `:id` bound the reply is a 404 and nothing changes |
| AuthController.UpdatePasswordOnItsRouteIsNotFound | controllers/authController.js:208-211 | on its own route (no `:id`), every request ends in 404 and changes nothing |
| AuthController.UpdatePasswordStoresCheckedValue | controllers/authController.js:212-216 | as written, a success only ever stores a password that already matched the stored hash |
| AuthController.UpdateOwnPasswordEffect | controllers/authController.js:207-219 | as intended: no session user throws; a session user no longer stored is a 404; a missing current or stored password throws; a current password that does not match is a 400 `IncorrectPassword`; a success requires the match, changes only the session user's password fields and replies without the password; a failure changes nothing |
| AuthController.UpdateOwnPasswordChangesPassword | controllers/authController.js:207-219 | as intended, a signed-in user with the right current password gets the new password and no other user changes |
| AuthController.UpdateOwnPassword | controllers/authController.js:207-219 | the intended handler has exactly the effect `UpdateOwnPasswordEffect` gives |
| UserController.Filtered | controllers/userController.js:9-14 | every remaining key is allowed and keeps its value, and every allowed key present in the input remains |
| UserController.FilteredIdempotent | controllers/userController.js:9-14 | filtering twice with the same allow-list is filtering once |
| UserController.FilterObj | controllers/userController.js:9-14 | deletes in place exactly the keys that are not allowed, and returns the same object |
| UserController.GetSelf | controllers/userController.js:16-19 | `req.params.id` becomes the session user's id; with no user attached it throws and changes nothing |
| UserController.CastString | controllers/userController.js:33-36 | Mongoose's cast to a `String` path: `null` stays null, strings stay themselves, numbers and booleans become their text, a document-like object its `_id`; arrays and other objects cannot be cast |
| UserController.CastOfFilteredBody | controllers/userController.js:31-36 | casting the filtered body fails exactly when the body's `name` or `email` cannot be cast, and otherwise holds their casts |
| UserController.ApplyProfile | controllers/userController.js:33-36 | each cast path in the update, `null` included, replaces the stored value; an absent one leaves it; nothing else changes |
| UserController.UpdateSelfEffect | controllers/userController.js:21-44 | a truthy `password` or `passwordConfirm` is a 400 with no change; without a session user it is a `TypeError`; then, in Mongoose's order, an uncastable `name` or `email` is a `CastError`, a failed update validator is a `ValidationError`, and a session user no longer stored gets an empty reply, each with no change; otherwise the session user's record takes the cast `name` and `email` of the body, nothing else changes, and the reply is the updated record |
| UserController.NumericNameIsStoredAsText | controllers/userController.js:31-36 | `{"name": 5}` stores the name as the number's text and keeps the email |
| UserController.ObjectEmailIsACastError | controllers/userController.js:31-36 | an array or plain object sent as the email is a `CastError`, and nothing changes |
| UserController.UpdateSelfCannotChangeRole | controllers/userController.js:31-36 | no body changes any user's role, password, active flag or reset token |
| UserController.UpdateSelf | controllers/userController.js:21-44 | the handler has exactly the effect `UpdateSelfEffect` gives, and leaves `req.body` filtered to `name` and `email` unless it refused first |
| UserController.DeleteSelfAsWritten | controllers/userController.js:46-53 | as written, `deleteSelf` always throws a `ReferenceError` and changes nothing |
| UserController.DeleteSelfAsWrittenKeepsAccountActive | controllers/userController.js:46-49 | as written, an active user who asks to be deleted stays active and gets a ReferenceError |
| UserController.DeactivateEffect | controllers/userController.js:46-53 | as intended: no record is removed; at most the session user's record changes, and only by `active = false`; success means that record is inactive |
| UserController.DeleteSelf | controllers/userController.js:46-53 | the intended handler has exactly the effect `DeactivateEffect` gives |
| Slug.Slugify | models/tourModels.js:108 | the slug of any title is lower-case kept characters separated by single hyphens, with no hyphen at either end |
| Slug.SlugIsFixedPoint | models/tourModels.js:108 | a slug is its own slug |
| Slug.SlugifyIdempotent | models/tourModels.js:108 | slugifying a slug changes nothing |
| Slug.SlugifyIgnoresSurroundingSpace | models/tourModels.js:108 | white space around a title does not change its slug |
| TourModel.TrimmedField | models/tourModels.js:16-19 | the `trim` setter trims a given string and keeps an unset or `null` value |
| TourModel.ArrayDefault | models/tourModels.js:29 | an unset array path holds an empty array; a set one is kept |
| TourModel.Build | models/tourModels.js:10-71 | a new document has its string paths trimmed, its numbers and slug as given, and none of its required array paths unset |
| TourModel.BuildIdempotent | models/tourModels.js:10-71 | building a document from a built document changes nothing |
| TourModel.TourErrors | models/tourModels.js:10-71 | the reported paths are exactly the paths whose validators fail |
| TourModel.PriceValidIff | models/tourModels.js:37-47 | `price` passes exactly when given and greater than 1000 |
| TourModel.TitleValidIff | models/tourModels.js:16-28 | `title` passes exactly when given and its trimmed length is 11 to 100 |
| TourModel.DaysValidIff | models/tourModels.js:10-15 | `days` passes exactly when given and at least 1 |
| TourModel.CustomisableValidIff | models/tourModels.js:52-60 | `page.customisable` passes exactly when unset or one of the two fixed sentences |
| TourModel.RequiredStringsIff | models/tourModels.js:35-50 | `imglink` passes exactly when given and not blank; `page.title` exactly when given and not empty |
| TourModel.ItineraryEntryIff | models/tourModels.js:61-67 | an itinerary entry fails on `day` exactly when it is unset, `null` or blank, and on `schedule` exactly when it is `null` |
| TourModel.NullRequiredPathsFail | models/tourModels.js:10-71 | every required path set to `null` is reported |
| TourModel.MissingRequiredScalarsFail | models/tourModels.js:10-50 | every unset required number or string is reported |
| TourModel.MissingRequiredArraysPass | models/tourModels.js:29-71 | an unset required array path is not reported |
| TourModel.TourDocument.constructor | models/tourModels.js:10-71 | `new Tour(body)` holds the built document and is not yet stored |
| TourModel.TourDocument.Save | models/tourModels.js:107-110 | the errors are those of the document before the hook; an invalid document is neither changed nor stored; a valid one gets the slug of its title in place of any given slug, is otherwise unchanged, and is stored |
| TourModel.ErrorsIgnoreSlug | models/tourModels.js:9 | no validator looks at `slug` |
| TourModel.SavedSlugIsStable | models/tourModels.js:107-110 | the slug a saved tour gets is a slug, the tour stays valid, and saving it again keeps it |
| TourModel.SlugOfGivenTitle | models/tourModels.js:107-110 | the slug is that of the title as the body gave it: the `trim` setter does not change it |
| ReviewModel.NewReview | models/reviewModels.js:8 | `createdAt` defaults to the creation time when absent, and nothing else changes |
| ReviewModel.ValidIff | models/reviewModels.js:6-26 | a review is valid exactly when it names a user and a tour and any rating lies in [0, 5]; title and text are optional |
| ReviewModel.MissingTourIsInvalid | models/reviewModels.js:22-26 | a review without a tour is invalid |
| ReviewModel.MissingUserIsInvalid | models/reviewModels.js:17-21 | a review without a user is invalid |
| ReviewModel.DefaultDateKeepsValidity | models/reviewModels.js:8 | the date default never decides validity |
| Routing.ProtectFirst | routers/userRouters.js:15 | `protect` in a chain refuses a request without a session and otherwise attaches the user and passes on |
| Routing.RestrictFirst | routers/userRouters.js:23 | `restrictTo` in a chain refuses a user without a listed role with 403 and otherwise passes on |
| Routing.GetSelfFirst | routers/userRouters.js:21 | `getSelf` in a chain points `req.params.id` at the attached user and passes on |
| Routing.GatedAnswer | routers/tourRouters.js:26-35 | a controller behind a run of `protect`/`restrictTo` gates answers exactly when the gates admit the request, and sees the session user; otherwise one of the gates refuses |
| UserRoutes.ChainPastPublicRoutes | routers/userRouters.js:9-15 | a request no public route takes meets `protect` next |
| UserRoutes.ChainPastSelfRoutes | routers/userRouters.js:17-23 | a request no self-service route takes meets the admin gate next |
| UserRoutes.LoginNeedsNoSession | routers/userRouters.js:9 | `POST /login` is answered with or without a session |
| UserRoutes.SignupNeedsNoSession | routers/userRouters.js:10 | `POST /signup` is answered with or without a session |
| UserRoutes.LogoutNeedsNoSession | routers/userRouters.js:11 | `GET /logout` is answered with or without a session |
| UserRoutes.ForgotPasswordRunsOn | routers/userRouters.js:12 | when `forgotPassword` succeeds, `POST /forgotpassword` is answered without a session, then runs on into `protect` and, with a session, the admin gate |
| UserRoutes.ForgotPasswordFailureEndsThere | routers/userRouters.js:12 | when `forgotPassword` fails, nothing runs after it, whatever the session |
| UserRoutes.ResetPasswordNeedsNoSession | routers/userRouters.js:13 | `PATCH /resetpassword/:token` is answered with or without a session |
| UserRoutes.NoSessionNoFurther | routers/userRouters.js:15 | every request no public route takes is refused by `protect` without a valid session |
| UserRoutes.UpdatePasswordNeedsASession | routers/userRouters.js:18 | `PATCH /updatepassword` needs a session and no particular role |
| UserRoutes.DeleteSelfNeedsASession | routers/userRouters.js:19 | `DELETE /deleteUser` needs a session and no particular role |
| UserRoutes.UpdateSelfNeedsASession | routers/userRouters.js:20 | `PATCH /updateUser` needs a session and no particular role |
| UserRoutes.GetUserIsAlwaysSelf | routers/userRouters.js:21 | `GET /getUser` needs a session and always reads the session user's own id |
| UserRoutes.PastBothGates | routers/userRouters.js:23-31 | a request that reaches the admin routes needs a session and the admin role |
| UserRoutes.NonAdminStopsAtTheAdminGate | routers/userRouters.js:23 | a signed-in non-admin gets 403 for every request no public or self-service route takes |
| UserRoutes.ListingUsersIsAdminOnly | routers/userRouters.js:25 | `GET /` needs a session and the admin role |
| UserRoutes.GetUserByIdIsAdminOnly | routers/userRouters.js:27-29 | `GET /:id` needs a session and the admin role, and reads the id in the path |
| UserRoutes.UpdateUserByIdIsAdminOnly | routers/userRouters.js:27-30 | `PATCH /:id` needs a session and the admin role |
| UserRoutes.DeleteUserByIdIsAdminOnly | routers/userRouters.js:27-31 | `DELETE /:id` needs a session and the admin role |
| TourRoutes.StaffGate | routers/tourRouters.js:26-29 | `protect` then `restrictTo('admin', 'lead-guide')` admits exactly a session whose role is admin or lead-guide |
| TourRoutes.TopTenForcesSortAndLimit | routers/tourRouters.js:11 | `GET /topten` needs no session; it sets `sort` to `-price` and `limit` to `10`, leaves the rest of the query alone, then lists tours |
| TourRoutes.StatsArePublic | routers/tourRouters.js:13 | `GET /getstats` needs no session |
| TourRoutes.ReviewsAreDelegated | routers/tourRouters.js:15-21 | every request under `/:tourId/reviews`, with any method and any session, passes the pass-through handler and goes to the review router |
| TourRoutes.ListingToursIsPublic | routers/tourRouters.js:23-25 | `GET /` needs no session |
| TourRoutes.RootHandlers | routers/tourRouters.js:23-35 | `/` registers one GET handler and the three-handler PATCH and POST chains |
| TourRoutes.RootWritesAreStaffOnly | routers/tourRouters.js:23-35 | `PATCH /` and `POST /` need a session and the admin or lead-guide role |
| TourRoutes.SearchIsNotAnId | routers/tourRouters.js:36-40 | `GET /search` needs no session and lists tours rather than being read as an id |
| TourRoutes.SlugSearchIsPublic | routers/tourRouters.js:37 | `GET /search/:slug` needs no session (unless the slug is `reviews`) |
| TourRoutes.TourByIdHandlers | routers/tourRouters.js:38-50 | `/:id` registers one GET handler and the three-handler PATCH and DELETE chains |
| TourRoutes.ReadingATourIsPublic | routers/tourRouters.js:38-40 | `GET /:id` needs no session and reads the tour the segment names |
| TourRoutes.TourWritesAreStaffOnly | routers/tourRouters.js:38-50 | `PATCH /:id` and `DELETE /:id` need a session and the admin or lead-guide role |

## Left out

- **Cryptography.** JWT signing and verification (RFC 7519), SHA-256 and bcrypt's `correctPassword` are opaque functions handed in as `Oracles`. So are `changedPasswordAfter` and the user schema's validators. Their internals are not modelled.
- **The user schema.** models/userModel.js is not part of this model, and neither are its hooks:
  - password hashing;
  - `passwordChangedAt`;
  - the filter on inactive users;
  - `createPasswordResetToken`, which is replaced by a given raw token and expiry.
- **Database I/O.** `find`, `save`, `findByIdAndUpdate`, aggregation, text search and `populate` are left out. The user collection is a sequence. A save rejected by validation leaves it unchanged.
- **Email.** `sendEmail` is reduced to whether it succeeded. The reset URL and the message text are not modelled.
- **Clock and configuration.**
  - Cookie options, their expiry arithmetic and the production `secure` flag are left out.
  - The logout cookie's timing is left out.
  - The current time is a parameter.
- **Asynchrony.** Handlers are sequential steps.
- **Message texts.** Only error messages the routes pass on are kept, as constants. The schema's validator messages are not modelled, among them the title validator's copied price message and the minlength "30 characters" message.
- **handlerFactory.** It is not part of this model. `getOne`, `getAll`, `updateOne` and `deleteOne`, the review router, and the rest of controllers/tourController.js end a run as the controller that answers. Only `getTopTen` is modelled, inside the router.
- **app.js.** The middleware stack is left out.
- **Express details.**
  - HEAD is answered as GET. No other automatic HEAD or OPTIONS response is modelled.
  - URL decoding and parameter patterns are left out.
  - Literal path segments are compared ignoring ASCII case only.
- **Error after response.** A successful `forgotPassword` calls `next()` after responding, so the run goes on into `protect` (`Routing.Run` with `mailed`). What Express then does with a second response is not modelled. A failed `forgotPassword` hands its error to `next(err)`, and the run ends at that controller.
- **Mongoose casting.** The string cast of `updateSelf`'s `name` and `email` is modelled (`UserController.CastString`). It follows the Mongoose releases that refuse arrays; older releases cast an array through its `toString()`. `Number.prototype.toString` is a parameter. Casting of strings to numbers and of ids to ObjectIds is left out, as are `NaN` and the `guides` reference. The review's `user` and `tour` references are absent or present, so `null` counts as absent.
- **Tour fields.** Trimming of the elements of `[String]` paths is left out. So are the `createdDate` default, which is fixed when the schema loads, and the virtuals.
- **String lengths.** They count characters, not UTF-16 code units.
- Slug.Slugify: does not model slugify's character map (`$` becomes `dollar`, `&` becomes `and`, accented letters become ASCII), nor Unicode normalisation. The model is exact for titles without such characters.
- UserModel.FindByEmail: treats an absent email as matching nobody. Mongoose would drop the undefined filter and match the first user.
- AuthController.ExtractToken: its contract states only that a header token is one word. Which token it yields is stated by BearerHeaderYieldsToken, BearerHeaderTakesPrecedence and CookieIsTheFallback.
- AuthController.UpdatePasswordAsWritten: its contract covers only the missing-id case. Its check-then-store behaviour is stated by UpdatePasswordStoresCheckedValue.

## Findings

| source | as written | input that shows it | evidently intended | confidence | as-written member | corrected member |
|---|---|---|---|---|---|---|
| controllers/authController.js:208 | `updatePassword` looks the user up by `req.params.id`, but its route `PATCH /updatepassword` binds no `:id` | any signed-in user sends `PATCH /updatepassword`: no id, so the reply is always 404 | look up the session user, `req.user.id` | high; not executed | AuthController.UpdatePasswordOnItsRouteIsNotFound | AuthController.UpdateOwnPasswordChangesPassword |
| controllers/authController.js:212-215 | the body's `password` is checked against the stored hash and then stored as the new password | with an id bound, the only password that can be stored is the one already in force, so the password never really changes | check a separate current password, store the new one | high; not executed | AuthController.UpdatePasswordStoresCheckedValue | AuthController.UpdateOwnPasswordChangesPassword |
| controllers/userController.js:47 | `const user = await user.findByIdAndUpdate(...)` reads the block's own `user` before it is initialised (the module-level model is shadowed) | any signed-in user sends `DELETE /deleteUser`: a ReferenceError, and the account stays active | soft delete: set `active = false` on the session user and save | high; not executed | UserController.DeleteSelfAsWrittenKeepsAccountActive | UserController.DeactivateEffect |
