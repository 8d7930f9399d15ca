/** routers/userRouters.js: the user router's registration table, and what it
    does to requests with and without a session. Paths are relative to the
    router's mount point. */
module UserRoutes {
  import opened Js
  import opened Errors
  import opened UserModel
  import opened Routing
  import AuthController

  const LoginRoute := Route([Lit("login")], [(Post, Respond(LogIn))])
  const SignupRoute := Route([Lit("signup")], [(Post, Respond(SignUp))])
  const LogoutRoute := Route([Lit("logout")], [(Get, Respond(Logout))])
  const ForgotPasswordRoute := Route([Lit("forgotpassword")], [(Post, Respond(ForgotPassword))])
  const ResetPasswordRoute := Route([Lit("resetpassword"), Param("token")], [(Patch, Respond(ResetPassword))])
  const UpdatePasswordRoute := Route([Lit("updatepassword")], [(Patch, Respond(UpdatePassword))])
  const DeleteSelfRoute := Route([Lit("deleteUser")], [(Delete, Respond(DeleteSelf))])
  const UpdateSelfRoute := Route([Lit("updateUser")], [(Patch, Respond(UpdateSelf))])
  const GetSelfRoute := Route([Lit("getUser")], [(Get, GetSelf), (Get, Respond(GetUser))])
  const AllUsersRoute := Route([], [(Get, Respond(GetAllUsers))])
  const UserByIdRoute := Route([Param("id")], [(Get, Respond(GetUser)), (Patch, Respond(UpdateUser)), (Delete, Respond(DeleteUser))])

  /** The layers after `router.use(restrictTo('admin'))`. */
  const AdminRoutes := Then(AllUsersRoute, Then(UserByIdRoute, NoLayers))

  /** The layers after `router.use(protect)`: the self-service routes, then
      the admin gate and the admin routes. */
  const SessionRoutes :=
    Then(UpdatePasswordRoute, Then(DeleteSelfRoute, Then(UpdateSelfRoute, Then(GetSelfRoute,
    Then(Use([], RestrictTo([Admin])), AdminRoutes)))))

  /** The whole router: five public routes, the session gate, and the rest. */
  const UserRouter :=
    Then(LoginRoute, Then(SignupRoute, Then(LogoutRoute, Then(ForgotPasswordRoute, Then(ResetPasswordRoute,
    Then(Use([], Protect), SessionRoutes))))))

  /** How a request to this router ends. */
  function Outcome(m: Verb, segs: seq<string>, auth: Result<UserRecord>, mailed: bool, query: map<string, string>): Trace {
    Run(Chain(UserRouter, m, segs), auth, mailed, Fresh(query))
  }

  /** The refusal a signed-in user without the admin role meets. */
  const NotAdmin := Refused(RestrictTo([Admin]), AppError(AuthController.NoPermission, Some(403)))

  /** No public route takes the request. */
  predicate PastPublicRoutes(m: Verb, segs: seq<string>) {
    && Contribution(LoginRoute, m, segs) == []
    && Contribution(SignupRoute, m, segs) == []
    && Contribution(LogoutRoute, m, segs) == []
    && Contribution(ForgotPasswordRoute, m, segs) == []
    && Contribution(ResetPasswordRoute, m, segs) == []
  }

  /** No self-service route takes the request. */
  predicate PastSelfRoutes(m: Verb, segs: seq<string>) {
    && Contribution(UpdatePasswordRoute, m, segs) == []
    && Contribution(DeleteSelfRoute, m, segs) == []
    && Contribution(UpdateSelfRoute, m, segs) == []
    && Contribution(GetSelfRoute, m, segs) == []
  }

  /** A request no public route takes meets the session gate first. */
  lemma ChainPastPublicRoutes(m: Verb, segs: seq<string>)
    requires PastPublicRoutes(m, segs)
    ensures Chain(UserRouter, m, segs) == [Step(Protect, true, None)] + Chain(SessionRoutes, m, segs)
  {
    var l := UserRouter;
    assert Chain(l, m, segs) == Chain(l.rest, m, segs);
    l := l.rest;
    assert Chain(l, m, segs) == Chain(l.rest, m, segs);
    l := l.rest;
    assert Chain(l, m, segs) == Chain(l.rest, m, segs);
    l := l.rest;
    assert Chain(l, m, segs) == Chain(l.rest, m, segs);
    l := l.rest;
    assert Chain(l, m, segs) == Chain(l.rest, m, segs);
    l := l.rest;
    assert l == Then(Use([], Protect), SessionRoutes);
  }

  /** A request no self-service route takes meets the admin gate next. */
  lemma ChainPastSelfRoutes(m: Verb, segs: seq<string>)
    requires PastSelfRoutes(m, segs)
    ensures Chain(SessionRoutes, m, segs) == [Step(RestrictTo([Admin]), true, None)] + Chain(AdminRoutes, m, segs)
  {
    var l := SessionRoutes;
    assert Chain(l, m, segs) == Chain(l.rest, m, segs);
    l := l.rest;
    assert Chain(l, m, segs) == Chain(l.rest, m, segs);
    l := l.rest;
    assert Chain(l, m, segs) == Chain(l.rest, m, segs);
    l := l.rest;
    assert Chain(l, m, segs) == Chain(l.rest, m, segs);
    l := l.rest;
    assert l == Then(Use([], RestrictTo([Admin])), AdminRoutes);
  }

  /** The admin routes take no POST. */
  lemma AdminRoutesTakeNoPost(segs: seq<string>)
    requires |segs| == 1
    ensures Chain(AdminRoutes, Post, segs) == []
  {
    assert Contribution(AllUsersRoute, Post, segs) == [];
    assert HandlersFor(UserByIdRoute.stack, Post) == [];
    assert Contribution(UserByIdRoute, Post, segs) == [];
    assert Chain(AdminRoutes, Post, segs) == Contribution(AllUsersRoute, Post, segs) + Chain(AdminRoutes.rest, Post, segs);
    assert Chain(AdminRoutes.rest, Post, segs) == Contribution(UserByIdRoute, Post, segs) + Chain(NoLayers, Post, segs);
  }

  /** `/:id` is the only admin route a one-segment path can reach. */
  lemma AdminRoutesById(m: Verb, id: string)
    requires id != ""
    ensures Chain(AdminRoutes, m, [id]) == Contribution(UserByIdRoute, m, [id])
  {
    assert Contribution(AllUsersRoute, m, [id]) == [];
    assert Chain(AdminRoutes, m, [id]) == Contribution(UserByIdRoute, m, [id]) + Chain(NoLayers, m, [id]);
  }

  /** The handler `/:id` registers for GET, PATCH and DELETE. */
  lemma UserByIdHandler(m: Verb, id: string, c: Controller)
    requires id != ""
    requires (m, c) == (Get, GetUser) || (m, c) == (Patch, UpdateUser) || (m, c) == (Delete, DeleteUser)
    ensures Chain(AdminRoutes, m, [id]) == [Step(Respond(c), true, Some(id))]
  {
    AdminRoutesById(m, id);
    var stack := UserByIdRoute.stack;
    assert HandlersFor(stack[2..], m) == (if m == Delete then [Respond(DeleteUser)] else []);
    assert HandlersFor(stack[1..], m) == (if m == Patch then [Respond(UpdateUser)] else []) + HandlersFor(stack[2..], m);
    assert HandlersFor(stack, m) == [Respond(c)];
    assert IdParam([Param("id")], [id]) == Some(id);
  }

  /** `/getUser` contributes `getSelf` and then `getUser`. */
  lemma GetSelfRouteSteps(segs: seq<string>)
    requires PathMatches([Lit("getUser")], segs)
    ensures Contribution(GetSelfRoute, Get, segs) == [Step(GetSelf, true, None), Step(Respond(GetUser), false, None)]
  {
    var stack := GetSelfRoute.stack;
    assert HandlersFor(stack[1..], Get) == [Respond(GetUser)];
    assert HandlersFor(stack, Get) == [GetSelf, Respond(GetUser)];
    assert ServedAs(stack, Get) == Get;
    assert IdParam([Lit("getUser")], segs) == None;
    assert Following([Respond(GetUser)], None) == [Step(Respond(GetUser), false, None)];
  }

  /** `login`, `signup`, `logout` and `resetpassword/:token` are answered
      whether or not the request carries a session; literal segments match
      without regard to case. */
  lemma LoginNeedsNoSession(segs: seq<string>, auth: Result<UserRecord>, mailed: bool, query: map<string, string>)
    requires PathMatches([Lit("login")], segs)
    ensures Outcome(Post, segs, auth, mailed, query).end == Answered(LogIn, Fresh(query))
  {
    assert Chain(UserRouter, Post, segs) == [Step(Respond(LogIn), true, None)] + Chain(UserRouter.rest, Post, segs);
    AnswerFirst(LogIn, true, None, Chain(UserRouter.rest, Post, segs), auth, mailed, Fresh(query));
  }

  lemma SignupNeedsNoSession(segs: seq<string>, auth: Result<UserRecord>, mailed: bool, query: map<string, string>)
    requires PathMatches([Lit("signup")], segs)
    ensures Outcome(Post, segs, auth, mailed, query).end == Answered(SignUp, Fresh(query))
  {
    var l := UserRouter.rest;
    assert Chain(UserRouter, Post, segs) == Chain(l, Post, segs);
    assert Chain(l, Post, segs) == [Step(Respond(SignUp), true, None)] + Chain(l.rest, Post, segs);
    AnswerFirst(SignUp, true, None, Chain(l.rest, Post, segs), auth, mailed, Fresh(query));
  }

  lemma LogoutNeedsNoSession(segs: seq<string>, auth: Result<UserRecord>, mailed: bool, query: map<string, string>)
    requires PathMatches([Lit("logout")], segs)
    ensures Outcome(Get, segs, auth, mailed, query).end == Answered(Logout, Fresh(query))
  {
    var l := UserRouter.rest.rest;
    assert Chain(UserRouter, Get, segs) == Chain(UserRouter.rest, Get, segs) == Chain(l, Get, segs);
    assert Chain(l, Get, segs) == [Step(Respond(Logout), true, None)] + Chain(l.rest, Get, segs);
    AnswerFirst(Logout, true, None, Chain(l.rest, Get, segs), auth, mailed, Fresh(query));
  }

  lemma ResetPasswordNeedsNoSession(segs: seq<string>, auth: Result<UserRecord>, mailed: bool, query: map<string, string>)
    requires PathMatches([Lit("resetpassword"), Param("token")], segs)
    ensures Outcome(Patch, segs, auth, mailed, query).end == Answered(ResetPassword, Fresh(query))
  {
    var l := UserRouter;
    assert Chain(l, Patch, segs) == Chain(l.rest, Patch, segs);
    l := l.rest;
    assert Chain(l, Patch, segs) == Chain(l.rest, Patch, segs);
    l := l.rest;
    assert Chain(l, Patch, segs) == Chain(l.rest, Patch, segs);
    l := l.rest;
    assert Chain(l, Patch, segs) == Chain(l.rest, Patch, segs);
    l := l.rest;
    assert Chain(l, Patch, segs) == [Step(Respond(ResetPassword), true, None)] + Chain(l.rest, Patch, segs);
    AnswerFirst(ResetPassword, true, None, Chain(l.rest, Patch, segs), auth, mailed, Fresh(query));
  }

  /** The chain of `POST /forgotpassword`. */
  lemma ForgotPasswordChain(segs: seq<string>)
    requires PathMatches([Lit("forgotpassword")], segs)
    ensures Chain(UserRouter, Post, segs) ==
      [Step(Respond(ForgotPassword), true, None), Step(Protect, true, None), Step(RestrictTo([Admin]), true, None)]
  {
    ForgotPasswordRoutes(segs);
    AfterForgotPassword(segs);
  }

  /** Among the public routes only `/forgotpassword` takes the request. */
  lemma ForgotPasswordRoutes(segs: seq<string>)
    requires PathMatches([Lit("forgotpassword")], segs)
    ensures Chain(UserRouter, Post, segs) ==
      [Step(Respond(ForgotPassword), true, None)] + Chain(UserRouter.rest.rest.rest.rest, Post, segs)
  {
    var l := UserRouter;
    assert Chain(l, Post, segs) == Chain(l.rest, Post, segs);
    l := l.rest;
    assert Chain(l, Post, segs) == Chain(l.rest, Post, segs);
    l := l.rest;
    assert Chain(l, Post, segs) == Chain(l.rest, Post, segs);
    l := l.rest;
    assert Contribution(l.first, Post, segs) == [Step(Respond(ForgotPassword), true, None)];
  }

  /** After `/forgotpassword`, a POST of one segment meets only the two gates. */
  lemma AfterForgotPassword(segs: seq<string>)
    requires PathMatches([Lit("forgotpassword")], segs)
    ensures Chain(UserRouter.rest.rest.rest.rest, Post, segs) == [Step(Protect, true, None), Step(RestrictTo([Admin]), true, None)]
  {
    var l := UserRouter.rest.rest.rest.rest;
    assert Chain(l, Post, segs) == Chain(l.rest, Post, segs);
    l := l.rest;
    assert Chain(l, Post, segs) == [Step(Protect, true, None)] + Chain(SessionRoutes, Post, segs);
    assert PastSelfRoutes(Post, segs);
    ChainPastSelfRoutes(Post, segs);
    AdminRoutesTakeNoPost(segs);
  }

  /** `forgotpassword` is answered without a session too, but when the handler
      succeeds it calls `next()` after its response, so the request goes on
      into `protect` and, with a session, into the admin gate. */
  lemma ForgotPasswordRunsOn(segs: seq<string>, auth: Result<UserRecord>, mailed: bool, query: map<string, string>)
    requires PathMatches([Lit("forgotpassword")], segs)
    requires mailed
    ensures var t := Outcome(Post, segs, auth, mailed, query);
      && |t.ran| >= 2 && t.ran[..2] == [Respond(ForgotPassword), Protect]
      && t.end == (if auth.Err? then Refused(Protect, auth.error)
                   else if auth.value.role == Admin then LeftRouter
                   else NotAdmin)
  {
    ForgotPasswordChain(segs);
    var gate := Step(RestrictTo([Admin]), true, None);
    var st := Fresh(query);
    assert Run([Step(Respond(ForgotPassword), true, None), Step(Protect, true, None), gate], auth, mailed, st)
        == Prepend(Respond(ForgotPassword), Run([Step(Protect, true, None), gate], auth, mailed, st));
    ProtectFirst(true, None, [gate], auth, mailed, st);
    if auth.Ok? {
      var signedIn := st.(reqUser := Some(auth.value));
      RestrictFirst([Admin], true, None, [], auth, mailed, signedIn);
    }
  }

  /** When `forgotPassword` fails (unknown email, or the email was not sent)
      its error goes to the application's error handler: nothing after it
      runs, whatever the session. */
  lemma ForgotPasswordFailureEndsThere(segs: seq<string>, auth: Result<UserRecord>, mailed: bool, query: map<string, string>)
    requires PathMatches([Lit("forgotpassword")], segs)
    requires !mailed
    ensures Outcome(Post, segs, auth, mailed, query) == Trace([Respond(ForgotPassword)], Answered(ForgotPassword, Fresh(query)))
  {
    ForgotPasswordChain(segs);
    var rest := [Step(Protect, true, None), Step(RestrictTo([Admin]), true, None)];
    assert Run([Step(Respond(ForgotPassword), true, None)] + rest, auth, mailed, Fresh(query))
        == Trace([Respond(ForgotPassword)], Answered(ForgotPassword, Fresh(query)));
  }

  /** Every request that no public route takes is refused by `protect` when
      it carries no valid session. */
  lemma NoSessionNoFurther(m: Verb, segs: seq<string>, auth: Result<UserRecord>, mailed: bool, query: map<string, string>)
    requires PastPublicRoutes(m, segs)
    requires auth.Err?
    ensures Outcome(m, segs, auth, mailed, query).end == Refused(Protect, auth.error)
  {
    ChainPastPublicRoutes(m, segs);
    ProtectFirst(true, None, Chain(SessionRoutes, m, segs), auth, mailed, Fresh(query));
  }

  /** The outcome of a self-service route: it needs a session and nothing
      more, so any role may use it. */
  function SessionOnly(auth: Result<UserRecord>, c: Controller, id: Option<string>, query: map<string, string>): End {
    if auth.Err? then Refused(Protect, auth.error) else Answered(c, State(Some(auth.value), id, query))
  }

  /** How a request that passes the public routes and then meets `steps`
      ends, when `steps` starts with a controller. */
  lemma {:induction false} BehindSessionGate(m: Verb, segs: seq<string>, c: Controller, id: Option<string>,
                                             auth: Result<UserRecord>, mailed: bool, query: map<string, string>)
    requires PastPublicRoutes(m, segs)
    requires !ContinuesAfterResponse(c)
    requires |Chain(SessionRoutes, m, segs)| >= 1
    requires Chain(SessionRoutes, m, segs)[..1] == [Step(Respond(c), true, None)]
    ensures Outcome(m, segs, auth, mailed, query).end == SessionOnly(auth, c, None, query)
  {
    ChainPastPublicRoutes(m, segs);
    var after := Chain(SessionRoutes, m, segs);
    ProtectFirst(true, None, after, auth, mailed, Fresh(query));
    assert after == [Step(Respond(c), true, None)] + after[1..];
    if auth.Ok? {
      AnswerFirst(c, true, None, after[1..], auth, mailed, Fresh(query).(reqUser := Some(auth.value)));
    }
  }

  /** The self-service routes need a session and no particular role, because
      they are registered before the admin gate. */
  lemma UpdatePasswordNeedsASession(segs: seq<string>, auth: Result<UserRecord>, mailed: bool, query: map<string, string>)
    requires PathMatches([Lit("updatepassword")], segs)
    ensures Outcome(Patch, segs, auth, mailed, query).end == SessionOnly(auth, UpdatePassword, None, query)
  {
    assert Chain(SessionRoutes, Patch, segs) == [Step(Respond(UpdatePassword), true, None)] + Chain(SessionRoutes.rest, Patch, segs);
    BehindSessionGate(Patch, segs, UpdatePassword, None, auth, mailed, query);
  }

  lemma DeleteSelfNeedsASession(segs: seq<string>, auth: Result<UserRecord>, mailed: bool, query: map<string, string>)
    requires PathMatches([Lit("deleteUser")], segs)
    ensures Outcome(Delete, segs, auth, mailed, query).end == SessionOnly(auth, DeleteSelf, None, query)
  {
    var l := SessionRoutes.rest;
    assert Chain(SessionRoutes, Delete, segs) == Chain(l, Delete, segs);
    assert Chain(l, Delete, segs) == [Step(Respond(DeleteSelf), true, None)] + Chain(l.rest, Delete, segs);
    BehindSessionGate(Delete, segs, DeleteSelf, None, auth, mailed, query);
  }

  lemma UpdateSelfNeedsASession(segs: seq<string>, auth: Result<UserRecord>, mailed: bool, query: map<string, string>)
    requires PathMatches([Lit("updateUser")], segs)
    ensures Outcome(Patch, segs, auth, mailed, query).end == SessionOnly(auth, UpdateSelf, None, query)
  {
    var l := SessionRoutes.rest.rest;
    assert Chain(SessionRoutes, Patch, segs) == Chain(SessionRoutes.rest, Patch, segs) == Chain(l, Patch, segs);
    assert Chain(l, Patch, segs) == [Step(Respond(UpdateSelf), true, None)] + Chain(l.rest, Patch, segs);
    BehindSessionGate(Patch, segs, UpdateSelf, None, auth, mailed, query);
  }

  /** The chain of `GET /getUser`. */
  lemma GetUserChain(segs: seq<string>)
    requires PathMatches([Lit("getUser")], segs)
    ensures Chain(UserRouter, Get, segs) ==
      [Step(Protect, true, None), Step(GetSelf, true, None), Step(Respond(GetUser), false, None)]
      + Chain(SessionRoutes.rest.rest.rest.rest, Get, segs)
  {
    assert PastPublicRoutes(Get, segs);
    ChainPastPublicRoutes(Get, segs);
    var l := SessionRoutes;
    assert Chain(l, Get, segs) == Chain(l.rest, Get, segs);
    l := l.rest;
    assert Chain(l, Get, segs) == Chain(l.rest, Get, segs);
    l := l.rest;
    assert Chain(l, Get, segs) == Chain(l.rest, Get, segs);
    l := l.rest;
    GetSelfRouteSteps(segs);
    assert Chain(l, Get, segs) == Contribution(GetSelfRoute, Get, segs) + Chain(l.rest, Get, segs);
  }

  /** `GET /getUser` runs `getSelf` before `getUser`, so the user handler is
      always asked for the session user's own id. */
  lemma GetUserIsAlwaysSelf(segs: seq<string>, auth: Result<UserRecord>, mailed: bool, query: map<string, string>)
    requires PathMatches([Lit("getUser")], segs)
    ensures Outcome(Get, segs, auth, mailed, query).end == SessionOnly(auth, GetUser, if auth.Ok? then Some(auth.value.id) else None, query)
  {
    GetUserChain(segs);
    var tail := Chain(SessionRoutes.rest.rest.rest.rest, Get, segs);
    var answer := [Step(Respond(GetUser), false, None)] + tail;
    var st := Fresh(query);
    assert Chain(UserRouter, Get, segs) == [Step(Protect, true, None)] + ([Step(GetSelf, true, None)] + answer);
    ProtectFirst(true, None, [Step(GetSelf, true, None)] + answer, auth, mailed, st);
    if auth.Ok? {
      var signedIn := st.(reqUser := Some(auth.value));
      assert Enter(st, true, None).(reqUser := Some(auth.value)) == signedIn;
      GetSelfFirst(true, None, answer, auth, mailed, signedIn);
      AnswerFirst(GetUser, false, None, tail, auth, mailed, signedIn.(paramsId := Some(auth.value.id)));
    }
  }

  /** Behind the admin gate, a request needs a session and the admin role. */
  function AdminOnly(auth: Result<UserRecord>, c: Controller, id: Option<string>, query: map<string, string>): End {
    if auth.Err? then Refused(Protect, auth.error)
    else if auth.value.role != Admin then NotAdmin
    else Answered(c, State(Some(auth.value), id, query))
  }

  /** How a request that reaches the admin routes ends, given the step they
      contribute. */
  lemma {:induction false} PastBothGates(m: Verb, segs: seq<string>, auth: Result<UserRecord>, mailed: bool, query: map<string, string>,
                                         c: Controller, id: Option<string>)
    requires PastPublicRoutes(m, segs) && PastSelfRoutes(m, segs)
    requires Chain(AdminRoutes, m, segs) == [Step(Respond(c), true, id)]
    requires !ContinuesAfterResponse(c)
    ensures Outcome(m, segs, auth, mailed, query).end == AdminOnly(auth, c, id, query)
  {
    ChainPastPublicRoutes(m, segs);
    ChainPastSelfRoutes(m, segs);
    var answer := [Step(Respond(c), true, id)];
    var st := Fresh(query);
    ProtectFirst(true, None, [Step(RestrictTo([Admin]), true, None)] + answer, auth, mailed, st);
    if auth.Ok? {
      var signedIn := st.(reqUser := Some(auth.value));
      RestrictFirst([Admin], true, None, answer, auth, mailed, signedIn);
      assert answer == answer + [];
      AnswerFirst(c, true, id, [], auth, mailed, signedIn);
    }
  }

  /** A signed-in user who is not an admin gets 403 for every request that
      neither a public nor a self-service route takes. */
  lemma NonAdminStopsAtTheAdminGate(m: Verb, segs: seq<string>, auth: Result<UserRecord>, mailed: bool, query: map<string, string>)
    requires PastPublicRoutes(m, segs) && PastSelfRoutes(m, segs)
    requires auth.Ok? && auth.value.role != Admin
    ensures Outcome(m, segs, auth, mailed, query).end == NotAdmin
  {
    ChainPastPublicRoutes(m, segs);
    ChainPastSelfRoutes(m, segs);
    var st := Fresh(query);
    var rest := Chain(AdminRoutes, m, segs);
    ProtectFirst(true, None, [Step(RestrictTo([Admin]), true, None)] + rest, auth, mailed, st);
    RestrictFirst([Admin], true, None, rest, auth, mailed, st.(reqUser := Some(auth.value)));
  }

  /** A one-segment path with a method other than POST passes the public
      routes unless it is `GET /logout` (or its HEAD). */
  lemma PublicRoutesById(m: Verb, id: string)
    requires id != "" && m != Post
    requires m == Get || m == Head ==> !SameIgnoringCase("logout", id)
    ensures PastPublicRoutes(m, [id])
  {
    assert Contribution(LoginRoute, m, [id]) == [];
    assert Contribution(SignupRoute, m, [id]) == [];
    assert Contribution(LogoutRoute, m, [id]) == [];
    assert Contribution(ForgotPasswordRoute, m, [id]) == [];
    assert Contribution(ResetPasswordRoute, m, [id]) == [];
  }

  /** A one-segment path passes the self-service routes unless it names one
      of them with its method. */
  lemma SelfRoutesById(m: Verb, id: string)
    requires id != ""
    requires m == Patch ==> !SameIgnoringCase("updatepassword", id) && !SameIgnoringCase("updateUser", id)
    requires m == Delete ==> !SameIgnoringCase("deleteUser", id)
    requires m == Get || m == Head ==> !SameIgnoringCase("getUser", id)
    ensures PastSelfRoutes(m, [id])
  {
    assert Contribution(UpdatePasswordRoute, m, [id]) == [];
    assert Contribution(DeleteSelfRoute, m, [id]) == [];
    assert Contribution(UpdateSelfRoute, m, [id]) == [];
    GetSelfRouteById(m, id);
  }

  /** The `getUser` self route takes a one-segment path only when it names it. */
  lemma GetSelfRouteById(m: Verb, id: string)
    requires m == Get || m == Head ==> !SameIgnoringCase("getUser", id)
    ensures Contribution(GetSelfRoute, m, [id]) == []
  {
    assert HandlersFor(GetSelfRoute.stack[1..], m) == (if m == Get then [Respond(GetUser)] else []);
    assert HandlersFor(GetSelfRoute.stack, m) == (if m == Get then [GetSelf, Respond(GetUser)] else []);
  }

  /** Listing all users needs a session and the admin role. */
  lemma ListingUsersIsAdminOnly(auth: Result<UserRecord>, mailed: bool, query: map<string, string>)
    ensures Outcome(Get, [], auth, mailed, query).end == AdminOnly(auth, GetAllUsers, None, query)
  {
    assert PastPublicRoutes(Get, []) && PastSelfRoutes(Get, []);
    assert Chain(AdminRoutes, Get, []) == [Step(Respond(GetAllUsers), true, None)];
    PastBothGates(Get, [], auth, mailed, query, GetAllUsers, None);
  }

  /** Reading a user by id needs a session and the admin role; the id is the
      path segment, unless it names an earlier GET route. */
  lemma GetUserByIdIsAdminOnly(id: string, auth: Result<UserRecord>, mailed: bool, query: map<string, string>)
    requires id != "" && !SameIgnoringCase("logout", id) && !SameIgnoringCase("getUser", id)
    ensures Outcome(Get, [id], auth, mailed, query).end == AdminOnly(auth, GetUser, Some(id), query)
  {
    PublicRoutesById(Get, id);
    SelfRoutesById(Get, id);
    UserByIdHandler(Get, id, GetUser);
    PastBothGates(Get, [id], auth, mailed, query, GetUser, Some(id));
  }

  /** Changing a user by id needs a session and the admin role. */
  lemma UpdateUserByIdIsAdminOnly(id: string, auth: Result<UserRecord>, mailed: bool, query: map<string, string>)
    requires id != "" && !SameIgnoringCase("updatepassword", id) && !SameIgnoringCase("updateUser", id)
    ensures Outcome(Patch, [id], auth, mailed, query).end == AdminOnly(auth, UpdateUser, Some(id), query)
  {
    PublicRoutesById(Patch, id);
    SelfRoutesById(Patch, id);
    UserByIdHandler(Patch, id, UpdateUser);
    PastBothGates(Patch, [id], auth, mailed, query, UpdateUser, Some(id));
  }

  /** Deleting a user by id needs a session and the admin role. */
  lemma DeleteUserByIdIsAdminOnly(id: string, auth: Result<UserRecord>, mailed: bool, query: map<string, string>)
    requires id != "" && !SameIgnoringCase("deleteUser", id)
    ensures Outcome(Delete, [id], auth, mailed, query).end == AdminOnly(auth, DeleteUser, Some(id), query)
  {
    PublicRoutesById(Delete, id);
    SelfRoutesById(Delete, id);
    UserByIdHandler(Delete, id, DeleteUser);
    PastBothGates(Delete, [id], auth, mailed, query, DeleteUser, Some(id));
  }
}
