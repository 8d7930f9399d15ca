/** How an Express router dispatches one request: its layers are tried in
    registration order, every layer whose path (and, for a route, method)
    matches contributes its handlers, and the handlers run one after another
    until one of them responds or passes an error to `next`. */
module Routing {
  import opened Js
  import opened Errors
  import opened UserModel
  import AuthController

  // ---------------------------------------------------------------------------
  // Paths

  /** An HTTP request method. */
  datatype Verb = Get | Head | Post | Put | Patch | Delete | Options

  /** One segment of a registered path: literal text, or a `:name` parameter. */
  datatype Seg = Lit(text: string) | Param(name: string)

  /** The segments of a request path: the text after the leading `/` split at
      every `/`, with a trailing `/` ignored (routers are not strict). */
  function PathSegments(path: string): (segs: seq<string>)
    ensures forall i :: 0 <= i < |segs| ==> '/' !in segs[i]
  {
    var body := if StartsWith(path, "/") then path[1..] else path;
    var parts := Split(body, '/');
    if parts[|parts| - 1] == "" then parts[..|parts| - 1] else parts
  }

  /** Appending one more piece to a join appends a separator and that piece. */
  lemma {:induction false} JoinAppend(parts: seq<string>, last: string, sep: char)
    requires |parts| >= 1
    ensures Join(parts + [last], sep) == Join(parts, sep) + [sep] + last
  {
    if |parts| > 1 {
      JoinAppend(parts[1..], last, sep);
      assert (parts + [last])[1..] == parts[1..] + [last];
    }
  }

  /** A path with a leading slash splits after it. */
  lemma PathSegmentsOfSlashed(body: string)
    ensures PathSegments("/" + body) ==
      var parts := Split(body, '/'); if parts[|parts| - 1] == "" then parts[..|parts| - 1] else parts
  {
    assert StartsWith("/" + body, "/");
    assert ("/" + body)[1..] == body;
  }

  /** Reading a path back into segments gives the segments it was built from. */
  lemma PathSegmentsOfJoin(segs: seq<string>)
    requires |segs| >= 1
    requires forall i :: 0 <= i < |segs| ==> segs[i] != "" && '/' !in segs[i]
    ensures PathSegments("/" + Join(segs, '/')) == segs
  {
    SplitJoin(segs, '/');
    PathSegmentsOfSlashed(Join(segs, '/'));
  }

  /** A trailing slash does not change the segments. */
  lemma TrailingSlashIgnored(segs: seq<string>)
    requires |segs| >= 1
    requires forall i :: 0 <= i < |segs| ==> segs[i] != "" && '/' !in segs[i]
    ensures PathSegments("/" + Join(segs, '/') + "/") == segs
  {
    var j := Join(segs, '/');
    var longer := segs + [""];
    JoinAppend(segs, "", '/');
    assert Join(longer, '/') == j + "/";
    SplitJoin(longer, '/');
    assert "/" + j + "/" == "/" + (j + "/");
    PathSegmentsOfSlashed(j + "/");
    assert longer[..|segs|] == segs;
  }

  /** Equality without regard to (ASCII) case, character by character. */
  predicate SameIgnoringCase(a: string, b: string) {
    if |a| != |b| then false
    else if a == [] then true
    else LowerChar(a[0]) == LowerChar(b[0]) && SameIgnoringCase(a[1..], b[1..])
  }

  /** Comparing character by character is comparing the lower-cased strings. */
  lemma {:induction false} SameIgnoringCaseIsLowerEquality(a: string, b: string)
    ensures SameIgnoringCase(a, b) <==> Lower(a) == Lower(b)
  {
    if |a| == |b| && a != [] {
      SameIgnoringCaseIsLowerEquality(a[1..], b[1..]);
      assert Lower(a) == [LowerChar(a[0])] + Lower(a[1..]);
      assert Lower(b) == [LowerChar(b[0])] + Lower(b[1..]);
    }
  }

  /** Literal segments match without regard to case; a parameter matches any
      non-empty segment. */
  predicate SegMatches(p: Seg, s: string) {
    match p
    case Lit(text) => SameIgnoringCase(text, s)
    case Param(_) => s != ""
  }

  /** A route's path matches the whole request path. */
  predicate PathMatches(pattern: seq<Seg>, segs: seq<string>) {
    |pattern| == |segs| && forall i :: 0 <= i < |segs| ==> SegMatches(pattern[i], segs[i])
  }

  /** A `use` path matches a leading run of whole segments of the request path. */
  predicate PrefixMatches(pattern: seq<Seg>, segs: seq<string>) {
    |pattern| <= |segs| && forall i :: 0 <= i < |pattern| ==> SegMatches(pattern[i], segs[i])
  }

  /** `req.params.id` as a matched layer sets it. */
  function IdParam(pattern: seq<Seg>, segs: seq<string>): (r: Option<string>)
    requires |pattern| <= |segs|
    ensures r.Some? ==> exists i :: 0 <= i < |pattern| && pattern[i] == Param("id") && r.value == segs[i]
    ensures r.None? ==> Param("id") !in pattern
  {
    if pattern == [] then None
    else if pattern[0] == Param("id") then Some(segs[0])
    else IdParam(pattern[1..], segs[1..])
  }

  // ---------------------------------------------------------------------------
  // Handlers and layers

  /** The controllers the two routers hand requests to. `ReviewRouter` is the
      nested router for reviews, which is not part of this model and is taken
      to answer every request it is given. */
  datatype Controller =
    | LogIn | SignUp | Logout | ForgotPassword | ResetPassword
    | UpdatePassword | DeleteSelf | UpdateSelf | GetUser | GetAllUsers | UpdateUser | DeleteUser
    | GetTour | GetStats | GetAllTours | GetSlugTours | SearchTour | CreateTour | UpdateTour | DeleteTour
    | ReviewRouter

  /** A middleware function as the routers register it. */
  datatype Handler =
    | Protect
    | RestrictTo(roles: seq<Role>)
      /** `getSelf`: copies the session user's id into `req.params.id`. */
    | GetSelf
      /** `getTopTen`: forces `sort=-price` and `limit=10` on the query. */
    | GetTopTen
      /** `(req, res, next) => { next(); }` */
    | PassOn
    | Respond(c: Controller)

  /** A registered layer. A route holds its handlers with the method each was
      registered for; `router.use(path, f)` is one layer per function. */
  datatype Layer = Route(path: seq<Seg>, stack: seq<(Verb, Handler)>) | Use(prefix: seq<Seg>, handler: Handler)

  /** The handlers of a route registered for `v`, in registration order. */
  function HandlersFor(stack: seq<(Verb, Handler)>, v: Verb): seq<Handler> {
    if stack == [] then []
    else (if stack[0].0 == v then [stack[0].1] else []) + HandlersFor(stack[1..], v)
  }

  /** `HandlersFor` keeps exactly the handlers registered for `v`. */
  lemma {:induction false} HandlersForKeepsVerb(stack: seq<(Verb, Handler)>, v: Verb)
    ensures forall h :: h in HandlersFor(stack, v) <==> (v, h) in stack
  {
    if stack != [] {
      HandlersForKeepsVerb(stack[1..], v);
      assert stack == [stack[0]] + stack[1..];
    }
  }

  /** The stack entries `route.<v>(h1, h2, ...)` adds. */
  function Under(v: Verb, hs: seq<Handler>): seq<(Verb, Handler)> {
    if hs == [] then [] else [(v, hs[0])] + Under(v, hs[1..])
  }

  /** Handlers registered one after the other are found in that order. */
  lemma {:induction false} HandlersForAppend(a: seq<(Verb, Handler)>, b: seq<(Verb, Handler)>, v: Verb)
    ensures HandlersFor(a + b, v) == HandlersFor(a, v) + HandlersFor(b, v)
  {
    if a != [] {
      HandlersForAppend(a[1..], b, v);
      assert (a + b)[0] == a[0];
      assert (a + b)[1..] == a[1..] + b;
    } else {
      assert a + b == b;
    }
  }

  /** `route.<u>(hs...)` serves exactly `hs` for `u` and nothing for other methods. */
  lemma {:induction false} HandlersForUnder(u: Verb, hs: seq<Handler>, v: Verb)
    ensures HandlersFor(Under(u, hs), v) == if u == v then hs else []
  {
    if hs != [] {
      HandlersForUnder(u, hs[1..], v);
      assert Under(u, hs)[1..] == Under(u, hs[1..]);
      assert hs == [hs[0]] + hs[1..];
    }
  }

  /** Whether a route has a handler for `v`. */
  predicate HandlesVerb(stack: seq<(Verb, Handler)>, v: Verb) {
    HandlersFor(stack, v) != []
  }

  /** The method a route serves a request with: HEAD falls back to GET. */
  function ServedAs(stack: seq<(Verb, Handler)>, m: Verb): Verb {
    if m == Head && !HandlesVerb(stack, Head) then Get else m
  }

  /** One handler as the chain holds it: whether it is the first handler of its
      layer (where `req.params` is set afresh) and the id parameter that layer
      matched. */
  datatype Step = Step(handler: Handler, entersLayer: bool, id: Option<string>)

  /** The handlers of one layer after its first, as steps. */
  function Following(hs: seq<Handler>, id: Option<string>): seq<Step> {
    if hs == [] then [] else [Step(hs[0], false, id)] + Following(hs[1..], id)
  }

  /** The steps for the handlers of one matched layer. */
  function LayerSteps(hs: seq<Handler>, id: Option<string>): seq<Step> {
    if hs == [] then [] else [Step(hs[0], true, id)] + Following(hs[1..], id)
  }

  /** The steps one layer contributes to a request. */
  function Contribution(layer: Layer, m: Verb, segs: seq<string>): seq<Step> {
    match layer
    case Route(path, stack) =>
      if PathMatches(path, segs) then LayerSteps(HandlersFor(stack, ServedAs(stack, m)), IdParam(path, segs))
      else []
    case Use(prefix, h) =>
      if PrefixMatches(prefix, segs) then [Step(h, true, IdParam(prefix, segs))] else []
  }

  /** A router's layers in registration order. */
  datatype Layers = NoLayers | Then(first: Layer, rest: Layers)

  /** The middleware chain a request meets: the contributions of all layers,
      in registration order. */
  function Chain(layers: Layers, m: Verb, segs: seq<string>): seq<Step> {
    match layers
    case NoLayers => []
    case Then(first, rest) => Contribution(first, m, segs) + Chain(rest, m, segs)
  }

  /** A route without HEAD handlers answers HEAD exactly as it answers GET. */
  lemma HeadFollowsGet(layer: Layer, segs: seq<string>)
    requires layer.Route? && !HandlesVerb(layer.stack, Head)
    ensures Contribution(layer, Head, segs) == Contribution(layer, Get, segs)
  {
  }

  // ---------------------------------------------------------------------------
  // Running a chain

  /** What the handlers have set on the request so far. */
  datatype State = State(reqUser: Option<UserRecord>, paramsId: Option<string>, query: map<string, string>)

  /** A request as it enters the router, with its query string. */
  function Fresh(query: map<string, string>): State {
    State(None, None, query)
  }

  /** How the run ends: a controller answers (with the request as it sees it),
      a handler passes an error to `next`, or every handler calls `next` and
      the request leaves the router. */
  datatype End = Answered(controller: Controller, seen: State) | Refused(at: Handler, error: Failure) | LeftRouter

  /** The handlers that ran, in order, and how the run ended. */
  datatype Trace = Trace(ran: seq<Handler>, end: End)

  /** Whether a controller calls `next()` after a successful response: only
      `forgotPassword` does. When it fails (no user with that email, or the
      email could not be sent) it passes the error to `next` instead, which
      leaves the router for the application's error handler. */
  predicate ContinuesAfterResponse(c: Controller) {
    c == ForgotPassword
  }

  function Prepend(h: Handler, t: Trace): (r: Trace)
    ensures r.ran == [h] + t.ran && r.end == t.end
  {
    Trace([h] + t.ran, t.end)
  }

  /** Runs the chain. `auth` is the decision `protect` takes on the request's
      token (`AuthController.Authenticate`); `mailed` is whether
      `forgotPassword` succeeds on this request (see
      `AuthController.ForgotPasswordSucceeds`). */
  function Run(chain: seq<Step>, auth: Result<UserRecord>, mailed: bool, st: State): (t: Trace)
    decreases |chain|
  {
    if chain == [] then Trace([], LeftRouter)
    else
      var step := chain[0];
      var now := if step.entersLayer then st.(paramsId := step.id) else st;
      var h := step.handler;
      match h
      case Protect =>
        if auth.Err? then Trace([h], Refused(h, auth.error))
        else Prepend(h, Run(chain[1..], auth, mailed, now.(reqUser := Some(auth.value))))
      case RestrictTo(roles) =>
        var denied := AuthController.RestrictTo(roles, now.reqUser);
        if denied.Some? then Trace([h], Refused(h, denied.value))
        else Prepend(h, Run(chain[1..], auth, mailed, now))
      case GetSelf =>
        if now.reqUser.None? then Trace([h], Refused(h, ScriptError("TypeError")))
        else Prepend(h, Run(chain[1..], auth, mailed, now.(paramsId := Some(now.reqUser.value.id))))
      case GetTopTen =>
        Prepend(h, Run(chain[1..], auth, mailed, now.(query := now.query["sort" := "-price"]["limit" := "10"])))
      case PassOn =>
        Prepend(h, Run(chain[1..], auth, mailed, now))
      case Respond(c) =>
        if ContinuesAfterResponse(c) && mailed then Prepend(h, Run(chain[1..], auth, mailed, now))
        else Trace([h], Answered(c, now))
  }

  /** The request as the handlers of a layer see it on entry. */
  function Enter(st: State, entersLayer: bool, id: Option<string>): State {
    if entersLayer then st.(paramsId := id) else st
  }

  /** A controller at the head of the chain answers at once. */
  lemma AnswerFirst(c: Controller, e: bool, id: Option<string>, rest: seq<Step>, auth: Result<UserRecord>, mailed: bool, st: State)
    requires !ContinuesAfterResponse(c)
    ensures Run([Step(Respond(c), e, id)] + rest, auth, mailed, st) == Trace([Respond(c)], Answered(c, Enter(st, e, id)))
  {
  }

  /** `protect` at the head of the chain: it refuses a request without a
      session, and otherwise attaches the session user and passes on. */
  lemma ProtectFirst(e: bool, id: Option<string>, rest: seq<Step>, auth: Result<UserRecord>, mailed: bool, st: State)
    ensures Run([Step(Protect, e, id)] + rest, auth, mailed, st) ==
      if auth.Err? then Trace([Protect], Refused(Protect, auth.error))
      else Prepend(Protect, Run(rest, auth, mailed, Enter(st, e, id).(reqUser := Some(auth.value))))
  {
    assert ([Step(Protect, e, id)] + rest)[1..] == rest;
  }

  /** `restrictTo` at the head of the chain: it passes on exactly when the
      attached user has one of the roles. */
  lemma RestrictFirst(roles: seq<Role>, e: bool, id: Option<string>, rest: seq<Step>, auth: Result<UserRecord>, mailed: bool, st: State)
    requires st.reqUser.Some?
    ensures Run([Step(RestrictTo(roles), e, id)] + rest, auth, mailed, st) ==
      if st.reqUser.value.role !in roles
      then Trace([RestrictTo(roles)], Refused(RestrictTo(roles), AppError(AuthController.NoPermission, Some(403))))
      else Prepend(RestrictTo(roles), Run(rest, auth, mailed, Enter(st, e, id)))
  {
    assert ([Step(RestrictTo(roles), e, id)] + rest)[1..] == rest;
  }

  /** `getSelf` at the head of the chain points `req.params.id` at the user
      an earlier `protect` attached. */
  lemma GetSelfFirst(e: bool, id: Option<string>, rest: seq<Step>, auth: Result<UserRecord>, mailed: bool, st: State)
    requires st.reqUser.Some?
    ensures Run([Step(GetSelf, e, id)] + rest, auth, mailed, st) ==
      Prepend(GetSelf, Run(rest, auth, mailed, Enter(st, e, id).(paramsId := Some(st.reqUser.value.id))))
  {
    assert ([Step(GetSelf, e, id)] + rest)[1..] == rest;
  }

  /** Handlers that only admit or refuse. */
  predicate IsGate(h: Handler) {
    h.Protect? || h.RestrictTo?
  }

  /** The declarative reading of a run of gates: every `protect` needs a
      session, and every `restrictTo` needs a role it lists and a user attached
      by an earlier `protect` (or, with `signedIn`, by one before the run). */
  predicate Admits(gates: seq<Step>, auth: Result<UserRecord>, signedIn: bool) {
    && (forall i :: 0 <= i < |gates| && gates[i].handler.Protect? ==> auth.Ok?)
    && (forall i :: 0 <= i < |gates| && gates[i].handler.RestrictTo? ==>
          && auth.Ok?
          && (signedIn || exists j :: 0 <= j < i && gates[j].handler.Protect?)
          && auth.value.role in gates[i].handler.roles)
  }

  /** Unfolding `Admits` by one gate. */
  lemma AdmitsStep(gates: seq<Step>, auth: Result<UserRecord>, signedIn: bool)
    requires gates != []
    ensures gates[0].handler.Protect? ==>
      (Admits(gates, auth, signedIn) <==> auth.Ok? && Admits(gates[1..], auth, true))
    ensures gates[0].handler.RestrictTo? ==>
      (Admits(gates, auth, signedIn) <==>
        auth.Ok? && signedIn && auth.value.role in gates[0].handler.roles && Admits(gates[1..], auth, signedIn))
  {
    if gates[0].handler.Protect? && auth.Ok? && Admits(gates[1..], auth, true) {
      forall i | 0 <= i < |gates| && gates[i].handler.RestrictTo?
        ensures auth.value.role in gates[i].handler.roles
      {
        assert gates[1..][i - 1] == gates[i];
      }
    }
  }

  /** A controller behind a run of gates answers exactly when the gates admit
      the request, and then it sees the session user whenever a user is
      attached; otherwise one of the gates refuses the request. */
  lemma {:induction false} GatedAnswer(gates: seq<Step>, c: Controller, e: bool, id: Option<string>,
                                       rest: seq<Step>, auth: Result<UserRecord>, mailed: bool, st: State, signedIn: bool)
    requires forall i :: 0 <= i < |gates| ==> IsGate(gates[i].handler)
    requires !ContinuesAfterResponse(c)
    requires signedIn ==> auth.Ok? && st.reqUser == Some(auth.value)
    requires !signedIn ==> st.reqUser.None?
    ensures var t := Run(gates + [Step(Respond(c), e, id)] + rest, auth, mailed, st);
            && (Admits(gates, auth, signedIn) <==> t.end.Answered?)
            && (t.end.Answered? ==> t.end.controller == c && (t.end.seen.reqUser.Some? ==> auth.Ok? && t.end.seen.reqUser == Some(auth.value)))
            && (!t.end.Answered? ==> t.end.Refused? && IsGate(t.end.at))
    decreases |gates|
  {
    var chain := gates + [Step(Respond(c), e, id)] + rest;
    if gates == [] {
      assert chain[0] == Step(Respond(c), e, id);
    } else {
      var tail := gates[1..] + [Step(Respond(c), e, id)] + rest;
      assert chain == [gates[0]] + tail;
      var st' := Enter(st, gates[0].entersLayer, gates[0].id);
      AdmitsStep(gates, auth, signedIn);
      match gates[0].handler
      case Protect =>
        ProtectFirst(gates[0].entersLayer, gates[0].id, tail, auth, mailed, st);
        if auth.Ok? {
          GatedAnswer(gates[1..], c, e, id, rest, auth, mailed, st'.(reqUser := Some(auth.value)), true);
        }
      case RestrictTo(roles) =>
        assert chain[1..] == tail;
        if AuthController.RestrictTo(roles, st'.reqUser).None? {
          GatedAnswer(gates[1..], c, e, id, rest, auth, mailed, st', signedIn);
        }
    }
  }
}
