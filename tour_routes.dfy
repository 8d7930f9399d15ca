/** routers/tourRouters.js: the tour router's registration table. Reads are
    public, writes pass `protect` and `restrictTo('admin', 'lead-guide')`, and
    `/:tourId/reviews` is handed to the review router. Paths are relative to
    the router's mount point. */
module TourRoutes {
  import opened Js
  import opened Errors
  import opened UserModel
  import opened Routing
  import AuthController

  /** `restrictTo('admin', 'lead-guide')`. */
  const Staff := RestrictTo([Admin, LeadGuide])

  const TopTenRoute := Route([Lit("topten")], [(Get, GetTopTen), (Get, Respond(GetTour))])
  const StatsRoute := Route([Lit("getstats")], [(Get, Respond(GetStats))])
  /** `router.use('/:tourId/reviews', passOn, reviewRouter)`, one layer per handler. */
  const ReviewsPrefix := [Param("tourId"), Lit("reviews")]
  const RootRoute := Route([],
    Under(Get, [Respond(GetTour)])
    + Under(Patch, [Protect, Staff, Respond(UpdateTour)])
    + Under(Post, [Protect, Staff, Respond(CreateTour)]))
  const SearchRoute := Route([Lit("search")], [(Get, Respond(GetAllTours))])
  const SlugRoute := Route([Lit("search"), Param("slug")], [(Get, Respond(GetSlugTours))])
  const TourByIdRoute := Route([Param("id")],
    Under(Get, [Respond(SearchTour)])
    + Under(Patch, [Protect, Staff, Respond(UpdateTour)])
    + Under(Delete, [Protect, Staff, Respond(DeleteTour)]))

  /** The layers from `/` on. */
  const TableRoutes := Then(RootRoute, Then(SearchRoute, Then(SlugRoute, Then(TourByIdRoute, NoLayers))))

  /** The whole router, in registration order. */
  const TourRouter :=
    Then(TopTenRoute, Then(StatsRoute, Then(Use(ReviewsPrefix, PassOn), Then(Use(ReviewsPrefix, Respond(ReviewRouter)),
    TableRoutes))))

  /** How a request to this router ends. */
  function Outcome(m: Verb, segs: seq<string>, auth: Result<UserRecord>, query: map<string, string>): Trace {
    Run(Chain(TourRouter, m, segs), auth, false, Fresh(query))
  }

  /** How a write ends: it needs a session and the admin or lead-guide role. */
  function StaffOnly(auth: Result<UserRecord>, c: Controller, id: Option<string>, query: map<string, string>): End {
    if auth.Err? then Refused(Protect, auth.error)
    else if auth.value.role !in [Admin, LeadGuide] then Refused(Staff, AppError(AuthController.NoPermission, Some(403)))
    else Answered(c, State(Some(auth.value), id, query))
  }

  /** A write's three handlers at the head of a chain end as `StaffOnly` says. */
  lemma StaffGate(c: Controller, id: Option<string>, rest: seq<Step>, auth: Result<UserRecord>, query: map<string, string>)
    requires !ContinuesAfterResponse(c)
    ensures Run([Step(Protect, true, id), Step(Staff, false, id), Step(Respond(c), false, id)] + rest, auth, false, Fresh(query)).end
      == StaffOnly(auth, c, id, query)
  {
    var answer := [Step(Respond(c), false, id)] + rest;
    var st := Fresh(query);
    assert [Step(Protect, true, id), Step(Staff, false, id), Step(Respond(c), false, id)] + rest
        == [Step(Protect, true, id)] + ([Step(Staff, false, id)] + answer);
    ProtectFirst(true, id, [Step(Staff, false, id)] + answer, auth, false, st);
    if auth.Ok? {
      var signedIn := State(Some(auth.value), id, query);
      assert Enter(st, true, id).(reqUser := Some(auth.value)) == signedIn;
      RestrictFirst([Admin, LeadGuide], false, id, answer, auth, false, signedIn);
      AnswerFirst(c, false, id, rest, auth, false, signedIn);
    }
  }

  // ---------------------------------------------------------------------------
  // The layers a request passes

  /** Neither `/topten` nor `/getstats` takes a request that is not a GET of
      that one segment. */
  predicate PastStatsRoutes(m: Verb, segs: seq<string>) {
    Contribution(TopTenRoute, m, segs) == [] && Contribution(StatsRoute, m, segs) == []
  }

  /** A request that is not a GET or HEAD, or whose path has a number of
      segments other than one, goes past the first two routes. */
  lemma PastStatsRoutesWhen(m: Verb, segs: seq<string>)
    requires (m != Get && m != Head) || |segs| != 1
    ensures PastStatsRoutes(m, segs)
  {
    assert HandlersFor(StatsRoute.stack, m) == (if m == Get then [Respond(GetStats)] else []);
    assert HandlersFor(TopTenRoute.stack[1..], m) == (if m == Get then [Respond(GetTour)] else []);
    assert m != Get && m != Head ==> HandlersFor(TopTenRoute.stack, m) == [];
  }

  /** A request the first two routes do not take and whose path does not start
      with `:tourId/reviews` meets the table from `/` on. */
  lemma ChainToTable(m: Verb, segs: seq<string>)
    requires PastStatsRoutes(m, segs)
    requires !PrefixMatches(ReviewsPrefix, segs)
    ensures Chain(TourRouter, m, segs) == Chain(TableRoutes, m, segs)
  {
    var l := TourRouter;
    assert Chain(l, m, segs) == Chain(l.rest, m, segs);
    l := l.rest;
    assert Chain(l, m, segs) == Chain(l.rest, m, segs);
    l := l.rest;
    assert Chain(l, m, segs) == Chain(l.rest, m, segs);
    l := l.rest;
    assert Chain(l, m, segs) == Chain(l.rest, m, segs);
  }

  // ---------------------------------------------------------------------------
  // /topten and /getstats

  /** The chain of `GET /topten`. */
  lemma TopTenChain(segs: seq<string>)
    requires PathMatches([Lit("topten")], segs)
    ensures Chain(TourRouter, Get, segs) ==
      [Step(GetTopTen, true, None), Step(Respond(GetTour), false, None)] + Chain(TourRouter.rest, Get, segs)
  {
    var stack := TopTenRoute.stack;
    assert HandlersFor(stack[1..], Get) == [Respond(GetTour)];
    assert HandlersFor(stack, Get) == [GetTopTen, Respond(GetTour)];
    assert ServedAs(stack, Get) == Get;
    assert IdParam([Lit("topten")], segs) == None;
    assert Following([Respond(GetTour)], None) == [Step(Respond(GetTour), false, None)];
  }

  /** `GET /topten` needs no session, sets `sort` to `-price` and `limit` to
      `10` and leaves the rest of the query alone, then lists tours. */
  lemma TopTenForcesSortAndLimit(segs: seq<string>, auth: Result<UserRecord>, query: map<string, string>)
    requires PathMatches([Lit("topten")], segs)
    ensures Outcome(Get, segs, auth, query) ==
      Trace([GetTopTen, Respond(GetTour)], Answered(GetTour, State(None, None, query["sort" := "-price"]["limit" := "10"])))
  {
    TopTenChain(segs);
    var rest := Chain(TourRouter.rest, Get, segs);
    var chain := [Step(GetTopTen, true, None), Step(Respond(GetTour), false, None)] + rest;
    assert chain[1..] == [Step(Respond(GetTour), false, None)] + rest;
    AnswerFirst(GetTour, false, None, rest, auth, false, State(None, None, query["sort" := "-price"]["limit" := "10"]));
  }

  /** `GET /getstats` needs no session. */
  lemma StatsArePublic(segs: seq<string>, auth: Result<UserRecord>, query: map<string, string>)
    requires PathMatches([Lit("getstats")], segs)
    ensures Outcome(Get, segs, auth, query).end == Answered(GetStats, Fresh(query))
  {
    var l := TourRouter.rest;
    assert HandlersFor(TopTenRoute.stack, Get) != [];
    assert Contribution(TopTenRoute, Get, segs) == [];
    assert Chain(TourRouter, Get, segs) == Chain(l, Get, segs);
    assert HandlersFor(StatsRoute.stack, Get) == [Respond(GetStats)];
    assert Chain(l, Get, segs) == [Step(Respond(GetStats), true, None)] + Chain(l.rest, Get, segs);
    AnswerFirst(GetStats, true, None, Chain(l.rest, Get, segs), auth, false, Fresh(query));
  }

  // ---------------------------------------------------------------------------
  // /:tourId/reviews

  /** Any request under `/:tourId/reviews`, with any method and with or
      without a session, passes the pass-through handler and is answered by
      the review router; this router checks no session for it. */
  lemma ReviewsAreDelegated(m: Verb, segs: seq<string>, auth: Result<UserRecord>, query: map<string, string>)
    requires PrefixMatches(ReviewsPrefix, segs)
    ensures Outcome(m, segs, auth, query) == Trace([PassOn, Respond(ReviewRouter)], Answered(ReviewRouter, Fresh(query)))
  {
    ReviewsChain(m, segs);
    var rest := Chain(TourRouter.rest.rest.rest.rest, m, segs);
    var chain := [Step(PassOn, true, None), Step(Respond(ReviewRouter), true, None)] + rest;
    assert chain[1..] == [Step(Respond(ReviewRouter), true, None)] + rest;
    AnswerFirst(ReviewRouter, true, None, rest, auth, false, Fresh(query));
  }

  /** The chain of a request under `/:tourId/reviews`: the two handlers of
      the `use`, then whatever the table adds. */
  lemma ReviewsChain(m: Verb, segs: seq<string>)
    requires PrefixMatches(ReviewsPrefix, segs)
    ensures Chain(TourRouter, m, segs) ==
      [Step(PassOn, true, None), Step(Respond(ReviewRouter), true, None)] + Chain(TourRouter.rest.rest.rest.rest, m, segs)
  {
    PastStatsRoutesWhen(m, segs);
    var l := TourRouter;
    assert Chain(l, m, segs) == Chain(l.rest, m, segs);
    l := l.rest;
    assert Chain(l, m, segs) == Chain(l.rest, m, segs);
    l := l.rest;
    assert IdParam(ReviewsPrefix, segs) == None;
    assert Contribution(l.first, m, segs) == [Step(PassOn, true, None)];
    assert Contribution(l.rest.first, m, segs) == [Step(Respond(ReviewRouter), true, None)];
  }

  // ---------------------------------------------------------------------------
  // /

  /** `GET /` needs no session. */
  lemma ListingToursIsPublic(auth: Result<UserRecord>, query: map<string, string>)
    ensures Outcome(Get, [], auth, query).end == Answered(GetTour, Fresh(query))
  {
    PastStatsRoutesWhen(Get, []);
    ChainToTable(Get, []);
    RootHandlers(Get);
    var rest := Chain(TableRoutes.rest, Get, []);
    assert Chain(TableRoutes, Get, []) == [Step(Respond(GetTour), true, None)] + rest;
    AnswerFirst(GetTour, true, None, rest, auth, false, Fresh(query));
  }

  /** The handlers `/` registers for each method. */
  lemma RootHandlers(m: Verb)
    ensures HandlersFor(RootRoute.stack, m) ==
      (if m == Get then [Respond(GetTour)] else [])
      + (if m == Patch then [Protect, Staff, Respond(UpdateTour)] else [])
      + (if m == Post then [Protect, Staff, Respond(CreateTour)] else [])
  {
    var get := Under(Get, [Respond(GetTour)]);
    var patch := Under(Patch, [Protect, Staff, Respond(UpdateTour)]);
    var post := Under(Post, [Protect, Staff, Respond(CreateTour)]);
    HandlersForAppend(get + patch, post, m);
    HandlersForAppend(get, patch, m);
    HandlersForUnder(Get, [Respond(GetTour)], m);
    HandlersForUnder(Patch, [Protect, Staff, Respond(UpdateTour)], m);
    HandlersForUnder(Post, [Protect, Staff, Respond(CreateTour)], m);
  }

  /** The steps of a write: `protect`, the role check, then the controller. */
  lemma WriteSteps(c: Controller, id: Option<string>)
    ensures LayerSteps([Protect, Staff, Respond(c)], id) ==
      [Step(Protect, true, id), Step(Staff, false, id), Step(Respond(c), false, id)]
  {
    assert Following([Respond(c)], id) == [Step(Respond(c), false, id)];
    assert Following([Staff, Respond(c)], id) == [Step(Staff, false, id), Step(Respond(c), false, id)];
  }

  /** `PATCH /` and `POST /` need a session and the admin or lead-guide role. */
  lemma RootWritesAreStaffOnly(m: Verb, c: Controller, auth: Result<UserRecord>, query: map<string, string>)
    requires (m, c) == (Patch, UpdateTour) || (m, c) == (Post, CreateTour)
    ensures Outcome(m, [], auth, query).end == StaffOnly(auth, c, None, query)
  {
    PastStatsRoutesWhen(m, []);
    ChainToTable(m, []);
    RootHandlers(m);
    WriteSteps(c, None);
    var rest := Chain(TableRoutes.rest, m, []);
    assert HandlersFor(RootRoute.stack, m) == [Protect, Staff, Respond(c)];
    assert ServedAs(RootRoute.stack, m) == m;
    assert PathMatches([], []) && IdParam([], []) == None;
    assert Contribution(RootRoute, m, []) == LayerSteps([Protect, Staff, Respond(c)], None);
    assert Chain(TableRoutes, m, []) == [Step(Protect, true, None), Step(Staff, false, None), Step(Respond(c), false, None)] + rest;
    StaffGate(c, None, rest, auth, query);
  }

  // ---------------------------------------------------------------------------
  // /search and /search/:slug

  /** `GET /search` needs no session and lists tours: it is registered before
      `/:id`, so `search` is not taken for an id. */
  lemma SearchIsNotAnId(segs: seq<string>, auth: Result<UserRecord>, query: map<string, string>)
    requires PathMatches([Lit("search")], segs)
    ensures Outcome(Get, segs, auth, query).end == Answered(GetAllTours, Fresh(query))
  {
    SearchPastStats(segs);
    ChainToTable(Get, segs);
    SearchChain(segs);
    AnswerFirst(GetAllTours, true, None, Chain(TableRoutes.rest.rest, Get, segs), auth, false, Fresh(query));
  }

  /** `/search` is neither `/topten` nor `/getstats`. */
  lemma SearchPastStats(segs: seq<string>)
    requires PathMatches([Lit("search")], segs)
    ensures PastStatsRoutes(Get, segs)
  {
    assert HandlersFor(TopTenRoute.stack, Get) != [];
    assert HandlersFor(StatsRoute.stack, Get) != [];
  }

  /** `GET /search` skips `/` and meets `/search`. */
  lemma SearchChain(segs: seq<string>)
    requires PathMatches([Lit("search")], segs)
    ensures Chain(TableRoutes, Get, segs) == [Step(Respond(GetAllTours), true, None)] + Chain(TableRoutes.rest.rest, Get, segs)
  {
    var l := TableRoutes.rest;
    assert Chain(TableRoutes, Get, segs) == Chain(l, Get, segs);
    assert HandlersFor(SearchRoute.stack, Get) == [Respond(GetAllTours)];
    assert Chain(l, Get, segs) == [Step(Respond(GetAllTours), true, None)] + Chain(l.rest, Get, segs);
  }

  /** `GET /search/:slug` needs no session, unless the slug is `reviews`, in
      which case the review router takes the request. */
  lemma SlugSearchIsPublic(segs: seq<string>, auth: Result<UserRecord>, query: map<string, string>)
    requires PathMatches([Lit("search"), Param("slug")], segs)
    requires !SameIgnoringCase("reviews", segs[1])
    ensures Outcome(Get, segs, auth, query).end == Answered(GetSlugTours, Fresh(query))
  {
    PastStatsRoutesWhen(Get, segs);
    ChainToTable(Get, segs);
    var l := TableRoutes.rest.rest;
    assert Chain(TableRoutes, Get, segs) == Chain(TableRoutes.rest, Get, segs) == Chain(l, Get, segs);
    assert HandlersFor(SlugRoute.stack, Get) == [Respond(GetSlugTours)];
    assert IdParam(SlugRoute.path, segs) == None;
    assert Chain(l, Get, segs) == [Step(Respond(GetSlugTours), true, None)] + Chain(l.rest, Get, segs);
    AnswerFirst(GetSlugTours, true, None, Chain(l.rest, Get, segs), auth, false, Fresh(query));
  }

  // ---------------------------------------------------------------------------
  // /:id

  /** A one-segment path reaches `/:id` once the earlier routes pass it. */
  lemma ChainToTourById(m: Verb, id: string)
    requires id != ""
    requires PastStatsRoutes(m, [id])
    requires m == Get || m == Head ==> !SameIgnoringCase("search", id)
    ensures Chain(TourRouter, m, [id]) == Contribution(TourByIdRoute, m, [id])
  {
    ChainToTable(m, [id]);
    var l := TableRoutes;
    assert Contribution(RootRoute, m, [id]) == [];
    assert Chain(l, m, [id]) == Chain(l.rest, m, [id]);
    l := l.rest;
    assert HandlersFor(SearchRoute.stack, m) == (if m == Get then [Respond(GetAllTours)] else []);
    assert Contribution(SearchRoute, m, [id]) == [];
    assert Chain(l, m, [id]) == Chain(l.rest, m, [id]);
    l := l.rest;
    assert Chain(l, m, [id]) == Chain(l.rest, m, [id]);
    l := l.rest;
    assert Chain(l, m, [id]) == Contribution(TourByIdRoute, m, [id]) + Chain(NoLayers, m, [id]);
  }

  /** `GET /:id` needs no session and reads the tour the segment names, unless
      the segment names one of the GET routes registered before it. */
  lemma ReadingATourIsPublic(id: string, auth: Result<UserRecord>, query: map<string, string>)
    requires id != ""
    requires !SameIgnoringCase("topten", id) && !SameIgnoringCase("getstats", id) && !SameIgnoringCase("search", id)
    ensures Outcome(Get, [id], auth, query).end == Answered(SearchTour, State(None, Some(id), query))
  {
    ChainToTourById(Get, id);
    TourByIdHandlers(Get);
    assert IdParam([Param("id")], [id]) == Some(id);
    assert Chain(TourRouter, Get, [id]) == [Step(Respond(SearchTour), true, Some(id))] + [];
    AnswerFirst(SearchTour, true, Some(id), [], auth, false, Fresh(query));
  }

  /** The handlers `/:id` registers for each method. */
  lemma TourByIdHandlers(m: Verb)
    ensures HandlersFor(TourByIdRoute.stack, m) ==
      (if m == Get then [Respond(SearchTour)] else [])
      + (if m == Patch then [Protect, Staff, Respond(UpdateTour)] else [])
      + (if m == Delete then [Protect, Staff, Respond(DeleteTour)] else [])
  {
    var get := Under(Get, [Respond(SearchTour)]);
    var patch := Under(Patch, [Protect, Staff, Respond(UpdateTour)]);
    var delete := Under(Delete, [Protect, Staff, Respond(DeleteTour)]);
    HandlersForAppend(get + patch, delete, m);
    HandlersForAppend(get, patch, m);
    HandlersForUnder(Get, [Respond(SearchTour)], m);
    HandlersForUnder(Patch, [Protect, Staff, Respond(UpdateTour)], m);
    HandlersForUnder(Delete, [Protect, Staff, Respond(DeleteTour)], m);
  }

  /** `PATCH /:id` and `DELETE /:id` need a session and the admin or
      lead-guide role, whatever the segment says: `PATCH /search` updates the
      tour with id `search`. */
  lemma TourWritesAreStaffOnly(m: Verb, c: Controller, id: string, auth: Result<UserRecord>, query: map<string, string>)
    requires (m, c) == (Patch, UpdateTour) || (m, c) == (Delete, DeleteTour)
    requires id != ""
    ensures Outcome(m, [id], auth, query).end == StaffOnly(auth, c, Some(id), query)
  {
    PastStatsRoutesWhen(m, [id]);
    ChainToTourById(m, id);
    TourByIdHandlers(m);
    WriteSteps(c, Some(id));
    assert IdParam([Param("id")], [id]) == Some(id);
    assert HandlersFor(TourByIdRoute.stack, m) == [Protect, Staff, Respond(c)];
    assert ServedAs(TourByIdRoute.stack, m) == m;
    assert PathMatches([Param("id")], [id]);
    assert Contribution(TourByIdRoute, m, [id]) == LayerSteps([Protect, Staff, Respond(c)], Some(id));
    assert Chain(TourRouter, m, [id]) == [Step(Protect, true, Some(id)), Step(Staff, false, Some(id)), Step(Respond(c), false, Some(id))] + [];
    StaffGate(c, Some(id), [], auth, query);
  }
}
