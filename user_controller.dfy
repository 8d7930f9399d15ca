/** controllers/userController.js: the allow-list filter over a request body
    and the self-service handlers that act on the session user. */
module UserController {
  import opened Js
  import opened Errors
  import opened UserModel
  import opened Http

  const NotForPasswords := "This route is not for password updates. Please use /updateMyPassword."

  // ---------------------------------------------------------------------------
  // filterObj

  /** The properties of `m` whose keys are allowed, with their values. */
  function Filtered(m: map<string, Json>, allowedFields: seq<string>): (r: map<string, Json>)
    ensures forall k :: k in r ==> k in allowedFields && k in m && r[k] == m[k]
    ensures forall k :: k in m && k in allowedFields ==> k in r
  {
    map k | k in m && k in allowedFields :: m[k]
  }

  /** Filtering twice with the same allow-list is filtering once. */
  lemma FilteredIdempotent(m: map<string, Json>, allowedFields: seq<string>)
    ensures Filtered(Filtered(m, allowedFields), allowedFields) == Filtered(m, allowedFields)
  {
  }

  /** `filterObj(obj, ...allowedFields)`: deletes, in place, every own property
      whose key is not allowed, and returns the same object. */
  method FilterObj(obj: JsObject, allowedFields: seq<string>) returns (r: JsObject)
    modifies obj
    ensures r == obj
    ensures obj.props == Filtered(old(obj.props), allowedFields)
  {
    ghost var original := obj.props;
    var keys := obj.props.Keys;
    while keys != {}
      invariant keys <= original.Keys
      invariant forall k :: k in obj.props <==> k in original && (k in keys || k in allowedFields)
      invariant forall k :: k in obj.props ==> obj.props[k] == original[k]
      decreases keys
    {
      var el :| el in keys;
      if el !in allowedFields {
        obj.props := obj.props - {el};
      }
      keys := keys - {el};
    }
    assert obj.props.Keys == Filtered(original, allowedFields).Keys;
    r := obj;
  }

  // ---------------------------------------------------------------------------
  // getSelf

  /** `getSelf`: points `req.params.id` at the session user, so that the
      handler after it reads that user; with nobody attached it throws. */
  method GetSelf(ex: Exchange) returns (err: Option<Failure>)
    modifies ex`paramsId
    ensures ex.reqUser.Some? ==> err == None && ex.paramsId == Some(ex.reqUser.value.id)
    ensures ex.reqUser.None? ==> err == Some(ScriptError("TypeError")) && ex.paramsId == old(ex.paramsId)
  {
    if ex.reqUser.None? {
      return Some(ScriptError("TypeError"));
    }
    ex.paramsId := Some(ex.reqUser.value.id);
    err := None;
  }

  // ---------------------------------------------------------------------------
  // updateSelf

  /** What Mongoose's cast makes of a value set on a `String` path. */
  datatype StringCast = Cast(value: Option<string>) | Uncastable

  /** An object with a truthy string `_id`, which Mongoose takes for a
      document and casts to that id. */
  predicate HasStringId(v: Json) {
    v.JObj? && "_id" in v.fields && v.fields["_id"].JStr? && v.fields["_id"].s != ""
  }

  /** The cast of a body value to a `String` path: `null` is stored as null, a
      string as itself, a number or a boolean as its `toString()` (`numText` is
      `Number.prototype.toString`), a document-like object as its `_id`; an
      array or any other object cannot be cast. */
  function CastString(v: Json, numText: real -> string): (r: StringCast)
    ensures r.Uncastable? <==> v.JArr? || (v.JObj? && !HasStringId(v))
    ensures r.Cast? && r.value.None? <==> v.JNull?
    ensures v.JStr? ==> r == Cast(Some(v.s))
    ensures v.JNum? ==> r == Cast(Some(numText(v.n)))
    ensures v.JBool? ==> r == Cast(Some(if v.b then "true" else "false"))
    ensures HasStringId(v) ==> r == Cast(Some(v.fields["_id"].s))
  {
    match v
    case JNull => Cast(None)
    case JBool(b) => Cast(Some(if b then "true" else "false"))
    case JNum(n) => Cast(Some(numText(n)))
    case JStr(s) => Cast(Some(s))
    case JArr(_) => Uncastable
    case JObj(fields) => if HasStringId(v) then Cast(Some(fields["_id"].s)) else Uncastable
  }

  /** A value the cast has stored casts to itself again. */
  lemma CastIsStable(v: Json, numText: real -> string)
    requires CastString(v, numText).Cast?
    ensures var c := CastString(v, numText).value;
      CastString(if c.Some? then JStr(c.value) else JNull, numText) == CastString(v, numText)
  {
  }

  /** The filtered body cast path by path (both `name` and `email` are
      `String` paths); none when some value cannot be cast. */
  function CastProfile(update: map<string, Json>, numText: real -> string): (r: Option<map<string, Option<string>>>)
    ensures r.None? <==> exists k :: k in update && CastString(update[k], numText).Uncastable?
    ensures r.Some? ==> r.value.Keys == update.Keys
    ensures r.Some? ==> forall k :: k in update ==> r.value[k] == CastString(update[k], numText).value
  {
    if exists k :: k in update && CastString(update[k], numText).Uncastable? then None
    else Some(map k | k in update :: CastString(update[k], numText).value)
  }

  /** The user after `findByIdAndUpdate` with a cast update: each path in the
      update replaces the stored value, and nothing else changes. */
  function ApplyProfile(u: UserRecord, update: map<string, Option<string>>): (r: UserRecord)
    ensures "name" in update ==> r.name == update["name"]
    ensures "name" !in update ==> r.name == u.name
    ensures "email" in update ==> r.email == update["email"]
    ensures "email" !in update ==> r.email == u.email
    ensures r.(name := u.name, email := u.email) == u
  {
    var name := if "name" in update then update["name"] else u.name;
    var email := if "email" in update then update["email"] else u.email;
    u.(name := name, email := email)
  }

  /** What a body's `name` or `email` makes of the stored value once cast. */
  function ProfileValue(body: map<string, Json>, key: string, stored: Option<string>, numText: real -> string): Option<string> {
    if key in body && CastString(body[key], numText).Cast? then CastString(body[key], numText).value else stored
  }

  /** The password guard of `updateSelf`. */
  predicate AsksForPasswordChange(body: map<string, Json>) {
    Truthy(Get(body, "password")) || Truthy(Get(body, "passwordConfirm"))
  }

  /** The body's `name` or `email` is a value Mongoose cannot cast to a string. */
  predicate ProfileUncastable(body: map<string, Json>, numText: real -> string) {
    || ("name" in body && CastString(body["name"], numText).Uncastable?)
    || ("email" in body && CastString(body["email"], numText).Uncastable?)
  }

  /** Casting the filtered body fails exactly when the body's `name` or
      `email` cannot be cast, and otherwise holds their casts. */
  lemma CastOfFilteredBody(body: map<string, Json>, numText: real -> string)
    ensures var cast := CastProfile(Filtered(body, ["name", "email"]), numText);
      && (cast.None? <==> ProfileUncastable(body, numText))
      && (cast.Some? ==> forall k :: k in ["name", "email"] ==>
            (k in cast.value <==> k in body) && (k in body ==> cast.value[k] == CastString(body[k], numText).value))
  {
    var update := Filtered(body, ["name", "email"]);
    assert "name" in body ==> "name" in update && update["name"] == body["name"];
    assert "email" in body ==> "email" in update && update["email"] == body["email"];
  }

  /** `updateSelf` on the user collection. A body with a truthy `password` or
      `passwordConfirm` is refused with 400 before anything changes; otherwise
      only `name` and `email` reach `findByIdAndUpdate`, which casts them,
      then runs the update validators (`validUpdate`) on the cast update, and
      only then looks the session user up. Only that user's record can
      change, and only in those two fields. The reply is the updated user, or
      nothing when the session user's record is gone. */
  function UpdateSelfEffect(users: seq<UserRecord>, reqUser: Option<UserRecord>, body: map<string, Json>,
                            numText: real -> string, validUpdate: map<string, Option<string>> -> bool)
    : (e: Effect<seq<UserRecord>, Option<UserRecord>>)
    ensures AsksForPasswordChange(body) ==> e == Effect(users, Err(AppError(NotForPasswords, Some(400))))
    ensures !AsksForPasswordChange(body) && reqUser.None? ==> e == Effect(users, Err(ScriptError("TypeError")))
    ensures !AsksForPasswordChange(body) && reqUser.Some? ==>
      var cast := CastProfile(Filtered(body, ["name", "email"]), numText);
      && (ProfileUncastable(body, numText) ==> e == Effect(users, Err(CastError)))
      && (cast.Some? && !validUpdate(cast.value) ==> e == Effect(users, Err(ValidationError)))
      && (cast.Some? && validUpdate(cast.value) && FindById(users, reqUser.value.id).None? ==>
            e == Effect(users, Ok(None)))
      && (cast.Some? && validUpdate(cast.value) && FindById(users, reqUser.value.id).Some? ==>
            var i := FindById(users, reqUser.value.id).value;
            && e.store == users[i := ApplyProfile(users[i], cast.value)]
            && e.reply == Ok(Some(e.store[i]))
            && e.store[i].name == ProfileValue(body, "name", users[i].name, numText)
            && e.store[i].email == ProfileValue(body, "email", users[i].email, numText))
    ensures |e.store| == |users|
    ensures forall j :: 0 <= j < |users| ==> e.store[j].(name := users[j].name, email := users[j].email) == users[j]
    ensures forall j :: 0 <= j < |users| && e.store[j] != users[j] ==> reqUser.Some? && users[j].id == reqUser.value.id
    ensures e.reply.Ok? && e.reply.value.Some? ==> reqUser.Some? && e.reply.value.value.id == reqUser.value.id
  {
    if AsksForPasswordChange(body) then Effect(users, Err(AppError(NotForPasswords, Some(400))))
    else if reqUser.None? then Effect(users, Err(ScriptError("TypeError")))
    else
      CastOfFilteredBody(body, numText);
      match CastProfile(Filtered(body, ["name", "email"]), numText)
      case None => Effect(users, Err(CastError))
      case Some(update) =>
        if !validUpdate(update) then Effect(users, Err(ValidationError))
        else match FindById(users, reqUser.value.id)
          case None => Effect(users, Ok(None))
          case Some(i) =>
            var u := ApplyProfile(users[i], update);
            Effect(users[i := u], Ok(Some(u)))
  }

  /** A number sent as the name is stored as its text. */
  lemma NumericNameIsStoredAsText(users: seq<UserRecord>, me: UserRecord, n: real, numText: real -> string,
                                  validUpdate: map<string, Option<string>> -> bool)
    requires FindById(users, me.id).Some?
    requires validUpdate(map["name" := Some(numText(n))])
    ensures var e := UpdateSelfEffect(users, Some(me), map["name" := JNum(n)], numText, validUpdate);
      && e.reply.Ok?
      && e.store[FindById(users, me.id).value].name == Some(numText(n))
      && e.store[FindById(users, me.id).value].email == users[FindById(users, me.id).value].email
  {
    var body := map["name" := JNum(n)];
    assert Filtered(body, ["name", "email"]) == body;
    var cast := CastProfile(body, numText);
    assert cast.Some? && cast.value.Keys == {"name"} && cast.value["name"] == Some(numText(n));
    assert cast.value == map["name" := Some(numText(n))];
  }

  /** An array or a plain object sent as the email is a cast error, and
      nothing changes. */
  lemma ObjectEmailIsACastError(users: seq<UserRecord>, me: UserRecord, body: map<string, Json>,
                                numText: real -> string, validUpdate: map<string, Option<string>> -> bool)
    requires !AsksForPasswordChange(body)
    requires "email" in body && (body["email"].JArr? || (body["email"].JObj? && "_id" !in body["email"].fields))
    ensures UpdateSelfEffect(users, Some(me), body, numText, validUpdate) == Effect(users, Err(CastError))
  {
    assert ProfileUncastable(body, numText);
  }

  /** A body that tries to raise the caller's role, or to set any field other
      than name and email, leaves that field as it was. */
  lemma UpdateSelfCannotChangeRole(users: seq<UserRecord>, reqUser: Option<UserRecord>, body: map<string, Json>,
                                   numText: real -> string, validUpdate: map<string, Option<string>> -> bool, j: nat)
    requires j < |users|
    ensures var after := UpdateSelfEffect(users, reqUser, body, numText, validUpdate).store;
      && after[j].role == users[j].role
      && after[j].password == users[j].password
      && after[j].active == users[j].active
      && after[j].passwordResetToken == users[j].passwordResetToken
  {
    var after := UpdateSelfEffect(users, reqUser, body, numText, validUpdate).store;
    assert after[j].(name := users[j].name, email := users[j].email) == users[j];
  }

  /** `updateSelf` as the controller runs it: the guard, then `filterObj` on
      `req.body` itself, then the update keyed by `req.user.id`. */
  method UpdateSelf(ex: Exchange, store: UserStore, numText: real -> string,
                    validUpdate: map<string, Option<string>> -> bool)
    returns (reply: Result<Option<UserRecord>>)
    modifies ex.body, store
    ensures Effect(store.users, reply) == UpdateSelfEffect(old(store.users), ex.reqUser, old(ex.body.props), numText, validUpdate)
    ensures ex.body.props == if AsksForPasswordChange(old(ex.body.props)) then old(ex.body.props)
                             else Filtered(old(ex.body.props), ["name", "email"])
  {
    if Truthy(Get(ex.body.props, "password")) || Truthy(Get(ex.body.props, "passwordConfirm")) {
      return Err(AppError(NotForPasswords, Some(400)));
    }
    var filteredBody := FilterObj(ex.body, ["name", "email"]);
    if ex.reqUser.None? {
      return Err(ScriptError("TypeError"));
    }
    var cast := CastProfile(filteredBody.props, numText);
    if cast.None? {
      return Err(CastError);
    }
    if !validUpdate(cast.value) {
      return Err(ValidationError);
    }
    var found := FindById(store.users, ex.reqUser.value.id);
    if found.None? {
      return Ok(None);
    }
    var updatedUser := ApplyProfile(store.users[found.value], cast.value);
    store.users := store.users[found.value := updatedUser];
    reply := Ok(Some(updatedUser));
  }

  // ---------------------------------------------------------------------------
  // deleteSelf

  /** `deleteSelf` as written: its `const user` shadows the imported model,
      so `user.findByIdAndUpdate` reads the constant before it is initialised
      and throws a ReferenceError; nothing is changed. */
  function DeleteSelfAsWritten(users: seq<UserRecord>, reqUser: Option<UserRecord>): (e: Effect<seq<UserRecord>, ()>)
    ensures e.store == users
    ensures e.reply == Err(ScriptError("ReferenceError"))
  {
    Effect(users, Err(ScriptError("ReferenceError")))
  }

  /** As written, a user who asks to be deleted stays active. */
  lemma DeleteSelfAsWrittenKeepsAccountActive(users: seq<UserRecord>, me: UserRecord)
    requires FindById(users, me.id).Some? && users[FindById(users, me.id).value].active
    ensures var e := DeleteSelfAsWritten(users, Some(me));
      e.store[FindById(users, me.id).value].active && e.reply == Err(ScriptError("ReferenceError"))
  {
  }

  /** `deleteSelf` as evidently intended: a soft delete. The session user's
      record gets `active = false` and is saved with validation; no record is
      removed and no other record or field changes. */
  function DeactivateEffect(users: seq<UserRecord>, reqUser: Option<UserRecord>,
                            validUser: UserRecord -> bool): (e: Effect<seq<UserRecord>, ()>)
    ensures |e.store| == |users|
    ensures forall j :: 0 <= j < |users| ==>
      e.store[j] == users[j] || (e.store[j] == users[j].(active := false) && reqUser.Some? && users[j].id == reqUser.value.id)
    ensures e.reply.Ok? ==>
      reqUser.Some? && FindById(users, reqUser.value.id).Some? && !e.store[FindById(users, reqUser.value.id).value].active
  {
    if reqUser.None? then Effect(users, Err(ScriptError("TypeError")))
    else match FindById(users, reqUser.value.id)
      case None => Effect(users, Err(ScriptError("TypeError")))
      case Some(i) =>
        var u := users[i].(active := false);
        if !validUser(u) then Effect(users, Err(ValidationError))
        else Effect(users[i := u], Ok(()))
  }

  /** `deleteSelf` as evidently intended, run against the store. */
  method DeleteSelf(ex: Exchange, store: UserStore, validUser: UserRecord -> bool) returns (reply: Result<()>)
    modifies store
    ensures Effect(store.users, reply) == DeactivateEffect(old(store.users), ex.reqUser, validUser)
  {
    if ex.reqUser.None? {
      return Err(ScriptError("TypeError"));
    }
    var found := FindById(store.users, ex.reqUser.value.id);
    if found.None? {
      return Err(ScriptError("TypeError"));
    }
    var doc := store.users[found.value].(active := false);
    if !validUser(doc) {
      return Err(ValidationError);
    }
    store.users := store.users[found.value := doc];
    reply := Ok(());
  }
}
