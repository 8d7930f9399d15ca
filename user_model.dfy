/** The surface of the user collection that the controllers touch. The schema
    itself (models/userModel.js) is not part of this model: its validators and
    save hooks reach the controllers only through the oracles they are given. */
module UserModel {
  import opened Js

  /** The `role` enum of a user. */
  datatype Role = User | Guide | LeadGuide | Admin

  /** A user document. `password` is the stored (hashed) password, absent when
      it was not selected or was stripped for a response; the reset fields hold
      the SHA-256 hex digest of the reset token and its expiry in milliseconds.
      `name` and `email` are absent when the stored value is `null`. */
  datatype UserRecord = UserRecord(
    id: string,
    name: Option<string>,
    email: Option<string>,
    password: Option<string>,
    confirmPassword: Option<string>,
    role: Role,
    passwordResetToken: Option<string>,
    passwordResetExpires: Option<int>,
    active: bool)

  /** The index of the first element satisfying `p`: what `findOne` returns on a
      collection scanned in natural order. */
  function FindFirst<T>(s: seq<T>, p: T -> bool): (r: Option<nat>)
    ensures r.Some? ==> r.value < |s| && p(s[r.value])
    ensures r.Some? ==> forall j :: 0 <= j < r.value ==> !p(s[j])
    ensures r.None? ==> forall j :: 0 <= j < |s| ==> !p(s[j])
  {
    if s == [] then None
    else if p(s[0]) then Some(0)
    else match FindFirst(s[1..], p)
      case None => None
      case Some(i) => Some(i + 1)
  }

  /** `findById(id)`. */
  function FindById(users: seq<UserRecord>, id: string): (r: Option<nat>)
    ensures r.Some? ==> r.value < |users| && users[r.value].id == id
    ensures r.None? ==> forall j :: 0 <= j < |users| ==> users[j].id != id
  {
    FindFirst(users, (u: UserRecord) => u.id == id)
  }

  /** `findOne({ email })`; an absent email is taken to match no user. */
  function FindByEmail(users: seq<UserRecord>, email: Option<string>): (r: Option<nat>)
    ensures r.Some? ==> email.Some? && r.value < |users| && users[r.value].email == email
    ensures r.None? && email.Some? ==> forall j :: 0 <= j < |users| ==> users[j].email != email
  {
    if email.None? then None else FindFirst(users, (u: UserRecord) => u.email == email)
  }

  /** The user collection, in natural order. Controllers read it and write
      single documents back in place. */
  class UserStore {
    var users: seq<UserRecord>

    constructor(users: seq<UserRecord>)
      ensures this.users == users
    {
      this.users := users;
    }
  }
}
