/** `get_current_user`: resolve a bearer token to a row of `users`, creating the row on first sight. */
module CurrentUser {
  import opened Wrappers
  import opened UserModels
  import opened HttpErrors

  /** The claims of a token the identity provider accepted; either claim may be missing. */
  datatype DecodedToken = DecodedToken(uid: Option<string>, email: Option<string>)

  const Unauthorized: HttpError := HttpError(401, "Credenciales de autenticación inválidas", true)
  /** A failed insert (a NOT NULL or UNIQUE column violated) surfaces as a server error. */
  const InsertFailed: HttpError := HttpError(500, "Internal Server Error", false)

  /** The lookup by `firebase_uid`, taking the first match. */
  function FindByUid(users: seq<User>, uid: string): (r: Option<User>)
    ensures r.Some? ==> r.value in users && r.value.firebaseUid == uid
    ensures r.None? <==> forall u :: u in users ==> u.firebaseUid != uid
  {
    if users == [] then None
    else if users[0].firebaseUid == uid then Some(users[0])
    else FindByUid(users[1..], uid)
  }

  predicate EmailTaken(users: seq<User>, email: string) {
    exists u :: u in users && u.email == email
  }

  /** The table's constraints: ids below the next id, unique `firebase_uid`, unique `email`. */
  predicate TableValid(users: seq<User>, nextId: int) {
    (forall i :: 0 <= i < |users| ==> users[i].id < nextId) &&
    (forall i, j :: 0 <= i < j < |users| ==> users[i].id != users[j].id) &&
    (forall i, j :: 0 <= i < j < |users| ==> users[i].firebaseUid != users[j].firebaseUid) &&
    (forall i, j :: 0 <= i < j < |users| ==> users[i].email != users[j].email)
  }

  /** The outcome of one call: the user or the error, and the table afterwards. */
  datatype Outcome = Outcome(result: Result<User, HttpError>, users: seq<User>)

  /**
   * The whole dependency over a table, as a function. `token` is what the verifier returned
   * (`None` when it rejected the token); `nextId` is the id the next insert receives.
   */
  function GetOrCreate(users: seq<User>, nextId: int, token: Option<DecodedToken>): (o: Outcome)
    ensures token.None? ==> o == Outcome(Err(Unauthorized), users)
    ensures token.Some? && token.value.uid.None? ==> o == Outcome(Err(InsertFailed), users)
    ensures o.result.Ok? ==> token.Some? && token.value.uid == Some(o.result.value.firebaseUid)
    ensures o.result.Ok? ==> o.result.value in o.users
    ensures o.result.Err? ==> o.users == users
    ensures o.users == users || o.users == users + [o.result.value]
    ensures token.Some? && token.value.uid.Some? && FindByUid(users, token.value.uid.value).Some? ==>
      o == Outcome(Ok(FindByUid(users, token.value.uid.value).value), users)
    ensures token.Some? && token.value.uid.Some? && FindByUid(users, token.value.uid.value).None? ==>
      (token.value.email.Some? && !EmailTaken(users, token.value.email.value) <==> o.result.Ok?) &&
      (o.result.Ok? ==> o.users == users + [User(nextId, token.value.uid.value, token.value.email.value, DefaultTier)]) &&
      (o.result.Err? ==> o.result.error == InsertFailed)
  {
    if token.None? then Outcome(Err(Unauthorized), users)
    else if token.value.uid.None? then Outcome(Err(InsertFailed), users)
    else
      var uid := token.value.uid.value;
      var found := FindByUid(users, uid);
      if found.Some? then Outcome(Ok(found.value), users)
      else if token.value.email.None? || EmailTaken(users, token.value.email.value) then
        Outcome(Err(InsertFailed), users)
      else
        var user := User(nextId, uid, token.value.email.value, DefaultTier);
        Outcome(Ok(user), users + [user])
  }

  /** The id counter after a call. */
  function NextIdAfter(users: seq<User>, nextId: int, o: Outcome): int {
    if |o.users| > |users| then nextId + 1 else nextId
  }

  /** A call keeps the table's constraints. */
  lemma GetOrCreateKeepsValid(users: seq<User>, nextId: int, token: Option<DecodedToken>)
    requires TableValid(users, nextId)
    ensures var o := GetOrCreate(users, nextId, token);
            TableValid(o.users, NextIdAfter(users, nextId, o))
  {
    var o := GetOrCreate(users, nextId, token);
    if o.users != users {
      var u := o.result.value;
      assert o.users == users + [u];
      assert FindByUid(users, u.firebaseUid).None?;
      assert !EmailTaken(users, u.email);
      forall i | 0 <= i < |users| ensures users[i].firebaseUid != u.firebaseUid && users[i].email != u.email {
        assert users[i] in users;
      }
    }
  }

  /** Calling twice with the same token yields the same user and the second call inserts nothing. */
  lemma GetOrCreateIdempotent(users: seq<User>, nextId: int, token: Option<DecodedToken>)
    requires TableValid(users, nextId)
    ensures var o1 := GetOrCreate(users, nextId, token);
            var o2 := GetOrCreate(o1.users, NextIdAfter(users, nextId, o1), token);
            o2.users == o1.users && o2.result == o1.result
  {
    var o1 := GetOrCreate(users, nextId, token);
    if o1.result.Ok? && o1.users != users {
      var u := o1.result.value;
      var uid := token.value.uid.value;
      assert o1.users == users + [u];
      assert FindByUid(users, uid).None?;
      FindAfterAppend(users, u, uid);
    }
  }

  /** Looking up the uid of a row appended after every other row finds that row. */
  lemma {:induction false} FindAfterAppend(users: seq<User>, u: User, uid: string)
    requires FindByUid(users, uid).None? && u.firebaseUid == uid
    ensures FindByUid(users + [u], uid) == Some(u)
    decreases |users|
  {
    if users == [] {
      assert [] + [u] == [u];
    } else {
      assert (users + [u])[1..] == users[1..] + [u];
      assert users[0].firebaseUid != uid;
      FindAfterAppend(users[1..], u, uid);
    }
  }

  /** The `users` table as the dependency sees it through its session. */
  class UsersTable {
    var users: seq<User>
    var nextId: int

    predicate Valid()
      reads this
    {
      TableValid(users, nextId)
    }

    constructor ()
      ensures Valid() && users == [] && nextId == 1
    {
      users, nextId := [], 1;
    }

    /** `get_current_user`: the lookup, then the insert when the uid is new. */
    method GetCurrentUser(token: Option<DecodedToken>) returns (r: Result<User, HttpError>)
      requires Valid()
      modifies this
      ensures Valid()
      ensures Outcome(r, users) == GetOrCreate(old(users), old(nextId), token)
      ensures nextId == NextIdAfter(old(users), old(nextId), Outcome(r, users))
    {
      GetOrCreateKeepsValid(users, nextId, token);
      if token.None? {
        return Err(Unauthorized);
      }
      if token.value.uid.None? {
        return Err(InsertFailed);
      }
      var uid := token.value.uid.value;
      var found := FindByUid(users, uid);
      if found.Some? {
        return Ok(found.value);
      }
      var email := token.value.email;
      if email.None? || EmailTaken(users, email.value) {
        return Err(InsertFailed);
      }
      var user := User(nextId, uid, email.value, DefaultTier);
      users := users + [user];
      nextId := nextId + 1;
      r := Ok(user);
    }
  }
}
