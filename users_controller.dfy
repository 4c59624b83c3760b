/**
 * controllers/UsersController.js: registration (`POST /users`) and the
 * current user (`GET /users/me`).
 */
module UsersController {
  import opened Values
  import opened Stores
  import opened UserUtils

  /**
   * The result of `users.insertOne` as the driver returns it: the new id is
   * its `insertedId` property, and it has no `_id` property.
   */
  datatype InsertOneResult = InsertOneResult(insertedId: Id)

  /** The two properties of an insert result that `postNew` could read for the new id. */
  datatype ResultKey = InsertedIdKey | UnderscoreIdKey

  /**
   * Reading `insertedId` or `_id` of an insert result: the first is the new
   * id, the second is `undefined`. The result's other properties are not
   * part of this model.
   */
  function ResultProperty(result: InsertOneResult, key: ResultKey): (v: Value)
    ensures key == InsertedIdKey ==> v == Num(result.insertedId)
    ensures key == UnderscoreIdKey ==> v == Undefined
  {
    match key
    case InsertedIdKey => Num(result.insertedId)
    case UnderscoreIdKey => Undefined
  }

  /**
   * `postNew` as written reads `newUser._id`; `toString()` on that
   * `undefined` throws a TypeError (whose message is `thrown`) after the user
   * was inserted. The catch block enqueues an empty job and answers 500, and
   * the email is taken from then on.
   */
  method PostNewAsWritten(db: DocumentStore, userQueue: JobQueue, email: Value, password: Value,
                          findError: Option<string>, insertError: Option<string>, thrown: string,
                          env: Foreign) returns (r: Response)
    requires db.Valid()
    modifies db, userQueue
    ensures db.Valid() && db.files == old(db.files)
    ensures
      && Truthy(email) && Truthy(password) && findError.None? && insertError.None?
      && FindUser(old(db.users), ByEmail(email), 0).None?
      ==>
      && db.users == old(db.users) + [User(email, env.sha1(password))]
      && FindUser(db.users, ByEmail(email), 0) == Some(|old(db.users)|)
      && userQueue.jobs == old(userQueue.jobs) + [EmptyJob]
      && r == Response(500, ErrorBody(thrown))
  {
    if !Truthy(email) {
      return Response(400, ErrorBody("Missing email"));
    }
    if !Truthy(password) {
      return Response(400, ErrorBody("Missing password"));
    }
    if findError.Some? {
      userQueue.Add(EmptyJob);
      return Response(500, ErrorBody(findError.value));
    }
    if FindUser(db.users, ByEmail(email), 0).Some? {
      return Response(400, ErrorBody("Already exist"));
    }
    if insertError.Some? {
      userQueue.Add(EmptyJob);
      return Response(500, ErrorBody(insertError.value));
    }
    var id := db.InsertUser(User(email, env.sha1(password)));
    FindUserAfterInsert(old(db.users), User(email, env.sha1(password)), ByEmail(email), 0);
    // `newUser._id` is undefined, so `newUser._id.toString()` throws and the
    // catch block answers.
    var userId := ResultProperty(InsertOneResult(id), UnderscoreIdKey);
    assert userId == Undefined;
    userQueue.Add(EmptyJob);
    r := Response(500, ErrorBody(thrown));
  }

  /**
   * `postNew`, reading the new id from `insertedId`. The fields are checked
   * in order, a taken email is refused before any insert, a failing store
   * call is 500 with an empty job, and a new user is stored with the sha1 of
   * the password, never the password. `findError` and `insertError` are the
   * messages of a rejected `findOne` or `insertOne`.
   */
  method PostNew(db: DocumentStore, userQueue: JobQueue, email: Value, password: Value,
                 findError: Option<string>, insertError: Option<string>, env: Foreign) returns (r: Response)
    requires db.Valid()
    modifies db, userQueue
    ensures db.Valid() && db.files == old(db.files)
    ensures !Truthy(email) ==> r == Response(400, ErrorBody("Missing email")) && unchanged(db, userQueue)
    ensures Truthy(email) && !Truthy(password) ==>
      r == Response(400, ErrorBody("Missing password")) && unchanged(db, userQueue)
    ensures Truthy(email) && Truthy(password) && findError.Some? ==>
      && r == Response(500, ErrorBody(findError.value))
      && db.users == old(db.users) && userQueue.jobs == old(userQueue.jobs) + [EmptyJob]
    ensures Truthy(email) && Truthy(password) && findError.None? ==>
      if FindUser(old(db.users), ByEmail(email), 0).Some? then
        r == Response(400, ErrorBody("Already exist")) && unchanged(db, userQueue)
      else if insertError.Some? then
        && r == Response(500, ErrorBody(insertError.value))
        && db.users == old(db.users) && userQueue.jobs == old(userQueue.jobs) + [EmptyJob]
      else
        var id := |old(db.users)|;
        && db.users == old(db.users) + [User(email, env.sha1(password))]
        && userQueue.jobs == old(userQueue.jobs) + [UserJob(id)]
        && r == Response(201, UserBody(email, id))
  {
    if !Truthy(email) {
      return Response(400, ErrorBody("Missing email"));
    }
    if !Truthy(password) {
      return Response(400, ErrorBody("Missing password"));
    }
    if findError.Some? {
      userQueue.Add(EmptyJob);
      return Response(500, ErrorBody(findError.value));
    }
    if FindUser(db.users, ByEmail(email), 0).Some? {
      return Response(400, ErrorBody("Already exist"));
    }
    if insertError.Some? {
      userQueue.Add(EmptyJob);
      return Response(500, ErrorBody(insertError.value));
    }
    var id := db.InsertUser(User(email, env.sha1(password)));
    var userId := ResultProperty(InsertOneResult(id), InsertedIdKey);
    assert userId == Num(id);
    userQueue.Add(UserJob(id));
    r := Response(201, UserBody(email, id));
  }

  /**
   * A user registered with a fresh email and a string password can log in
   * with them: the credentials lookup of `getConnect` finds exactly that user.
   */
  lemma RegisteredUserCanLogIn(users: seq<User>, email: string, password: string, env: Foreign)
    requires FindUser(users, ByEmail(Str(email)), 0).None?
    ensures
      var hash := env.sha1(Str(password));
      FindUser(users + [User(Str(email), hash)], ByCredentials(Str(email), hash), 0) == Some(|users|)
  {
    FindUserAfterInsert(users, User(Str(email), env.sha1(Str(password))),
                        ByCredentials(Str(email), env.sha1(Str(password))), 0);
  }

  /**
   * `getMe`: the email and id of the user the token resolves to. A rejected
   * user lookup (`lookupFails`) is answered 500.
   */
  function GetMe(users: seq<User>, tokens: map<string, Id>, token: Option<string>, lookupFails: bool): (r: Response)
    ensures lookupFails ==> r == Response(500, ErrorBody("Server Error"))
    ensures !lookupFails && Authenticate(users, tokens, token).None? ==> r == Unauthorized
    ensures r.Response? && r.status == 200 <==> !lookupFails && Authenticate(users, tokens, token).Some?
    ensures r.Response? && r.status == 200 ==>
      var id := tokens[TokenKey(token)];
      r.body == UserBody(users[id].email, id)
  {
    var uid := Authenticate(users, tokens, token);
    if lookupFails then Response(500, ErrorBody("Server Error"))
    else if uid.None? then Unauthorized
    else Response(200, UserBody(users[uid.value].email, uid.value))
  }
}
