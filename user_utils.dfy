/**
 * utils/user.js: resolving the `X-Token` header to a Redis key and a user id.
 */
module UserUtils {
  import opened Values
  import opened Stores

  const TokenPrefix := "auth_"

  /**
   * The Redis key of a token, `auth_${token}`. A request without an
   * `X-Token` header interpolates `undefined`.
   */
  function TokenKey(token: Option<string>): string
  {
    TokenPrefix + match token case Some(t) => t case None => "undefined"
  }

  /** What `getUserIdAndKey` returns: the stored user id (or null) and the key. */
  datatype Session = Session(userId: Option<Id>, key: string)

  /**
   * `getUserIdAndKey`. Its call to `verifyUser` is not awaited, so the guard
   * tests a pending promise, which is always truthy: the result depends on
   * the token store alone, never on whether the user still exists.
   */
  function GetUserIdAndKey(tokens: map<string, Id>, token: Option<string>): (s: Session)
    ensures s.key == TokenKey(token)
    ensures s.userId.Some? <==> s.key in tokens
    ensures s.userId.Some? ==> s.userId.value == tokens[s.key]
  {
    var key := TokenKey(token);
    Session(if key in tokens then Some(tokens[key]) else None, key)
  }

  /**
   * `verifyUser`: the user a token belongs to, or null. `lookupFails` is a
   * rejected Redis or Mongo call, which the function turns into null.
   */
  function VerifyUser(users: seq<User>, tokens: map<string, Id>, token: Option<string>, lookupFails: bool): (u: Option<User>)
    ensures u.Some? <==>
      && token.Some? && token.value != ""
      && !lookupFails
      && TokenKey(token) in tokens && tokens[TokenKey(token)] < |users|
    ensures u.Some? ==> u.value == users[tokens[TokenKey(token)]]
  {
    if token.None? || token.value == "" then None
    else if lookupFails then None
    else
      var key := TokenKey(token);
      if key !in tokens then None
      else FindUserById(users, Some(tokens[key]))
  }

  /**
   * The prologue of the authenticated handlers: `getUserIdAndKey` followed
   * by `getUser({ _id: ObjectId(userId) })`. The id of an existing user, or
   * None when the handler answers 401.
   */
  function Authenticate(users: seq<User>, tokens: map<string, Id>, token: Option<string>): (uid: Option<Id>)
    ensures uid.Some? ==> uid.value < |users|
    ensures uid.Some? ==> TokenKey(token) in tokens && tokens[TokenKey(token)] == uid.value
    ensures uid.None? ==> TokenKey(token) !in tokens || tokens[TokenKey(token)] >= |users|
  {
    var userId := GetUserIdAndKey(tokens, token).userId;
    if FindUserById(users, userId).Some? then userId else None
  }

  /** Different tokens have different keys, so sessions never share an entry. */
  lemma TokenKeyInjective(a: string, b: string)
    ensures TokenKey(Some(a)) == TokenKey(Some(b)) ==> a == b
  {
    if TokenKey(Some(a)) == TokenKey(Some(b)) {
      assert a == TokenKey(Some(a))[|TokenPrefix|..];
      assert b == TokenKey(Some(b))[|TokenPrefix|..];
    }
  }

  /** A request without `X-Token` is resolved exactly like the token "undefined". */
  lemma MissingTokenActsAsUndefined(tokens: map<string, Id>)
    ensures GetUserIdAndKey(tokens, None) == GetUserIdAndKey(tokens, Some("undefined"))
  {
  }

  /**
   * `verifyUser` succeeds exactly when the token is non-empty, no lookup
   * fails and the handlers' prologue would find a live user.
   */
  lemma VerifyUserAgreesWithAuthenticate(users: seq<User>, tokens: map<string, Id>, token: Option<string>, lookupFails: bool)
    ensures VerifyUser(users, tokens, token, lookupFails).Some? <==>
      token.Some? && token.value != "" && !lookupFails && Authenticate(users, tokens, token).Some?
    ensures VerifyUser(users, tokens, token, lookupFails).Some? ==>
      VerifyUser(users, tokens, token, lookupFails).value == users[Authenticate(users, tokens, token).value]
  {
  }

  /**
   * A token whose user no longer exists still resolves to a user id, but
   * neither `verifyUser` nor the handlers' prologue accepts it.
   */
  lemma StaleTokenStillResolves(users: seq<User>, tokens: map<string, Id>, t: string)
    requires TokenKey(Some(t)) in tokens && tokens[TokenKey(Some(t))] >= |users|
    ensures GetUserIdAndKey(tokens, Some(t)).userId == Some(tokens[TokenKey(Some(t))])
    ensures Authenticate(users, tokens, Some(t)).None?
    ensures VerifyUser(users, tokens, Some(t), false).None?
  {
  }
}
