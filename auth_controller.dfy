/**
 * controllers/AuthController.js: logging in with `Authorization: Basic
 * base64(email:password)` and logging out with `X-Token`.
 */
module AuthController {
  import opened Values
  import opened Stores
  import opened UserUtils
  import opened Text

  /** Tokens live for 24 hours; Redis is given the expiry in seconds. */
  const TokenHours := 24
  const TokenTtl := TokenHours * 3600

  const BasicPrefix := "Basic "

  /**
   * The credentials of an `Authorization` header: the base64 decoding of the
   * second space-separated field, split on ':', of which only the first two
   * parts are used. None is every case `getConnect` answers 401 before
   * looking anything up.
   */
  function Credentials(authorization: Option<string>, env: Foreign): (c: Option<(string, string)>)
    ensures c.Some? ==> authorization.Some? && StartsWith(authorization.value, BasicPrefix)
    ensures c.Some? ==> c.value.0 != "" && c.value.1 != "" && ':' !in c.value.0 && ':' !in c.value.1
  {
    if authorization.None? || !StartsWith(authorization.value, BasicPrefix) then None
    else
      var header := authorization.value;
      assert header == "Basic" + [' '] + header[|BasicPrefix|..];
      SplitAfterWord("Basic", ' ', header[|BasicPrefix|..]);
      var parts := Split(env.base64Text(Split(header, ' ')[1]), ':');
      if parts[0] == "" || |parts| < 2 || parts[1] == "" then None
      else Some((parts[0], parts[1]))
  }

  /**
   * A well-formed header gives back the email and password it encodes,
   * whatever follows a second ':' in the decoded text.
   */
  lemma {:induction false} CredentialsRoundTrip(field: string, email: string, password: string, tail: string, env: Foreign)
    requires ' ' !in field
    requires email != "" && password != "" && ':' !in email && ':' !in password
    requires tail == "" || tail[0] == ':'
    requires env.base64Text(field) == email + ":" + password + tail
    ensures Credentials(Some(BasicPrefix + field), env) == Some((email, password))
  {
    var header := BasicPrefix + field;
    assert header == "Basic" + [' '] + field;
    SplitAfterWord("Basic", ' ', field);
    SplitWord(field, ' ');
    assert Split(header, ' ')[1] == field;
    var decoded := email + ":" + password + tail;
    assert decoded == email + [':'] + (password + tail);
    SplitAfterWord(email, ':', password + tail);
    if tail == "" {
      assert password + tail == password;
      SplitWord(password, ':');
    } else {
      assert password + tail == password + [':'] + tail[1..];
      SplitAfterWord(password, ':', tail[1..]);
    }
  }

  /**
   * Conversely, credentials always come from the header: whatever the
   * header, its second space-separated field decodes to the email, ':', the
   * password, and possibly more text starting with ':'. So a decoded text
   * with an empty first or second part gives none.
   */
  lemma {:induction false} CredentialsFromHeader(header: string, email: string, password: string, env: Foreign)
    requires Credentials(Some(header), env) == Some((email, password))
    ensures |Split(header, ' ')| >= 2
    ensures exists tail ::
      && (tail == "" || tail[0] == ':')
      && env.base64Text(Split(header, ' ')[1]) == email + ":" + password + tail
  {
    assert header == "Basic" + [' '] + header[|BasicPrefix|..];
    SplitAfterWord("Basic", ' ', header[|BasicPrefix|..]);
    var decoded := env.base64Text(Split(header, ' ')[1]);
    var parts := Split(decoded, ':');
    assert |parts| >= 2 && parts[0] == email && parts[1] == password;
    JoinSplit(decoded, ':');
    assert decoded == email + [':'] + Join(parts[1..], ':');
    var tail := if |parts| == 2 then "" else [':'] + Join(parts[2..], ':');
    assert parts[1..][1..] == parts[2..];
    assert Join(parts[1..], ':') == password + tail;
    assert decoded == email + ":" + password + tail;
  }

  /**
   * `getConnect`: a user matching the email and `sha1(password)` gets a new
   * token `uuid`, stored as `auth_<uuid>` for 24 hours. Every failure, with
   * or without such an email, is the same 401.
   */
  method GetConnect(users: seq<User>, tokens: TokenStore, authorization: Option<string>,
                    uuid: string, env: Foreign) returns (r: Response)
    modifies tokens
    ensures Credentials(authorization, env).None? ==> r == Unauthorized && unchanged(tokens)
    ensures
      var c := Credentials(authorization, env);
      c.Some? ==>
        var found := FindUser(users, ByCredentials(Str(c.value.0), env.sha1(Str(c.value.1))), 0);
        && (found.None? ==> r == Unauthorized && unchanged(tokens))
        && (found.Some? ==>
              && r == Response(200, TokenBody(uuid))
              && tokens.entries == old(tokens.entries)[TokenKey(Some(uuid)) := found.value]
              && tokens.ttl == old(tokens.ttl)[TokenKey(Some(uuid)) := TokenTtl])
  {
    var c := Credentials(authorization, env);
    if c.None? {
      return Unauthorized;
    }
    var (email, password) := c.value;
    var found := FindUser(users, ByCredentials(Str(email), env.sha1(Str(password))), 0);
    if found.None? {
      return Unauthorized;
    }
    tokens.Set(TokenKey(Some(uuid)), found.value, TokenTtl);
    r := Response(200, TokenBody(uuid));
  }

  /** After a login, the new token resolves to the user, and every other token to what it did before. */
  lemma IssuedTokenResolves(entries: map<string, Id>, uuid: string, id: Id, other: string)
    ensures GetUserIdAndKey(entries[TokenKey(Some(uuid)) := id], Some(uuid)).userId == Some(id)
    ensures other != uuid ==>
      GetUserIdAndKey(entries[TokenKey(Some(uuid)) := id], Some(other)) == GetUserIdAndKey(entries, Some(other))
  {
    TokenKeyInjective(uuid, other);
  }

  /**
   * `getDisconnect`: a token that resolves to a user id is deleted, and only
   * that key; any other gives 401. The user is not looked up.
   */
  method GetDisconnect(tokens: TokenStore, token: Option<string>) returns (r: Response)
    modifies tokens
    ensures TokenKey(token) !in old(tokens.entries) ==> r == Unauthorized && unchanged(tokens)
    ensures TokenKey(token) in old(tokens.entries) ==>
      && r == Response(204, NoBody)
      && tokens.entries == old(tokens.entries) - {TokenKey(token)}
      && tokens.ttl == old(tokens.ttl) - {TokenKey(token)}
  {
    var session := GetUserIdAndKey(tokens.entries, token);
    if session.userId.None? {
      return Unauthorized;
    }
    tokens.Del(session.key);
    r := Response(204, NoBody);
  }

  /** After a logout the token no longer resolves; every other token is untouched. */
  lemma RevokedTokenIsGone(entries: map<string, Id>, token: string, other: string)
    ensures GetUserIdAndKey(entries - {TokenKey(Some(token))}, Some(token)).userId.None?
    ensures other != token ==>
      GetUserIdAndKey(entries - {TokenKey(Some(token))}, Some(other)) == GetUserIdAndKey(entries, Some(other))
  {
    TokenKeyInjective(token, other);
  }
}
