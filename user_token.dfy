/**
 * `get_user_token`: exchange a username, password, firm id and API key for a
 * token, with a GET of `user/` under HTTP basic authentication, and read the
 * `UserToken` field of the first element of the decoded reply.
 *
 * Decoding the reply (`response.json()`) is an oracle `decode`.
 */
module UserToken {
  import opened Wrappers
  import opened Json
  import opened Transport

  const FIRM_ID_HEADER := "x-compass-firm-id"
  const API_KEY_HEADER := "x-compass-api-key"
  const USER_TOKEN_FIELD := "UserToken"

  /**
   * What the caller gets: the `UserToken` field's value, line 88's `return None`,
   * an exception, or a reply of the wrong shape.
   */
  datatype TokenResult = Token(value: Value) | NoToken | Failed(error: ClientError) | Malformed

  /**
   * The result is Python's None: line 88's `return None`, or a first element
   * whose `UserToken` field is missing or JSON null, for which `.get` gives None.
   */
  predicate IsNone(r: TokenResult) {
    r == NoToken || r == Token(Null)
  }

  /** The bootstrap call: a GET of `user/` with basic authentication and the two credential headers. */
  function UserTokenCall(username: string, password: string, firmId: string, apiKey: string): (r: Call)
    ensures r.verb == "get" && r.resource == "user/" && r.params.None? && r.data == NoData
    ensures r.auth == Some(BasicAuth(username, password))
    ensures r.headers.Some? && r.headers.value.Keys == {FIRM_ID_HEADER, API_KEY_HEADER}
    ensures r.headers.value[FIRM_ID_HEADER] == firmId && r.headers.value[API_KEY_HEADER] == apiKey
  {
    Call("get", "user/", None, NoData,
         Some(map[FIRM_ID_HEADER := firmId, API_KEY_HEADER := apiKey]),
         Some(BasicAuth(username, password)))
  }

  /**
   * `response.json()[0].get('UserToken')`: defined only on a non-empty list
   * whose first element is a dict; anything else raises in the source.
   */
  function FirstUserToken(body: Value): (r: TokenResult)
    ensures r.Token? <==> body.Array? && |body.elems| > 0 && body.elems[0].Object?
    ensures r.Token? ==> r.value == Get(body.elems[0].fields, USER_TOKEN_FIELD)
    ensures !r.Token? ==> r == Malformed
  {
    if body.Array? && |body.elems| > 0 && body.elems[0].Object?
    then Token(Get(body.elems[0].fields, USER_TOKEN_FIELD))
    else Malformed
  }

  /** The bootstrap request: basic authentication, both credential headers and the two defaults. */
  lemma UserTokenRequest(c: Client, username: string, password: string, firmId: string, apiKey: string)
    ensures var r := Prepare(c, UserTokenCall(username, password, firmId, apiKey));
      && r.verb == "get" && r.url == Url(c.endpoint, "user/")
      && r.auth == Some(BasicAuth(username, password))
      && r.headers == map[FIRM_ID_HEADER := firmId, API_KEY_HEADER := apiKey,
                          CONTENT_TYPE := JSON_MEDIA_TYPE, TOKEN_HEADER := c.TokenText()]
  {
    var r := Prepare(c, UserTokenCall(username, password, firmId, apiKey));
    var expected := map[FIRM_ID_HEADER := firmId, API_KEY_HEADER := apiKey,
                        CONTENT_TYPE := JSON_MEDIA_TYPE, TOKEN_HEADER := c.TokenText()];
    assert r.headers.Keys == expected.Keys;
  }

  /** `get_user_token` as written: the `not response.ok` test comes after `_request` has checked. */
  function GetUserToken(c: Client, send: HttpRequest -> Response, decode: string -> Value,
                        username: string, password: string, firmId: string, apiKey: string): (r: TokenResult)
    ensures var resp := send(Prepare(c, UserTokenCall(username, password, firmId, apiKey)));
      && (!resp.ok ==> r == Failed(ClientError(resp, resp.statusCode, resp.reason, resp.text)))
      && (resp.ok ==> r == FirstUserToken(decode(resp.text)))
  {
    match Respond(c, send, UserTokenCall(username, password, firmId, apiKey))
    case Raised(e) => Failed(e)
    case Returned(resp) => if !resp.ok then NoToken else FirstUserToken(decode(resp.text))
  }

  /**
   * As written, `get_user_token` never takes the `return None` at line 88: a
   * refused login raises instead, and the only None it returns comes from an
   * ok reply whose first element has no `UserToken` field, or has it set to null.
   */
  lemma {:induction false} GetUserTokenNoneCases(c: Client, send: HttpRequest -> Response, decode: string -> Value,
                                                 username: string, password: string, firmId: string, apiKey: string)
    ensures GetUserToken(c, send, decode, username, password, firmId, apiKey) != NoToken
    ensures var resp := send(Prepare(c, UserTokenCall(username, password, firmId, apiKey)));
      !resp.ok ==> GetUserToken(c, send, decode, username, password, firmId, apiKey).Failed?
    ensures var resp := send(Prepare(c, UserTokenCall(username, password, firmId, apiKey)));
      var r := GetUserToken(c, send, decode, username, password, firmId, apiKey);
      IsNone(r) <==> resp.ok && FirstUserToken(decode(resp.text)) == Token(Null)
  {
    var o := Respond(c, send, UserTokenCall(username, password, firmId, apiKey));
    if o.Returned? {
      assert o.value.ok;
    }
  }

  /** A concrete refused login: the 401 reply raises rather than giving None. */
  lemma RefusedLoginRaises(c: Client, decode: string -> Value)
    ensures var refused := Response(false, 401, "Unauthorized", "");
      GetUserToken(c, _ => refused, decode, "user", "wrong", "firm", "key")
        == Failed(ClientError(refused, 401, "Unauthorized", ""))
  {
  }

  /** `get_user_token` as its `return None` branch intends: a refused login gives line 88's None. */
  function GetUserTokenIntended(c: Client, send: HttpRequest -> Response, decode: string -> Value,
                                username: string, password: string, firmId: string, apiKey: string): (r: TokenResult)
    ensures var resp := send(Prepare(c, UserTokenCall(username, password, firmId, apiKey)));
      && (!resp.ok ==> r == NoToken)
      && (resp.ok ==> r == FirstUserToken(decode(resp.text)))
  {
    var resp := send(Prepare(c, UserTokenCall(username, password, firmId, apiKey)));
    if !resp.ok then NoToken else FirstUserToken(decode(resp.text))
  }

  /**
   * The intended version gives line 88's None exactly for a response that is
   * not ok, and Python's None exactly then or when the reply's first element
   * has no `UserToken` field, or has it set to null; it never raises `CompassClientException`, and it agrees with
   * the source whenever the login succeeds.
   */
  lemma GetUserTokenIntendedOutcome(c: Client, send: HttpRequest -> Response, decode: string -> Value,
                                    username: string, password: string, firmId: string, apiKey: string)
    ensures var resp := send(Prepare(c, UserTokenCall(username, password, firmId, apiKey)));
      var r := GetUserTokenIntended(c, send, decode, username, password, firmId, apiKey);
      && (r == NoToken <==> !resp.ok)
      && (IsNone(r) <==> !resp.ok || FirstUserToken(decode(resp.text)) == Token(Null))
      && !r.Failed?
      && (resp.ok ==> r == GetUserToken(c, send, decode, username, password, firmId, apiKey))
  {
  }
}
