/**
 * The transport layer of `CompassClient` (compass/client.py): the mandatory
 * headers, request construction, the single HTTP call and the decision to
 * raise `CompassClientException` or return the response.
 *
 * The HTTP call itself (`requests.request`) is an oracle `send` from the
 * request descriptor to a response; nothing is assumed about it.
 */
module Transport {
  import opened Wrappers
  import opened Json
  import opened Text

  const CONTENT_TYPE := "Content-Type"
  const TOKEN_HEADER := "x-compass-token"
  const JSON_MEDIA_TYPE := "application/json"
  const DEFAULT_ENDPOINT := "compass"
  const URL_SCHEME := "https://"
  const API_ROOT := ".cosential.com/api/"

  type Headers = map<string, string>
  type Params = map<string, Value>

  /** The `data` argument of `_request`: None, a text body or a dict. */
  datatype Data = NoData | Raw(text: string) | DictData(fields: Record)

  /** The `HTTPBasicAuth` passed as `auth=` by `get_user_token`. */
  datatype BasicAuth = BasicAuth(username: string, password: string)

  /** The arguments a resource method passes to `_request`. */
  datatype Call = Call(
    verb: string,
    resource: string,
    params: Option<Params>,
    data: Data,
    headers: Option<Headers>,
    auth: Option<BasicAuth>)

  /** What `_request` hands to `requests.request`. */
  datatype HttpRequest = HttpRequest(
    verb: string,
    url: string,
    params: Option<Params>,
    data: Data,
    headers: Headers,
    auth: Option<BasicAuth>)

  /** The parts of a `requests` response the client looks at. */
  datatype Response = Response(ok: bool, statusCode: int, reason: string, text: string)

  /** `CompassClientException`: the failed response and the three fields copied from it. */
  datatype ClientError = ClientError(response: Response, statusCode: int, reason: string, text: string)
  {
    /**
     * `__str__`: the status code, ": ", the reason, and then " - " and the
     * text only when the text is non-empty. Each part is read back by position.
     */
    function ToString(): (s: string)
      ensures var d := IntToDecimal(statusCode);
        && |s| >= |d| + 2 + |reason|
        && s[..|d|] == d
        && s[|d|..|d| + 2] == ": "
        && s[|d| + 2..|d| + 2 + |reason|] == reason
        && (text != "" <==> |s| > |d| + 2 + |reason|)
        && (text != "" ==> s[|d| + 2 + |reason|..] == " - " + text)
    {
      var d := IntToDecimal(statusCode);
      var head := d + ": " + reason;
      assert head[..|d|] == d && head[|d|..|d| + 2] == ": " && head[|d| + 2..] == reason;
      if text != "" then head + " - " + text else head
    }
  }

  /** A call either returns a value or raises `CompassClientException`. */
  datatype Outcome<T> = Returned(value: T) | Raised(error: ClientError)

  /**
   * `CompassClient`: the runtime's codec, then the constructor's two arguments
   * with their defaults, no token and the endpoint "compass".
   */
  datatype Client = Client(codec: Codec, token: Option<string> := None, endpoint: string := DEFAULT_ENDPOINT)
  {
    /** `'{0}'.format(self.compass_token)`: the token itself, or "None" without one. */
    function TokenText(): (t: string)
      ensures t == Format(if token.Some? then Str(token.value) else Null, codec.repr)
      ensures token.Some? ==> t == token.value
      ensures token.None? ==> t == "None"
    {
      match token
      case None => "None"
      case Some(t) => t
    }

    /** `default_headers`: exactly the JSON content type and the token header. */
    function DefaultHeaders(): (h: Headers)
      ensures h.Keys == {CONTENT_TYPE, TOKEN_HEADER}
      ensures h[CONTENT_TYPE] == JSON_MEDIA_TYPE && h[TOKEN_HEADER] == TokenText()
    {
      map[CONTENT_TYPE := JSON_MEDIA_TYPE, TOKEN_HEADER := TokenText()]
    }
  }

  /** A dict body is replaced by its JSON text; any other body is sent as it is. */
  function EncodeData(d: Data, dumps: Value -> string): (r: Data)
    ensures !r.DictData?
    ensures d.DictData? ==> r == Raw(dumps(Object(d.fields)))
    ensures !d.DictData? ==> r == d
  {
    match d
    case DictData(fields) => Raw(dumps(Object(fields)))
    case _ => d
  }

  /**
   * The headers sent: every key of the caller's headers or of the defaults,
   * each mapped to the default's value when it has one and to the caller's
   * value otherwise.
   */
  function MergeHeaders(caller: Option<Headers>, defaults: Headers): (r: Headers)
    ensures r.Keys == defaults.Keys + (if caller.Some? then caller.value.Keys else {})
    ensures forall k :: k in defaults ==> r[k] == defaults[k]
    ensures forall k :: k in r && k !in defaults ==> caller.Some? && k in caller.value && r[k] == caller.value[k]
    ensures caller.None? || caller.value == map[] ==> r == defaults
  {
    var given := if caller.Some? then caller.value else map[];
    map k | k in given.Keys + defaults.Keys :: if k in defaults then defaults[k] else given[k]
  }

  /** The target URL: the endpoint's host, the API root, then the resource path. */
  function Url(endpoint: string, resource: string): (url: string)
    ensures |url| == |URL_SCHEME| + |endpoint| + |API_ROOT| + |resource|
    ensures url[..|URL_SCHEME|] == URL_SCHEME
    ensures url[|URL_SCHEME|..|URL_SCHEME| + |endpoint|] == endpoint
    ensures url[|URL_SCHEME| + |endpoint|..|url| - |resource|] == API_ROOT
    ensures url[|url| - |resource|..] == resource
  {
    URL_SCHEME + endpoint + API_ROOT + resource
  }

  /** Two requests to one endpoint have the same URL only when their resources agree. */
  lemma UrlDeterminesResource(endpoint: string, r1: string, r2: string)
    requires Url(endpoint, r1) == Url(endpoint, r2)
    ensures r1 == r2
  {
    var u := Url(endpoint, r1);
    var n := |URL_SCHEME| + |endpoint| + |API_ROOT|;
    assert |r1| == |u| - n == |r2|;
    assert r1 == u[n..] == r2;
  }

  /** Lines 64-71 of `_request`: the request handed to the HTTP library. */
  function Prepare(c: Client, call: Call): (r: HttpRequest)
    ensures r.verb == call.verb && r.params == call.params && r.auth == call.auth
    ensures r.url == Url(c.endpoint, call.resource)
    ensures !r.data.DictData?
    ensures call.data.DictData? ==> r.data == Raw(c.codec.dumps(Object(call.data.fields)))
    ensures !call.data.DictData? ==> r.data == call.data
    ensures CONTENT_TYPE in r.headers && r.headers[CONTENT_TYPE] == JSON_MEDIA_TYPE
    ensures TOKEN_HEADER in r.headers && r.headers[TOKEN_HEADER] == c.TokenText()
    ensures call.headers.Some? ==> forall k :: k in call.headers.value ==> k in r.headers
    ensures forall k :: k in r.headers && k != CONTENT_TYPE && k != TOKEN_HEADER ==>
      call.headers.Some? && k in call.headers.value && r.headers[k] == call.headers.value[k]
    ensures call.headers.None? || call.headers.value == map[] ==> r.headers == c.DefaultHeaders()
  {
    HttpRequest(
      call.verb,
      Url(c.endpoint, call.resource),
      call.params,
      EncodeData(call.data, c.codec.dumps),
      MergeHeaders(call.headers, c.DefaultHeaders()),
      call.auth)
  }

  /** `_check_for_errors`: an exception exactly when the response is not ok, carrying its fields. */
  function CheckForErrors(resp: Response): (e: Option<ClientError>)
    ensures e.None? <==> resp.ok
    ensures e.Some? ==>
      (e.value.response == resp && e.value.statusCode == resp.statusCode
       && e.value.reason == resp.reason && e.value.text == resp.text)
  {
    if resp.ok then None else Some(ClientError(resp, resp.statusCode, resp.reason, resp.text))
  }

  /** What `_request` produces for a call, given what the server answers. */
  function Respond(c: Client, send: HttpRequest -> Response, call: Call): (o: Outcome<Response>)
    ensures var resp := send(Prepare(c, call));
      && (o.Returned? <==> resp.ok)
      && (o.Returned? ==> o.value == resp)
      && (o.Raised? ==> o.error.response == resp && o.error.statusCode == resp.statusCode
                        && o.error.reason == resp.reason && o.error.text == resp.text)
  {
    var resp := send(Prepare(c, call));
    match CheckForErrors(resp)
    case None => Returned(resp)
    case Some(e) => Raised(e)
  }

  /**
   * `_request` step by step: encode a dict body, copy the caller's headers and
   * update the copy with the defaults, build the URL, make the one call and
   * check it for errors.
   */
  method Perform(c: Client, send: HttpRequest -> Response, call: Call) returns (o: Outcome<Response>)
    ensures o == Respond(c, send, call)
  {
    var data := call.data;
    if data.DictData? {
      data := Raw(c.codec.dumps(Object(data.fields)));
    }
    var headers: Headers;
    if call.headers.Some? && call.headers.value != map[] {
      headers := call.headers.value;
      headers := headers + c.DefaultHeaders();
    } else {
      headers := c.DefaultHeaders();
    }
    assert headers == MergeHeaders(call.headers, c.DefaultHeaders());
    var url := URL_SCHEME + c.endpoint + API_ROOT + call.resource;
    var response := send(HttpRequest(call.verb, url, call.params, data, headers, call.auth));
    var error := CheckForErrors(response);
    if error.Some? {
      return Raised(error.value);
    }
    return Returned(response);
  }

  /** The leading field of an exception's text, read back as an integer. */
  function StatusCodeOf(message: string): Option<int>
  {
    ParseInt(Split(message, ':')[0])
  }

  /** The status code can be read back from the exception's text. */
  lemma ErrorTextGivesStatus(e: ClientError)
    ensures StatusCodeOf(e.ToString()) == Some(e.statusCode)
  {
    var s := e.ToString();
    var head := IntToDecimal(e.statusCode);
    var tail := s[|head| + 1..];
    assert s[|head|] == ':';
    assert s == head + [':'] + tail by {
      assert s[..|head|] == head;
    }
    DecimalHasNoSeparator(e.statusCode);
    SplitAfterSegment(head, ':', tail);
    DecimalRoundTrip(e.statusCode);
  }
}
