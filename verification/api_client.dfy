/** `vidu_mcp/client.py`: the authenticated HTTP client. The network is an
    oracle: each request is answered by a `Response` supplied from outside,
    either a transport failure (connection error, timeout, non-2xx status)
    or the decoded JSON object of the body. */
module ApiClient {
  import opened Wrappers
  import opened Strings
  import opened JsonValues
  import opened Errors

  /** The answer the network gives to one request. */
  datatype Response =
    | TransportError(cause: string)  // a `requests.RequestException`, `str(e)` as cause
    | Body(fields: Fields)           // `response.json()` of a 2xx response

  /** The client object: its configuration and the session's header table. */
  datatype Client = Client(apiKey: string, apiHost: string, headers: map<string, string>)

  /** What is put on the wire for one request. */
  datatype HttpRequest = HttpRequest(verb: string, url: string, headers: map<string, string>, json: Option<Fields>)

  /** One `_make_request` call: the client afterwards (its session headers
      change), the request sent, and the returned data or raised exception. */
  datatype Exchange = Exchange(client: Client, request: HttpRequest, result: Result<Fields, Failure>)

  const AuthorizationHeader: string := "Authorization"
  const TokenScheme: string := "Token "
  const ContentTypeHeader: string := "Content-Type"
  const JsonContentType: string := "application/json"
  /** The API-level error code that means bad credentials. */
  const AuthErrorCode: int := 401

  /** `ViduAPIClient.__init__`: a session whose default headers (`defaults`,
      chosen by the HTTP library) gain `Authorization: Token <api_key>`. */
  function NewClient(apiKey: string, apiHost: string, defaults: map<string, string>): (c: Client)
    ensures c.apiKey == apiKey && c.apiHost == apiHost
    ensures c.headers.Keys == defaults.Keys + {AuthorizationHeader}
    ensures StartsWith(c.headers[AuthorizationHeader], TokenScheme)
    ensures c.headers[AuthorizationHeader][|TokenScheme|..] == apiKey
    ensures forall h :: h in defaults && h != AuthorizationHeader ==> c.headers[h] == defaults[h]
  {
    var token := TokenScheme + apiKey;
    assert token[..|TokenScheme|] == TokenScheme && token[|TokenScheme|..] == apiKey;
    Client(apiKey, apiHost, defaults[AuthorizationHeader := token])
  }

  /** The header update `_make_request` makes before sending: JSON content
      type when no (truthy) `files` argument is given, no content type at all
      otherwise, and every other header as it was. */
  function SetContentType(headers: map<string, string>, hasFiles: bool): (h: map<string, string>)
    ensures ContentTypeHeader in h <==> !hasFiles
    ensures !hasFiles ==> h[ContentTypeHeader] == JsonContentType
    ensures forall k :: k != ContentTypeHeader ==> (k in h <==> k in headers)
    ensures forall k :: k in h && k != ContentTypeHeader ==> h[k] == headers[k]
  {
    if !hasFiles then headers[ContentTypeHeader := JsonContentType]
    else headers - {ContentTypeHeader}
  }

  /** `data.get('metadata', {}).get('trace_id')`. A `metadata` value that is
      not an object has no `.get`, which raises `AttributeError`. */
  function TraceId(data: Fields): (r: Result<Json, Failure>)
    ensures "metadata" !in data ==> r == Success(Null)
    ensures r.Failure? <==> "metadata" in data && !data["metadata"].Object?
    ensures r.Failure? ==> r.error == Unexpected("'" + TypeName(data["metadata"]) + "' object has no attribute 'get'")
    ensures r.Success? && "metadata" in data ==> r.value == Lookup(data["metadata"].fields, "trace_id")
  {
    if "metadata" !in data then Success(Null)
    else match data["metadata"]
      case Object(metadata) => Success(Lookup(metadata, "trace_id"))
      case other => Failure(Unexpected("'" + TypeName(other) + "' object has no attribute 'get'"))
  }

  /** The text of the `ViduAuthError` raised for code 401. */
  function AuthErrorText(message: Json, traceId: Json): string {
    "API Error: " + PyStr(message) + ", please check your API key and API host." + "Trace-Id: " + PyStr(traceId)
  }

  /** The text of the `ViduRequestError` raised for any other code. */
  function CodeErrorText(message: Json, traceId: Json): string {
    "API Error: " + PyStr(message) + "Trace-Id: " + PyStr(traceId)
  }

  /** Everything `_make_request` does after sending: a transport failure
      becomes "Request failed: ..."; a body without a (non-`None`) `code` is
      the result; code 401 is an auth error and every other code, 0 included,
      a request error, each naming the upstream message and trace id. */
  function Interpret(response: Response): (r: Result<Fields, Failure>)
    ensures r.Success? <==> response.Body? && Lookup(response.fields, "code") == Null
    ensures r.Success? ==> r.value == response.fields
    ensures response.TransportError? ==> r == Failure(RequestFailure("Request failed: " + response.cause))
    ensures r.Failure? && r.error == ApiError(AuthError, r.error.message)
        <==> response.Body? && Lookup(response.fields, "code") == Number(AuthErrorCode)
             && TraceId(response.fields).Success?
    ensures r.Failure? && r.error.Unexpected?
        <==> response.Body? && Lookup(response.fields, "code") != Null && TraceId(response.fields).Failure?
  {
    match response
    case TransportError(cause) => Failure(RequestFailure("Request failed: " + cause))
    case Body(data) =>
      var code := Lookup(data, "code");
      if code == Null then Success(data)
      else
        match TraceId(data)
        case Failure(e) => Failure(e)
        case Success(traceId) =>
          var message := Lookup(data, "message");
          if code == Number(AuthErrorCode) then Failure(ApiError(AuthError, AuthErrorText(message, traceId)))
          else Failure(RequestFailure(CodeErrorText(message, traceId)))
  }

  /** `_make_request(method, endpoint, ...)`: the URL is the host followed
      directly by the endpoint, the session's content type is set as
      `SetContentType` says and sent with the request, and the outcome is
      decided by the response alone. */
  function MakeRequest(c: Client, verb: string, endpoint: string, hasFiles: bool, json: Option<Fields>,
                       response: Response): (x: Exchange)
    ensures x.request.verb == verb && x.request.json == json
    ensures |x.request.url| == |c.apiHost| + |endpoint|
    ensures x.request.url[..|c.apiHost|] == c.apiHost && x.request.url[|c.apiHost|..] == endpoint
    ensures x.request.headers == x.client.headers == SetContentType(c.headers, hasFiles)
    ensures x.client.apiKey == c.apiKey && x.client.apiHost == c.apiHost
    ensures x.result == Interpret(response)
  {
    var url := c.apiHost + endpoint;
    assert url[..|c.apiHost|] == c.apiHost && url[|c.apiHost|..] == endpoint;
    var headers := SetContentType(c.headers, hasFiles);
    Exchange(c.(headers := headers), HttpRequest(verb, url, headers, json), Interpret(response))
  }

  /** `get(endpoint)`: a GET through `_make_request`, as the adapter calls it
      (no files, no body). */
  function Get(c: Client, endpoint: string, response: Response): (x: Exchange)
    ensures x.request.verb == "GET" && x.request.url == c.apiHost + endpoint && x.request.json == None
    ensures x.request.headers == SetContentType(c.headers, false)
    ensures x.client == c.(headers := x.request.headers)
    ensures x.result == Interpret(response)
  {
    MakeRequest(c, "GET", endpoint, false, None, response)
  }

  /** `post(endpoint, json=payload)`: a POST through `_make_request`, as the
      adapter calls it (a JSON body, no files). */
  function Post(c: Client, endpoint: string, payload: Fields, response: Response): (x: Exchange)
    ensures x.request.verb == "POST" && x.request.url == c.apiHost + endpoint && x.request.json == Some(payload)
    ensures x.request.headers == SetContentType(c.headers, false)
    ensures x.client == c.(headers := x.request.headers)
    ensures x.result == Interpret(response)
  {
    MakeRequest(c, "POST", endpoint, false, Some(payload), response)
  }

  /** Every request in `sent` carries exactly the header table `headers`. */
  predicate AllCarry(sent: seq<HttpRequest>, headers: map<string, string>) {
    forall i :: 0 <= i < |sent| ==> sent[i].headers == headers
  }

  /** Setting the content type a second time changes nothing, so a client
      that has sent one request sends the same headers on the next. */
  lemma SetContentTypeIdempotent(headers: map<string, string>, hasFiles: bool)
    ensures SetContentType(SetContentType(headers, hasFiles), hasFiles) == SetContentType(headers, hasFiles)
  {
  }

  /** The session header a client made by `NewClient` sends on every request:
      `Authorization: Token <api_key>`, whatever the content type. */
  lemma NewClientAuthorizes(apiKey: string, apiHost: string, defaults: map<string, string>, hasFiles: bool)
    ensures var h := SetContentType(NewClient(apiKey, apiHost, defaults).headers, hasFiles);
      AuthorizationHeader in h && h[AuthorizationHeader] == TokenScheme + apiKey
  {
    var t := NewClient(apiKey, apiHost, defaults).headers[AuthorizationHeader];
    assert t == t[..|TokenScheme|] + t[|TokenScheme|..];
  }

  /** The auth error text contains the upstream message and the trace id. */
  lemma AuthErrorTextNamesBoth(message: Json, traceId: Json)
    ensures IsInfix(PyStr(message), AuthErrorText(message, traceId))
    ensures IsInfix(PyStr(traceId), AuthErrorText(message, traceId))
  {
    InfixOfTemplate("API Error: ", PyStr(message), ", please check your API key and API host.",
                    "Trace-Id: ", PyStr(traceId));
  }

  /** Code 401 is an auth error that names the upstream message and trace id. */
  lemma AuthErrorCarriesDiagnostics(data: Fields)
    requires Lookup(data, "code") == Number(AuthErrorCode) && TraceId(data).Success?
    ensures Interpret(Body(data)).Failure?
    ensures Interpret(Body(data)).error.ApiError? && Interpret(Body(data)).error.kind == AuthError
    ensures IsInfix(PyStr(Lookup(data, "message")), Interpret(Body(data)).error.message)
    ensures IsInfix(PyStr(TraceId(data).value), Interpret(Body(data)).error.message)
  {
    AuthErrorTextNamesBoth(Lookup(data, "message"), TraceId(data).value);
  }

  /** Any code other than `None` and 401, including 0, is a request error and
      never an auth error. */
  lemma OtherCodesAreRequestErrors(data: Fields)
    requires Lookup(data, "code") != Null && Lookup(data, "code") != Number(AuthErrorCode)
    requires TraceId(data).Success?
    ensures Interpret(Body(data)) == Failure(ApiError(RequestError,
      CodeErrorText(Lookup(data, "message"), TraceId(data).value)))
  {
  }
}
