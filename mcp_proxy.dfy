/**
 * The MCP OAuth proxy Lambda that sits between an MCP client and an AgentCore Gateway:
 * request routing, the public URL of the proxy, the two OAuth metadata documents, the
 * `/authorize` and `/callback` redirects that carry the client's own `state` and `redirect_uri`
 * through Cognito inside a compound state, the rewriting of token requests, and the forwarding
 * of MCP requests to the gateway with the gateway's URL rewritten in what comes back.
 *
 * The environment (GATEWAY_URL, COGNITO_DOMAIN, CLIENT_ID, CLIENT_SECRET) is a `Config` value.
 * The two network calls are function parameters: `exchange` answers the POST to Cognito's token
 * endpoint, `forward` answers the request sent to the gateway.
 */
module McpProxy {
  import opened Wrappers
  import opened Text
  import opened PyDict
  import opened Json
  import opened JsonText
  import Utf8
  import Base64
  import Url

  datatype Config = Config(gatewayUrl: string, cognitoDomain: string, clientId: string, clientSecret: string)

  /**
   * The fields of an ALB or API Gateway (HTTP API) event that the proxy reads. An absent
   * `queryStringParameters` and a `null` one are both `None`.
   */
  datatype Event = Event(
    path: Option<string>,
    rawPath: Option<string>,
    httpMethod: Option<string>,
    contextMethod: Option<string>,
    headers: Dict<string>,
    domainName: string,
    stage: string,
    query: Option<Dict<string>>,
    body: string,
    isBase64Encoded: bool)

  /** The dictionary a handler returns: `statusCode`, `headers` (empty when absent) and `body`. */
  datatype Response = Response(status: int, headers: Dict<string>, body: string)

  // ---------------------------------------------------------------------------
  // Responses and routing
  // ---------------------------------------------------------------------------

  const JsonContentType: Dict<string> := [("Content-Type", "application/json")]

  /** `json_response(status, body)`. */
  function JsonResponse(status: int, body: Value): Response {
    Response(status, JsonContentType, Dumps(body))
  }

  /** A 302 redirect to `location` with an empty body. */
  function Redirect(location: string): Response {
    Response(302, [("Location", location)], "")
  }

  function ErrorResponse(status: int, message: string): Response {
    JsonResponse(status, Obj([("error", Str(message))]))
  }

  const Preflight := Response(200, [("Allow", "OPTIONS, GET, POST")], "")
  const NotFound := Response(404, [], Dumps(Obj([("error", Str("Not found"))])))
  const Healthy := JsonResponse(200, Obj([("status", Str("healthy")), ("service", Str("mcp-proxy"))]))

  /** `event.get("path") or event.get("rawPath", "/")`. */
  function PathOf(ev: Event): string {
    if ev.path.Some? && ev.path.value != "" then ev.path.value else ev.rawPath.GetOr("/")
  }

  /** `event.get("httpMethod") or requestContext.http.method`, defaulting to GET. */
  function MethodOf(ev: Event): string {
    if ev.httpMethod.Some? && ev.httpMethod.value != "" then ev.httpMethod.value else ev.contextMethod.GetOr("GET")
  }

  datatype Route =
    | Options | Ping | AuthServerMetadata | ResourceMetadata | Authorize | Callback | Token | Register | Mcp | Unrouted

  const AuthServerMetadataPath := "/.well-known/oauth-authorization-server"

  /** The handler `lambda_handler` picks, tested in its order. */
  function RouteOf(path: string, verb: string): Route {
    if verb == "OPTIONS" then Options
    else if path == "/ping" then Ping
    else if AuthServerMetadataPath <= path then AuthServerMetadata
    else if path == "/.well-known/oauth-protected-resource" || path == "/.well-known/oauth-protected-resource/mcp" then ResourceMetadata
    else if path == "/authorize" then Authorize
    else if path == "/callback" then Callback
    else if path == "/token" && verb == "POST" then Token
    else if path == "/register" && verb == "POST" then Register
    else if path == "/mcp" then Mcp
    else Unrouted
  }

  /**
   * OPTIONS is answered whatever the path; `/token` and `/register` only take POST; every path
   * under the authorization server metadata prefix gets that document; anything else is a 404.
   */
  lemma RouteOfSpec(path: string, verb: string)
    ensures var r := RouteOf(path, verb);
      && (r == Options <==> verb == "OPTIONS")
      && (r == Token <==> verb != "OPTIONS" && path == "/token" && verb == "POST")
      && (r == Register <==> verb != "OPTIONS" && path == "/register" && verb == "POST")
      && (r == AuthServerMetadata <==> verb != "OPTIONS" && AuthServerMetadataPath <= path)
      && (r == Mcp <==> verb != "OPTIONS" && path == "/mcp")
      && (r == Unrouted <==>
            verb != "OPTIONS" && !(AuthServerMetadataPath <= path) &&
            path !in ["/ping", "/.well-known/oauth-protected-resource", "/.well-known/oauth-protected-resource/mcp",
                      "/authorize", "/callback", "/mcp"] &&
            !(verb == "POST" && (path == "/token" || path == "/register")))
  {
  }

  // ---------------------------------------------------------------------------
  // The public URL of the proxy and the OAuth metadata documents
  // ---------------------------------------------------------------------------

  /** The `Host` header, lower-case spelling first; "" when neither is set. */
  function HostOf(ev: Event): string {
    if GetOr(ev.headers, "host", "") != "" then GetOr(ev.headers, "host", "") else GetOr(ev.headers, "Host", "")
  }

  /** `get_api_url(event)`. */
  function ApiUrl(ev: Event): (r: string)
    ensures HostOf(ev) != "" ==> r == "https://" + HostOf(ev)
    ensures HostOf(ev) == "" && ev.domainName == "" ==> r == "http://localhost"
    ensures HostOf(ev) != "" || ev.domainName != "" ==> "https://" <= r
  {
    var host := HostOf(ev);
    if host != "" then "https://" + host
    else if ev.domainName != "" && ev.stage != "" && ev.stage != "$default" then "https://" + ev.domainName + "/" + ev.stage
    else if ev.domainName != "" then "https://" + ev.domainName
    else "http://localhost"
  }

  /** With no Host header, the stage is appended unless it is empty or `$default`. */
  lemma ApiUrlFromContext(ev: Event)
    requires HostOf(ev) == "" && ev.domainName != ""
    ensures ApiUrl(ev) == "https://" + ev.domainName + (if ev.stage == "" || ev.stage == "$default" then "" else "/" + ev.stage)
  {
  }

  /** A Host header makes the request context irrelevant. */
  lemma ApiUrlHostWins(ev: Event, domainName: string, stage: string)
    requires HostOf(ev) != ""
    ensures ApiUrl(ev.(domainName := domainName, stage := stage)) == ApiUrl(ev)
  {
  }

  /** Authorization server metadata (section 2 of RFC 8414). */
  function AuthServerDocument(api: string): Dict<Value> {
    [("issuer", Str(api)),
     ("authorization_endpoint", Str(api + "/authorize")),
     ("token_endpoint", Str(api + "/token")),
     ("registration_endpoint", Str(api + "/register")),
     ("scopes_supported", Arr([Str("openid"), Str("profile"), Str("email")])),
     ("response_types_supported", Arr([Str("code")])),
     ("grant_types_supported", Arr([Str("authorization_code"), Str("refresh_token")])),
     ("token_endpoint_auth_methods_supported", Arr([Str("none"), Str("client_secret_post")])),
     ("code_challenge_methods_supported", Arr([Str("S256")]))]
  }

  /** Protected resource metadata (section 2 of RFC 9728): the resource is the proxy's own `/mcp`. */
  function ResourceDocument(api: string): Dict<Value> {
    [("resource", Str(api + "/mcp")),
     ("authorization_servers", Arr([Str(api)])),
     ("bearer_methods_supported", Arr([Str("header")]))]
  }

  /** Dynamic client registration always answers with the one pre-registered client. */
  function RegistrationDocument(api: string, clientId: string): Dict<Value> {
    [("client_id", Str(clientId)),
     ("client_name", Str("VS Code Copilot MCP Client")),
     ("grant_types", Arr([Str("authorization_code"), Str("refresh_token")])),
     ("redirect_uris", Arr([Str(api + "/callback")])),
     ("response_types", Arr([Str("code")])),
     ("token_endpoint_auth_method", Str("none"))]
  }

  /**
   * Every endpoint the metadata advertises is one the proxy itself serves, and the issuer is the
   * URL the protected resource names as its authorization server.
   */
  lemma MetadataAgree(api: string, clientId: string)
    ensures Get(AuthServerDocument(api), "issuer") == Some(Str(api))
    ensures Get(ResourceDocument(api), "authorization_servers") == Some(Arr([Str(api)]))
    ensures Get(ResourceDocument(api), "resource") == Some(Str(api + "/mcp"))
    ensures Get(AuthServerDocument(api), "authorization_endpoint") == Some(Str(api + "/authorize"))
    ensures Get(AuthServerDocument(api), "token_endpoint") == Some(Str(api + "/token"))
    ensures Get(AuthServerDocument(api), "registration_endpoint") == Some(Str(api + "/register"))
    ensures Get(RegistrationDocument(api, clientId), "client_id") == Some(Str(clientId))
    ensures Get(RegistrationDocument(api, clientId), "redirect_uris") == Some(Arr([Str(api + "/callback")]))
  {
    var m := AuthServerDocument(api);
    GetFirst(m, 1);
    GetFirst(m, 2);
    GetFirst(m, 3);
    GetFirst(RegistrationDocument(api, clientId), 3);
  }

  // ---------------------------------------------------------------------------
  // The compound state
  // ---------------------------------------------------------------------------

  /** `urlsafe_b64encode(json.dumps({"state": s, "redirect_uri": u}).encode()).decode()`. */
  function EncodeState(state: string, redirectUri: string): string {
    Base64.Encode(Utf8.Encode(DumpsStrings([("state", state), ("redirect_uri", redirectUri)])), true)
  }

  /**
   * The `try` block of `handle_callback`: the original state and redirect URI (each "" when
   * missing), or None when any step raises.
   */
  function DecodeState(encoded: string): Option<(Value, Value)> {
    var clean := Replace(Url.Unquote(encoded), " ", "+");
    match Base64.UrlsafeDecode(clean)
    case Raised(_) => None
    case Ok(bytes) => StateFromBytes(bytes)
  }

  /** The decoded bytes of a compound state: `.decode()`, then `json.loads`. */
  function StateFromBytes(bytes: seq<Utf8.Byte>): Option<(Value, Value)> {
    match Utf8.Decode(bytes)
    case None => None
    case Some(text) => StateFromText(text)
  }

  /** The decoded text of a compound state: `json.loads`, then the two fields. */
  function StateFromText(text: string): Option<(Value, Value)> {
    match Loads(text)
    case NotLoaded(_) => None
    case Loaded(v) =>
      if v.Obj? then Some((GetOr(v.fields, "state", Str("")), GetOr(v.fields, "redirect_uri", Str(""))))
      else None
  }

  lemma EncodedStateText(state: string, redirectUri: string)
    ensures var e := EncodeState(state, redirectUri); '%' !in e && !Contains(e, " ") && Base64.IsAscii(e)
  {
    var e := EncodeState(state, redirectUri);
    AbsentCharNotContained(e, ' ');
  }

  /** `DecodeState` hands the bytes the URL-safe decoder produced to the next stage. */
  lemma DecodeStateBytes(encoded: string, bytes: seq<Utf8.Byte>)
    requires Replace(Url.Unquote(encoded), " ", "+") == encoded
    requires Base64.UrlsafeDecode(encoded) == Ok(bytes)
    ensures DecodeState(encoded) == StateFromBytes(bytes)
  {
  }

  /** Bytes that decode as UTF-8 hand their text to the last stage. */
  lemma StateFromBytesText(bytes: seq<Utf8.Byte>, text: string)
    requires Utf8.Decode(bytes) == Some(text)
    ensures StateFromBytes(bytes) == StateFromText(text)
  {
  }

  /** Text that loads as an object gives its `state` and `redirect_uri`. */
  lemma StateFromObject(text: string, fields: Dict<Value>)
    requires Loads(text) == Loaded(Obj(fields))
    ensures StateFromText(text) == Some((GetOr(fields, "state", Str("")), GetOr(fields, "redirect_uri", Str(""))))
  {
  }

  /** The decoded object of a compound state holds the two strings under their names. */
  lemma StateFields(state: string, redirectUri: string)
    ensures var fields := FromPairs(StrValues([("state", state), ("redirect_uri", redirectUri)]));
      Get(fields, "state") == Some(Str(state)) && Get(fields, "redirect_uri") == Some(Str(redirectUri))
  {
    var pairs := StrValues([("state", state), ("redirect_uri", redirectUri)]);
    assert pairs == [("state", Str(state)), ("redirect_uri", Str(redirectUri))];
    assert pairs[..1] == [("state", Str(state))];
  }

  /** Decoding a compound state gives back exactly the two strings that were encoded. */
  lemma StateRoundTrip(state: string, redirectUri: string)
    ensures DecodeState(EncodeState(state, redirectUri)) == Some((Str(state), Str(redirectUri)))
  {
    var d := [("state", state), ("redirect_uri", redirectUri)];
    var text := DumpsStrings(d);
    var e := EncodeState(state, redirectUri);
    EncodedStateText(state, redirectUri);
    ReplaceAbsent(e, " ", "+");
    Base64.UrlsafeRoundTrip(Utf8.Encode(text));
    Utf8.DecodeEncode(text);
    LoadsDumpsStrings(d);
    StateFields(state, redirectUri);
    StateFromObject(text, FromPairs(StrValues(d)));
    StateFromBytesText(Utf8.Encode(text), text);
    DecodeStateBytes(e, Utf8.Encode(text));
  }

  // ---------------------------------------------------------------------------
  // /authorize
  // ---------------------------------------------------------------------------

  /** `event.get("queryStringParameters", {}) or {}`. */
  function QueryOf(ev: Event): Dict<string> {
    ev.query.GetOr([])
  }

  /** `scope` with every `+` turned into a space; None when there is no scope. */
  function FixedScope(p: Dict<string>): Option<string> {
    match Get(p, "scope")
    case Some(s) => Some(Replace(s, "+", " "))
    case None => None
  }

  /** The client's query without `resource`, with the scope fixed and our own `client_id`. */
  function AuthorizeBase(ev: Event, cfg: Config): Dict<string> {
    var p1 := Remove(QueryOf(ev), "resource");
    var p2 := if HasKey(p1, "scope") then Put(p1, "scope", Replace(GetOr(p1, "scope", ""), "+", " ")) else p1;
    Put(p2, "client_id", cfg.clientId)
  }

  /** The query `handle_authorize` sends on to Cognito. */
  function AuthorizeQuery(ev: Event, cfg: Config): Dict<string> {
    var p3 := AuthorizeBase(ev, cfg);
    var uri := GetOr(p3, "redirect_uri", "");
    if uri != "" then
      var p4 := Put(p3, "state", EncodeState(Url.Unquote(GetOr(p3, "state", "")), Url.Unquote(uri)));
      Put(p4, "redirect_uri", ApiUrl(ev) + "/callback")
    else p3
  }

  /** What each key holds once `resource`, `scope` and `client_id` have been dealt with. */
  lemma AuthorizeBaseGet(ev: Event, cfg: Config, k: string)
    ensures Get(AuthorizeBase(ev, cfg), k) ==
      if k == "resource" then None
      else if k == "scope" then FixedScope(QueryOf(ev))
      else if k == "client_id" then Some(cfg.clientId)
      else Get(QueryOf(ev), k)
  {
  }

  /** The compound-state step touches only `state` and `redirect_uri`. */
  lemma AuthorizeQueryKeeps(ev: Event, cfg: Config, k: string)
    requires k != "state" && k != "redirect_uri"
    ensures Get(AuthorizeQuery(ev, cfg), k) == Get(AuthorizeBase(ev, cfg), k)
  {
  }

  /**
   * Cognito never sees `resource`, always sees our client id, and sees the client's scope with
   * `+` turned into spaces.
   */
  lemma AuthorizeQueryFixed(ev: Event, cfg: Config)
    ensures var q := AuthorizeQuery(ev, cfg);
      && !HasKey(q, "resource")
      && Get(q, "client_id") == Some(cfg.clientId)
      && Get(q, "scope") == FixedScope(QueryOf(ev))
  {
    AuthorizeQueryKeeps(ev, cfg, "resource");
    AuthorizeQueryKeeps(ev, cfg, "client_id");
    AuthorizeQueryKeeps(ev, cfg, "scope");
    AuthorizeBaseGet(ev, cfg, "resource");
    AuthorizeBaseGet(ev, cfg, "client_id");
    AuthorizeBaseGet(ev, cfg, "scope");
  }

  /**
   * With a non-empty `redirect_uri` the client's state and redirect URI travel (URL-decoded)
   * inside the compound state and Cognito is told to come back to the proxy's `/callback`;
   * without one, both are passed on as the client sent them.
   */
  lemma AuthorizeQueryState(ev: Event, cfg: Config)
    ensures var p := QueryOf(ev); var q := AuthorizeQuery(ev, cfg); var uri := GetOr(p, "redirect_uri", "");
      && (uri != "" ==>
            Get(q, "state") == Some(EncodeState(Url.Unquote(GetOr(p, "state", "")), Url.Unquote(uri))) &&
            Get(q, "redirect_uri") == Some(ApiUrl(ev) + "/callback"))
      && (uri == "" ==> Get(q, "state") == Get(p, "state") && Get(q, "redirect_uri") == Get(p, "redirect_uri"))
  {
    AuthorizeBaseGet(ev, cfg, "redirect_uri");
    AuthorizeBaseGet(ev, cfg, "state");
  }

  /** Every other parameter reaches Cognito unchanged. */
  lemma AuthorizeQueryOther(ev: Event, cfg: Config, k: string)
    requires k !in ["resource", "scope", "client_id", "state", "redirect_uri"]
    ensures Get(AuthorizeQuery(ev, cfg), k) == Get(QueryOf(ev), k)
  {
    AuthorizeQueryKeeps(ev, cfg, k);
    AuthorizeBaseGet(ev, cfg, k);
  }

  /** `<COGNITO_DOMAIN without trailing slashes>/oauth2/<endpoint>`. */
  function CognitoUrl(cfg: Config, endpoint: string): string {
    RStripChar(cfg.cognitoDomain, '/') + "/oauth2/" + endpoint
  }

  /** `handle_authorize`: the query parameters are rewritten in place, then sent to Cognito. */
  method HandleAuthorize(ev: Event, cfg: Config) returns (r: Response)
    ensures r == Redirect(CognitoUrl(cfg, "authorize") + "?" + Url.UrlEncode(AuthorizeQuery(ev, cfg)))
  {
    var params := QueryOf(ev);
    if HasKey(params, "resource") {
      params := Remove(params, "resource");
    } else {
      RemoveAbsent(params, "resource");
    }
    if HasKey(params, "scope") {
      params := Put(params, "scope", Replace(GetOr(params, "scope", ""), "+", " "));
    }
    params := Put(params, "client_id", cfg.clientId);
    assert params == AuthorizeBase(ev, cfg);
    var originalRedirectUri := GetOr(params, "redirect_uri", "");
    var originalState := GetOr(params, "state", "");
    if originalRedirectUri != "" {
      var encoded := EncodeState(Url.Unquote(originalState), Url.Unquote(originalRedirectUri));
      params := Put(params, "state", encoded);
      params := Put(params, "redirect_uri", ApiUrl(ev) + "/callback");
    }
    r := Redirect(CognitoUrl(cfg, "authorize") + "?" + Url.UrlEncode(params));
  }

  // ---------------------------------------------------------------------------
  // /callback
  // ---------------------------------------------------------------------------

  /**
   * What `handle_callback` answers for the query `p`, given what decoding its state gave
   * (None when decoding raised).
   */
  function CallbackResponse(p: Dict<string>, decoded: Option<(Value, Value)>): (r: Response)
    ensures GetOr(p, "error", "") != "" ==> r == ErrorResponse(400, GetOr(p, "error", ""))
    ensures GetOr(p, "error", "") == "" && decoded.None? ==> r == ErrorResponse(400, "Invalid state parameter")
    ensures GetOr(p, "error", "") == "" && decoded.Some? && !Truthy(decoded.value.1) ==>
      r == ErrorResponse(400, "Missing redirect_uri in state")
    ensures r.status == 302 <==> GetOr(p, "error", "") == "" && decoded.Some? && Truthy(decoded.value.1)
    ensures r.status == 302 ==>
      r == Redirect(PyStr(decoded.value.1) + "?" + Url.UrlEncode([("code", GetOr(p, "code", "")), ("state", PyStr(decoded.value.0))]))
  {
    var code := GetOr(p, "code", "");
    var error := GetOr(p, "error", "");
    if error != "" then ErrorResponse(400, error)
    else
      match decoded
      case None => ErrorResponse(400, "Invalid state parameter")
      case Some((state, redirectUri)) =>
        if !Truthy(redirectUri) then ErrorResponse(400, "Missing redirect_uri in state")
        else Redirect(PyStr(redirectUri) + "?" + Url.UrlEncode([("code", code), ("state", PyStr(state))]))
  }

  /** `handle_callback`. */
  function HandleCallback(ev: Event): Response {
    var p := QueryOf(ev);
    CallbackResponse(p, DecodeState(GetOr(p, "state", "")))
  }

  /** A state that decodes to two strings, the second non-empty, redirects to that URI with the first. */
  lemma CallbackRedirects(p: Dict<string>, state: string, uri: string)
    requires GetOr(p, "error", "") == "" && uri != ""
    ensures CallbackResponse(p, Some((Str(state), Str(uri)))) ==
      Redirect(uri + "?" + Url.UrlEncode([("code", GetOr(p, "code", "")), ("state", state)]))
  {
  }

  /**
   * The round trip through Cognito: when the callback carries the state `/authorize` produced,
   * the client is sent back to its own redirect URI with its own (URL-decoded) state.
   */
  lemma AuthorizeCallbackRoundTrip(ev: Event, cfg: Config, callback: Event)
    requires GetOr(QueryOf(ev), "redirect_uri", "") != ""
    requires GetOr(QueryOf(callback), "error", "") == ""
    requires Get(QueryOf(callback), "state") == Get(AuthorizeQuery(ev, cfg), "state")
    ensures var p := QueryOf(ev);
      HandleCallback(callback) == Redirect(
        Url.Unquote(GetOr(p, "redirect_uri", "")) + "?" +
        Url.UrlEncode([("code", GetOr(QueryOf(callback), "code", "")), ("state", Url.Unquote(GetOr(p, "state", "")))]))
  {
    var p := QueryOf(ev);
    var state, uri := Url.Unquote(GetOr(p, "state", "")), Url.Unquote(GetOr(p, "redirect_uri", ""));
    AuthorizeQueryState(ev, cfg);
    StateRoundTrip(state, uri);
    assert GetOr(QueryOf(callback), "state", "") == EncodeState(state, uri);
    CallbackRedirects(QueryOf(callback), state, uri);
  }

  // ---------------------------------------------------------------------------
  // /token
  // ---------------------------------------------------------------------------

  /** What the POST to Cognito's token endpoint gives back (its body already decoded as text). */
  datatype TokenReply =
    | TokenOk(text: string)
    | TokenHttpError(code: int, text: string)
    | TokenFailure(message: string)

  const InvalidUtf8Message := "'utf-8' codec can't decode the request body"

  /** The form body: `base64.b64decode(body).decode()` when the event says it is base64-encoded. */
  function FormBody(ev: Event): Result<string> {
    if !ev.isBase64Encoded then Ok(ev.body)
    else
      match Base64.Decode(ev.body)
      case Raised(m) => Raised(m)
      case Ok(bytes) =>
        match Utf8.Decode(bytes)
        case Some(text) => Ok(text)
        case None => Raised(InvalidUtf8Message)
  }

  /** The form `handle_token` sends to Cognito, built from the client's form. */
  function TokenParams(form: string, cfg: Config, api: string): (q: Dict<string>)
    ensures var sent := Url.ParseQsl(form);
      && Get(q, "client_id") == Some(cfg.clientId)
      && Get(q, "client_secret") == (if cfg.clientSecret != "" then Some(cfg.clientSecret) else LastValue(sent, "client_secret"))
      && Get(q, "redirect_uri") == (if LastValue(sent, "redirect_uri").Some? then Some(api + "/callback") else None)
      && forall k :: k !in ["client_id", "client_secret", "redirect_uri"] ==> Get(q, k) == LastValue(sent, k)
  {
    var p := FromPairs(Url.ParseQsl(form));
    var p1 := Put(p, "client_id", cfg.clientId);
    var p2 := if cfg.clientSecret != "" then Put(p1, "client_secret", cfg.clientSecret) else p1;
    if HasKey(p2, "redirect_uri") then Put(p2, "redirect_uri", api + "/callback") else p2
  }

  /** A client that posts `urlencode(pairs)` (no empty values) has every other field passed on as it sent it. */
  lemma TokenParamsOfEncodedForm(pairs: seq<(string, string)>, cfg: Config, api: string, k: string)
    requires forall i :: 0 <= i < |pairs| ==> pairs[i].1 != ""
    requires k !in ["client_id", "client_secret", "redirect_uri"]
    ensures Get(TokenParams(Url.UrlEncode(pairs), cfg, api), k) == LastValue(pairs, k)
  {
    Url.ParseQslUrlEncode(pairs);
  }

  /**
   * What `handle_token` answers for Cognito's reply. A decoded object without `created_at` gets
   * one (`now`, in milliseconds); for a value that is not an object, `"created_at" in v` and the
   * item assignment behave as Python's `in` and `[]=` do on that type.
   */
  function TokenResponse(reply: TokenReply, now: int): (r: Result<Response>)
    ensures reply.TokenHttpError? ==> r == Ok(ErrorResponse(reply.code, reply.text))
    ensures reply.TokenFailure? ==> r == Raised(reply.message)
    ensures reply.TokenOk? && Loads(reply.text).Loaded? && Loads(reply.text).value.Obj? ==>
      var fields := Loads(reply.text).value.fields;
      r.Ok? && r.value.status == 200 &&
      r.value.body == Dumps(Obj(if HasKey(fields, "created_at") then fields else fields + [("created_at", Int(now))]))
  {
    match reply
    case TokenHttpError(code, text) => Ok(ErrorResponse(code, text))
    case TokenFailure(m) => Raised(m)
    case TokenOk(text) =>
      match Loads(text)
      case NotLoaded(_) => Raised("Expecting value")
      case Loaded(v) =>
        match In("created_at", v)
        case Raised(m) => Raised(m)
        case Ok(present) =>
          if present then Ok(JsonResponse(200, v))
          else if v.Obj? then
            PutAbsent(v.fields, "created_at", Int(now));
            Ok(JsonResponse(200, Obj(Put(v.fields, "created_at", Int(now)))))
          else if v.Arr? then Raised("list indices must be integers or slices, not str")
          else Raised("'" + TypeName(v) + "' object does not support item assignment")
  }

  /** `handle_token` as a function of the event, the configuration, Cognito and the clock. */
  function TokenOutcome(ev: Event, cfg: Config, exchange: (string, string) -> TokenReply, now: int): Result<Response> {
    match FormBody(ev)
    case Raised(m) => Raised(m)
    case Ok(form) => TokenResponse(exchange(CognitoUrl(cfg, "token"), Url.UrlEncode(TokenParams(form, cfg, ApiUrl(ev)))), now)
  }

  /** `handle_token`: the parsed form is rewritten in place, then posted to Cognito. */
  method HandleToken(ev: Event, cfg: Config, exchange: (string, string) -> TokenReply, now: int) returns (r: Result<Response>)
    ensures r == TokenOutcome(ev, cfg, exchange, now)
  {
    var body := FormBody(ev);
    if body.Raised? {
      return Raised(body.message);
    }
    var params := FromPairs(Url.ParseQsl(body.value));
    params := Put(params, "client_id", cfg.clientId);
    if cfg.clientSecret != "" {
      params := Put(params, "client_secret", cfg.clientSecret);
    }
    if HasKey(params, "redirect_uri") {
      params := Put(params, "redirect_uri", ApiUrl(ev) + "/callback");
    }
    var reply := exchange(CognitoUrl(cfg, "token"), Url.UrlEncode(params));
    r := TokenResponse(reply, now);
  }

  // ---------------------------------------------------------------------------
  // /mcp
  // ---------------------------------------------------------------------------

  /** The request `proxy_to_gateway` sends; header names as `Request.add_header` stores them. */
  datatype GatewayRequest = GatewayRequest(verb: string, url: string, headers: Dict<string>, data: Option<seq<Utf8.Byte>>)

  /** The gateway's answer: a response, an HTTP error response, or any other failure. */
  datatype GatewayReply =
    | Answered(status: int, headers: seq<(string, string)>, body: string)
    | HttpError(code: int, headers: seq<(string, string)>, body: string)
    | Failure(message: string)

  /** `message.get(name)` on HTTP headers: the first header whose name matches, ignoring case. */
  function HeaderGet(headers: seq<(string, string)>, name: string): (r: Option<string>)
    ensures r.Some? <==> exists i :: 0 <= i < |headers| && Lower(headers[i].0) == Lower(name)
  {
    if headers == [] then None
    else if Lower(headers[0].0) == Lower(name) then Some(headers[0].1)
    else HeaderGet(headers[1..], name)
  }

  const McpHeaderNames := ["mcp-protocol-version", "mcp-session-id"]

  /** `req_headers` after the first `n` of the header names `names` have been looked at. */
  function ForwardedHeaders(headers: Dict<string>, names: seq<string>, n: nat): Dict<string>
    requires n <= |names|
  {
    if n == 0 then
      [("Content-Type", GetOr(headers, "content-type", "application/json")),
       ("Accept", GetOr(headers, "accept", "application/json"))]
    else
      var h := names[n - 1];
      var prior := ForwardedHeaders(headers, names, n - 1);
      if GetOr(headers, h, "") != "" then Put(prior, Title(h), GetOr(headers, h, "")) else prior
  }

  /** A name a forwarded header can have: a content header or one of the first `n` names title-cased. */
  predicate ForwardedName(names: seq<string>, n: nat, k: string)
    requires n <= |names|
  {
    k == "Content-Type" || k == "Accept" || exists j :: 0 <= j < n && k == Title(names[j])
  }

  /** Title-cased, the names are distinct from each other and from the two content headers. */
  predicate DistinctTitles(names: seq<string>) {
    && (forall j :: 0 <= j < |names| ==> Title(names[j]) != "Content-Type" && Title(names[j]) != "Accept")
    && forall i, j :: 0 <= i < j < |names| ==> Title(names[i]) != Title(names[j])
  }

  /** Every forwarded header has one of the names `ForwardedName` allows. */
  lemma {:induction false} ForwardedKeys(headers: Dict<string>, names: seq<string>, n: nat, k: string)
    requires n <= |names|
    requires HasKey(ForwardedHeaders(headers, names, n), k)
    ensures ForwardedName(names, n, k)
  {
    var f := ForwardedHeaders(headers, names, n);
    if n == 0 {
      GetIsLookup(f, k);
    } else if k != Title(names[n - 1]) {
      ForwardedKeys(headers, names, n - 1, k);
    }
  }

  /** A name title-cased from one of the first `n` names; its length is that name's. */
  lemma ForwardedNameLength(names: seq<string>, n: nat, k: string)
    requires n <= |names| && ForwardedName(names, n, k)
    ensures |k| == 12 || |k| == 6 || exists j :: 0 <= j < n && |k| == |names[j]|
  {
  }

  /** Before any MCP header is looked at, the content headers are the client's or the JSON defaults. */
  lemma ContentHeadersFirst(headers: Dict<string>, names: seq<string>)
    ensures var f := ForwardedHeaders(headers, names, 0);
      && Get(f, "Content-Type") == Some(GetOr(headers, "content-type", "application/json"))
      && Get(f, "Accept") == Some(GetOr(headers, "accept", "application/json"))
  {
    var accept := ("Accept", GetOr(headers, "accept", "application/json"));
    var f := [("Content-Type", GetOr(headers, "content-type", "application/json")), accept];
    assert f[1..] == [accept];
    assert Get(f[1..], "Accept") == Some(accept.1);
  }

  /** Adding a header under another name leaves a header's value as it was. */
  lemma ForwardedKeeps(headers: Dict<string>, names: seq<string>, n: nat, k: string)
    requires 0 < n <= |names| && k != Title(names[n - 1])
    ensures Get(ForwardedHeaders(headers, names, n), k) == Get(ForwardedHeaders(headers, names, n - 1), k)
  {
  }

  /** A name none of the first `n` names title-cases to keeps the value it had at the start. */
  lemma {:induction false} ForwardedUntouched(headers: Dict<string>, names: seq<string>, n: nat, k: string)
    requires n <= |names| && forall j :: 0 <= j < n ==> Title(names[j]) != k
    ensures Get(ForwardedHeaders(headers, names, n), k) == Get(ForwardedHeaders(headers, names, 0), k)
  {
    if n > 0 {
      ForwardedKeeps(headers, names, n, k);
      ForwardedUntouched(headers, names, n - 1, k);
    }
  }

  /** The content headers carry the client's values or the JSON defaults, whatever else is added. */
  lemma ForwardedContent(headers: Dict<string>, names: seq<string>, n: nat)
    requires n <= |names| && DistinctTitles(names)
    ensures var f := ForwardedHeaders(headers, names, n);
      && Get(f, "Content-Type") == Some(GetOr(headers, "content-type", "application/json"))
      && Get(f, "Accept") == Some(GetOr(headers, "accept", "application/json"))
  {
    ContentHeadersFirst(headers, names);
    ForwardedUntouched(headers, names, n, "Content-Type");
    ForwardedUntouched(headers, names, n, "Accept");
  }

  /** The name looked at last is not among the names forwarded before it. */
  lemma ForwardedFresh(headers: Dict<string>, names: seq<string>, n: nat)
    requires 0 < n <= |names| && DistinctTitles(names)
    ensures !HasKey(ForwardedHeaders(headers, names, n - 1), Title(names[n - 1]))
  {
    var t := Title(names[n - 1]);
    if HasKey(ForwardedHeaders(headers, names, n - 1), t) {
      ForwardedKeys(headers, names, n - 1, t);
      assert false;
    }
  }

  /** The name looked at last is forwarded exactly when the client gave it a non-empty value. */
  lemma ForwardedLast(headers: Dict<string>, names: seq<string>, n: nat)
    requires 0 < n <= |names| && DistinctTitles(names)
    ensures var h := names[n - 1];
      Get(ForwardedHeaders(headers, names, n), Title(h)) == if GetOr(headers, h, "") != "" then Get(headers, h) else None
  {
    var h := names[n - 1];
    if GetOr(headers, h, "") == "" {
      ForwardedFresh(headers, names, n);
    }
  }

  /** Name `j` is forwarded (title-cased) exactly when the client gave it a non-empty value. */
  lemma {:induction false} ForwardedValue(headers: Dict<string>, names: seq<string>, n: nat, j: nat)
    requires j < n <= |names| && DistinctTitles(names)
    ensures Get(ForwardedHeaders(headers, names, n), Title(names[j])) ==
      if GetOr(headers, names[j], "") != "" then Get(headers, names[j]) else None
  {
    if j < n - 1 {
      ForwardedValue(headers, names, n - 1, j);
      assert Title(names[j]) != Title(names[n - 1]);
      ForwardedKeeps(headers, names, n, Title(names[j]));
    } else {
      ForwardedLast(headers, names, n);
    }
  }

  /** The two MCP header names stay apart once title-cased. */
  lemma McpHeaderTitles()
    ensures DistinctTitles(McpHeaderNames)
    ensures |Title(McpHeaderNames[0])| == 20 && |Title(McpHeaderNames[1])| == 14
  {
  }

  /** Only the content headers and the MCP headers set to a non-empty value are forwarded. */
  lemma ForwardedHeadersSpec(headers: Dict<string>)
    ensures var f := ForwardedHeaders(headers, McpHeaderNames, 2);
      && Get(f, "Content-Type") == Some(GetOr(headers, "content-type", "application/json"))
      && Get(f, "Accept") == Some(GetOr(headers, "accept", "application/json"))
      && (forall h :: h in McpHeaderNames ==>
            Get(f, Title(h)) == (if GetOr(headers, h, "") != "" then Get(headers, h) else None))
      && forall k :: HasKey(f, k) ==> k == "Content-Type" || k == "Accept" || exists h :: h in McpHeaderNames && k == Title(h)
  {
    McpHeaderTitles();
    ForwardedContent(headers, McpHeaderNames, 2);
    ForwardedValue(headers, McpHeaderNames, 2, 0);
    ForwardedValue(headers, McpHeaderNames, 2, 1);
    forall k | HasKey(ForwardedHeaders(headers, McpHeaderNames, 2), k)
      ensures k == "Content-Type" || k == "Accept" || exists h :: h in McpHeaderNames && k == Title(h)
    {
      ForwardedKeys(headers, McpHeaderNames, 2, k);
    }
  }

  /** No forwarded name is 13 characters long, so none capitalizes to `Authorization`. */
  lemma ForwardedNoAuthorization(headers: Dict<string>, names: seq<string>, n: nat)
    requires n <= |names|
    requires forall j :: 0 <= j < |names| ==> |names[j]| != 13
    ensures !HasKey(Capitalized(ForwardedHeaders(headers, names, n)), "Authorization")
  {
    var f := ForwardedHeaders(headers, names, n);
    var c := Capitalized(f);
    GetIsLookup(c, "Authorization");
    if HasKey(c, "Authorization") {
      var i :| 0 <= i < |c| && Keys(c)[i] == "Authorization";
      var k := f[i].0;
      assert |Capitalize(k)| == 13;
      GetIsLookup(f, k);
      assert Keys(f)[i] == k;
      ForwardedKeys(headers, names, n, k);
      ForwardedNameLength(names, n, k);
      assert false;
    }
  }

  /** `Request.add_header` stores each name capitalized (`Content-Type` becomes `Content-type`). */
  function Capitalized(d: Dict<string>): (r: Dict<string>)
    ensures |r| == |d|
    ensures forall i :: 0 <= i < |d| ==> r[i] == (Capitalize(d[i].0), d[i].1)
  {
    if d == [] then [] else [(Capitalize(d[0].0), d[0].1)] + Capitalized(d[1..])
  }

  /** The body as bytes: base64-decoded when the event says so, UTF-8 otherwise. */
  function ForwardBody(ev: Event): Result<seq<Utf8.Byte>> {
    if ev.isBase64Encoded && ev.body != "" then Base64.Decode(ev.body) else Ok(Utf8.Encode(ev.body))
  }

  /**
   * The request sent to the gateway from the collected headers `reqHeaders`: a POST carries the
   * body when there is one, and the client's Authorization header is added after the others.
   */
  function GatewayRequestOf(ev: Event, cfg: Config, reqHeaders: Dict<string>, body: seq<Utf8.Byte>): GatewayRequest {
    var headers := Capitalized(reqHeaders);
    var auth := GetOr(ev.headers, "authorization", "");
    GatewayRequest(
      if MethodOf(ev) == "POST" && body != [] then "POST" else MethodOf(ev),
      cfg.gatewayUrl,
      if auth != "" then Put(headers, "Authorization", auth) else headers,
      if MethodOf(ev) == "POST" && body != [] then Some(body) else None)
  }

  /**
   * What reaches the gateway: its configured URL, the body only on a POST that has one, and the
   * client's token exactly when the client sent a non-empty Authorization header.
   */
  lemma GatewayRequestSpec(ev: Event, cfg: Config, body: seq<Utf8.Byte>)
    ensures var q := GatewayRequestOf(ev, cfg, ForwardedHeaders(ev.headers, McpHeaderNames, 2), body);
      && q.url == cfg.gatewayUrl
      && (q.data.Some? <==> MethodOf(ev) == "POST" && body != [])
      && (q.data.Some? ==> q.data.value == body && q.verb == "POST")
      && (q.data.None? ==> q.verb == MethodOf(ev))
      && Get(q.headers, "Authorization") == (if GetOr(ev.headers, "authorization", "") != "" then Get(ev.headers, "authorization") else None)
  {
    ForwardedNoAuthorization(ev.headers, McpHeaderNames, 2);
  }

  /** GATEWAY_URL without a trailing `/mcp`. */
  function GatewayBase(gatewayUrl: string): (r: string)
    ensures r == gatewayUrl || r + "/mcp" == gatewayUrl
  {
    if |gatewayUrl| >= 4 && gatewayUrl[|gatewayUrl| - 4..] == "/mcp" then gatewayUrl[..|gatewayUrl| - 4] else gatewayUrl
  }

  /** The header dictionary with `WWW-Authenticate` added, the gateway's URL replaced by the proxy's. */
  function WithAuthenticate(rh: Dict<string>, reply: seq<(string, string)>, base: string, api: string): Dict<string> {
    var www := HeaderGet(reply, "WWW-Authenticate");
    if www.Some? && www.value != "" then Put(rh, "WWW-Authenticate", Replace(www.value, base, api)) else rh
  }

  /** What `proxy_to_gateway` answers for the gateway's reply. */
  function GatewayResponse(reply: GatewayReply, api: string, gatewayUrl: string): (r: Response)
    ensures reply.Answered? ==> r.status == reply.status && r.body == reply.body
    ensures reply.HttpError? ==> r.status == reply.code && r.body == Replace(reply.body, GatewayBase(gatewayUrl), api)
    ensures !reply.Failure? ==> var www := HeaderGet(reply.headers, "WWW-Authenticate");
      Get(r.headers, "WWW-Authenticate") == (if www.Some? && www.value != "" then Some(Replace(www.value, GatewayBase(gatewayUrl), api)) else None)
    ensures reply.Answered? ==>
      Get(r.headers, "Content-Type") == Some(HeaderGet(reply.headers, "Content-Type").GetOr("application/json"))
    ensures reply.Answered? ==> var session := HeaderGet(reply.headers, "Mcp-Session-Id");
      Get(r.headers, "Mcp-Session-Id") == (if session.Some? && session.value != "" then session else None)
    ensures reply.HttpError? ==>
      Get(r.headers, "Content-Type") == Some("application/json") && Get(r.headers, "Mcp-Session-Id") == None
    ensures !reply.Failure? ==> forall k :: k != "Content-Type" && k != "Mcp-Session-Id" && k != "WWW-Authenticate" ==>
      Get(r.headers, k) == None
    ensures reply.Failure? ==> r == JsonResponse(502, Obj([("error", Obj([("code", Int(-32603)), ("message", Str(reply.message))]))]))
  {
    var base := GatewayBase(gatewayUrl);
    match reply
    case Answered(status, h, body) =>
      var rh := [("Content-Type", HeaderGet(h, "Content-Type").GetOr("application/json"))];
      var session := HeaderGet(h, "Mcp-Session-Id");
      var rh1 := if session.Some? && session.value != "" then Put(rh, "Mcp-Session-Id", session.value) else rh;
      Response(status, WithAuthenticate(rh1, h, base, api), body)
    case HttpError(code, h, body) =>
      Response(code, WithAuthenticate(JsonContentType, h, base, api), Replace(body, base, api))
    case Failure(m) =>
      JsonResponse(502, Obj([("error", Obj([("code", Int(-32603)), ("message", Str(m))]))]))
  }

  /** `proxy_to_gateway` as a function of the event, the configuration and the gateway. */
  function GatewayOutcome(ev: Event, cfg: Config, forward: GatewayRequest -> GatewayReply): Result<Response> {
    match ForwardBody(ev)
    case Raised(m) => Raised(m)
    case Ok(body) => Ok(GatewayResponse(forward(GatewayRequestOf(ev, cfg, ForwardedHeaders(ev.headers, McpHeaderNames, 2), body)), ApiUrl(ev), cfg.gatewayUrl))
  }

  /** `proxy_to_gateway`: the request headers are collected in a loop over the MCP header names. */
  method ProxyToGateway(ev: Event, cfg: Config, forward: GatewayRequest -> GatewayReply) returns (r: Result<Response>)
    ensures r == GatewayOutcome(ev, cfg, forward)
  {
    var body := ForwardBody(ev);
    if body.Raised? {
      return Raised(body.message);
    }
    var reqHeaders := ForwardedHeaders(ev.headers, McpHeaderNames, 0);
    for i := 0 to |McpHeaderNames|
      invariant reqHeaders == ForwardedHeaders(ev.headers, McpHeaderNames, i)
    {
      var h := McpHeaderNames[i];
      if GetOr(ev.headers, h, "") != "" {
        reqHeaders := Put(reqHeaders, Title(h), GetOr(ev.headers, h, ""));
      }
    }
    var request := GatewayRequestOf(ev, cfg, reqHeaders, body.value);
    r := Ok(GatewayResponse(forward(request), ApiUrl(ev), cfg.gatewayUrl));
  }

  /** The JSON-RPC error code of a 3LO elicitation. */
  const ElicitationCode := -32042

  /** `is_elicitation(data)`: a JSON-RPC error with the code -32042. */
  function IsElicitation(data: Value): (r: bool)
    ensures r ==> data.Obj? && HasKey(data.fields, "error")
    ensures r <==>
      && data.Obj?
      && GetOr(data.fields, "error", Obj([])).Obj?
      && Get(GetOr(data.fields, "error", Obj([])).fields, "code") == Some(Int(ElicitationCode))
  {
    data.Obj? &&
    var error := GetOr(data.fields, "error", Obj([]));
    error.Obj? && Get(error.fields, "code") == Some(Int(ElicitationCode))
  }

  /** A response whose `error` is an object is an elicitation exactly when that object's code is -32042. */
  lemma ElicitationIffCode(fields: Dict<Value>, errorFields: Dict<Value>, code: Value)
    requires Get(fields, "error") == Some(Obj(errorFields))
    requires Get(errorFields, "code") == Some(code)
    ensures IsElicitation(Obj(fields)) <==> code == Int(ElicitationCode)
  {
  }

  /** An error object without a code, an `error` that is not an object, no `error` at all, or a non-object: never an elicitation. */
  lemma NotElicitation(data: Value)
    requires || !data.Obj?
             || !HasKey(data.fields, "error")
             || !Get(data.fields, "error").value.Obj?
             || !HasKey(Get(data.fields, "error").value.fields, "code")
    ensures !IsElicitation(data)
  {
  }

  // ---------------------------------------------------------------------------
  // lambda_handler
  // ---------------------------------------------------------------------------

  /** `lambda_handler`: OPTIONS first, then the routes in order. */
  method LambdaHandler(ev: Event, cfg: Config, exchange: (string, string) -> TokenReply,
                       forward: GatewayRequest -> GatewayReply, now: int) returns (r: Result<Response>)
    ensures var route := RouteOf(PathOf(ev), MethodOf(ev));
      && (route == Options ==> r == Ok(Preflight))
      && (route == Ping ==> r == Ok(Healthy))
      && (route == AuthServerMetadata ==> r == Ok(JsonResponse(200, Obj(AuthServerDocument(ApiUrl(ev))))))
      && (route == ResourceMetadata ==> r == Ok(JsonResponse(200, Obj(ResourceDocument(ApiUrl(ev))))))
      && (route == Authorize ==> r == Ok(Redirect(CognitoUrl(cfg, "authorize") + "?" + Url.UrlEncode(AuthorizeQuery(ev, cfg)))))
      && (route == Callback ==> r == Ok(HandleCallback(ev)))
      && (route == Token ==> r == TokenOutcome(ev, cfg, exchange, now))
      && (route == Register ==> r == Ok(JsonResponse(200, Obj(RegistrationDocument(ApiUrl(ev), cfg.clientId)))))
      && (route == Mcp ==> r == GatewayOutcome(ev, cfg, forward))
      && (route == Unrouted ==> r == Ok(NotFound))
  {
    var route := RouteOf(PathOf(ev), MethodOf(ev));
    match route
    case Options => r := Ok(Preflight);
    case Ping => r := Ok(Healthy);
    case AuthServerMetadata => r := Ok(JsonResponse(200, Obj(AuthServerDocument(ApiUrl(ev)))));
    case ResourceMetadata => r := Ok(JsonResponse(200, Obj(ResourceDocument(ApiUrl(ev)))));
    case Authorize =>
      var resp := HandleAuthorize(ev, cfg);
      r := Ok(resp);
    case Callback => r := Ok(HandleCallback(ev));
    case Token => r := HandleToken(ev, cfg, exchange, now);
    case Register => r := Ok(JsonResponse(200, Obj(RegistrationDocument(ApiUrl(ev), cfg.clientId))));
    case Mcp => r := ProxyToGateway(ev, cfg, forward);
    case Unrouted => r := Ok(NotFound);
  }
}
