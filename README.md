# AgentCore samples: a verified model of the gateway, policy and agent Lambdas

This project models, in Dafny, the request-handling core of several Amazon Bedrock AgentCore
sample programs and proves properties of that model:

- **MCP OAuth proxy** (`mcp_proxy.dfy`). The Lambda sits between an MCP client and an AgentCore
  Gateway. It routes requests and computes its own public URL. It serves the OAuth
  protected-resource and authorization-server metadata documents. It passes the client's `state` and
  `redirect_uri` through Cognito inside a base64 compound state (`/authorize`, `/callback`). It rewrites
  token requests, and it forwards MCP requests to the gateway, replacing the gateway's URL in what
  comes back.
- **Gateway REQUEST interceptors** (`interceptors.dfy`, `sql_interceptor.dfy`, `prompt_interceptor.dfy`).
  One interceptor matches every string argument of a `tools/call` against SQL-injection rules. The
  other asks a language model for a prompt-injection verdict. Either one blocks the request with a
  JSON-RPC error or lets it through unchanged.
- **Policy-engine custom resource** (`policy_engine_resource.dfy`). This CloudFormation handler
  creates, updates and deletes policy engines and Cedar policies, waits for them to settle, and
  associates an engine with a gateway. Every control-plane call is logged on a `ControlPlane`
  object. Each handler method is proved to answer and call exactly as a specification function says.
- **Cognito pre-token-generation trigger** (`pre_token.dfy`). It writes `email` and `user_tag` into
  the claims of both the ID token and the access token, and swallows every error.
- **Knowledge-base RAG agent** (`rag_agent.dfy`, `knowledge_base.dfy`). This covers the context built
  from conversation history and memories, the `invoke` entry point, the lazily created agent,
  memory manager and Bedrock client, and the formatting of Retrieve results.
- **Policy generator script helpers** (`policy_generator.dfy`). These cover recording a created engine
  in `gateway_config.json`, the ACTIVE wait, and the create and list calls.
- **Stack-output reader** (`stack_outputs.dfy`): the loop that turns `cdk deploy` output lines into a
  dictionary.
- **The three MCP tool Lambdas** (`mcp_tools.dfy`): user details, inventory and weather.

Shared modules model the Python behaviour these programs rely on:

- `dict.dfy`: insertion-ordered dictionaries;
- `json.dfy` and `json_text.dfy`: JSON values, `json.dumps` and `json.loads`;
- `base64.dfy`: `base64`, including the lenient CPython decoder;
- `utf8.dfy`: `str.encode` and `bytes.decode`;
- `url.dfy`: `urllib.parse`;
- `text.dfy`: `str` methods;
- `wrappers.dfy`: `Option` and `Result`. An uncaught Python exception is `Raised(message)`.

Network calls, AWS clients, language models and clocks are function parameters ("oracles"). Each
handler is a function of its inputs and those oracles. Where the source changes state in place,
the model does too: dictionaries are edited by methods, and lazily created clients live in classes.
Loops become Dafny loops with their invariants. The header, line, string, memory, turn and result
loops are `for` loops. The two polling waiters are `while` loops.

## Model

| member | source | states |
|---|---|---|
| Base64.Encode | 01-tutorials/02-AgentCore-gateway/04-integration/04-enterprise-mcp-demo/cdk/lambda/mcp_proxy_lambda.py:178-181 | base64 text is four characters per started group of three bytes, all ASCII, never `%` or a space |
| Base64.RoundTrip | 01-tutorials/02-AgentCore-gateway/04-integration/04-enterprise-mcp-demo/cdk/lambda/mcp_proxy_lambda.py:259 | `b64decode` gives back the bytes `b64encode` produced |
| Base64.UrlsafeRoundTrip | 01-tutorials/02-AgentCore-gateway/04-integration/04-enterprise-mcp-demo/cdk/lambda/mcp_proxy_lambda.py:230 | `urlsafe_b64decode` gives back the bytes `urlsafe_b64encode` produced |
| Base64.FromUrlsafeEncode | 01-tutorials/02-AgentCore-gateway/04-integration/04-enterprise-mcp-demo/cdk/lambda/mcp_proxy_lambda.py:230 | the URL-safe alphabet maps back onto the standard one character by character |
| Utf8.Decode | 01-tutorials/02-AgentCore-gateway/04-integration/04-enterprise-mcp-demo/cdk/lambda/mcp_proxy_lambda.py:230 | `.decode()` succeeds exactly on well-formed UTF-8 |
| Utf8.DecodeEncode | 01-tutorials/02-AgentCore-gateway/04-integration/04-enterprise-mcp-demo/cdk/lambda/mcp_proxy_lambda.py:230 | `.decode()` gives back the text `.encode()` produced |
| JsonText.LoadsDumpsStrings | 01-tutorials/02-AgentCore-gateway/04-integration/04-enterprise-mcp-demo/cdk/lambda/mcp_proxy_lambda.py:233 | `json.loads` of the `json.dumps` of a dictionary of strings gives back that dictionary |
| Json.UnderflowIsFalsy | 01-tutorials/02-AgentCore-gateway/04-integration/04-enterprise-mcp-demo/cdk/lambda/mcp_proxy_lambda.py:245 | the test `not x` on a loaded float goes by the double it rounds to: `1e-400` lies below half the smallest subnormal, loads as `0.0` and is falsy |
| Json.SmallNormalIsTruthy | 01-tutorials/02-AgentCore-gateway/04-integration/04-enterprise-mcp-demo/cdk/lambda/mcp_proxy_lambda.py:245 | `1e-300` loads as a non-zero double and is truthy |
| Json.ZeroMantissaIsFalsy | 01-tutorials/02-AgentCore-gateway/04-integration/04-enterprise-mcp-demo/cdk/lambda/mcp_proxy_lambda.py:245 | `-0e5`, whose digits are all zero, loads as `-0.0` and is falsy despite its sign and exponent |
| JsonText.OverflowWrittenAsInfinity | 01-tutorials/02-AgentCore-gateway/04-integration/04-enterprise-mcp-demo/cdk/lambda/mcp_proxy_lambda.py:280-283 | a token reply holding `1E400` loads it as infinity, so `json.dumps` writes it back as `Infinity` and `str` gives `inf` |
| Url.QuotePlus | 01-tutorials/02-AgentCore-gateway/04-integration/04-enterprise-mcp-demo/cdk/lambda/mcp_proxy_lambda.py:192 | a form-encoded key or value is ASCII and holds no `&` or `=` |
| Url.UnquotePlusQuotePlus | 01-tutorials/02-AgentCore-gateway/04-integration/04-enterprise-mcp-demo/cdk/lambda/mcp_proxy_lambda.py:261 | form decoding undoes form encoding |
| Url.ParseQslUrlEncode | 01-tutorials/02-AgentCore-gateway/04-integration/04-enterprise-mcp-demo/cdk/lambda/mcp_proxy_lambda.py:261 | `parse_qsl` of the `urlencode` of pairs with non-empty values gives back the pairs in order |
| Text.Capitalize | 01-tutorials/02-AgentCore-gateway/04-integration/04-enterprise-mcp-demo/cdk/lambda/mcp_proxy_lambda.py:340 | the first character is upper-cased and the rest lower-cased |
| Text.StripIdempotent | 01-tutorials/02-AgentCore-gateway/04-integration/04-enterprise-mcp-demo/scripts/script.py:33 | stripping twice is stripping once |
| Text.SplitJoin | 01-tutorials/02-AgentCore-gateway/04-integration/04-enterprise-mcp-demo/scripts/script.py:30 | splitting on a character undoes joining on it when no part holds that character |
| Text.ReplaceIsJoinOfSplit | 01-tutorials/02-AgentCore-gateway/04-integration/04-enterprise-mcp-demo/scripts/script.py:33 | `replace` is splitting on the pattern and joining with the replacement |
| Text.NatToStringRoundTrip | 04-infrastructure-as-code/cdk/typescript/knowledge-base-rag-agent/infrastructure/agent/src/tools/knowledge_base.py:94 | the decimal text of a number reads back as that number |
| McpProxy.RouteOfSpec | 01-tutorials/02-AgentCore-gateway/04-integration/04-enterprise-mcp-demo/cdk/lambda/mcp_proxy_lambda.py:51-85 | OPTIONS wins on any path; `/token` and `/register` are routed only for POST; every path starting with the authorization-server metadata prefix gets that document; exactly the remaining requests get 404 |
| McpProxy.ApiUrl | 01-tutorials/02-AgentCore-gateway/04-integration/04-enterprise-mcp-demo/cdk/lambda/mcp_proxy_lambda.py:437-454 | a Host header gives `https://<host>`; no host and no domain gives `http://localhost`; otherwise the URL is https |
| McpProxy.ApiUrlFromContext | 01-tutorials/02-AgentCore-gateway/04-integration/04-enterprise-mcp-demo/cdk/lambda/mcp_proxy_lambda.py:446-453 | without a Host header the domain is used, with `/<stage>` appended unless the stage is empty or `$default` |
| McpProxy.ApiUrlHostWins | 01-tutorials/02-AgentCore-gateway/04-integration/04-enterprise-mcp-demo/cdk/lambda/mcp_proxy_lambda.py:440-444 | once a Host header is present, the request context's domain and stage do not affect the URL |
| McpProxy.MetadataAgree | 01-tutorials/02-AgentCore-gateway/04-integration/04-enterprise-mcp-demo/cdk/lambda/mcp_proxy_lambda.py:97-129 | the issuer is the URL the protected-resource document names as its authorization server; every advertised endpoint and the registered redirect URI are paths this proxy routes |
| McpProxy.EncodedStateText | 01-tutorials/02-AgentCore-gateway/04-integration/04-enterprise-mcp-demo/cdk/lambda/mcp_proxy_lambda.py:174-181 | the compound state is ASCII with no `%` and no space, so unquoting it and turning spaces into `+` on the callback leave it unchanged |
| McpProxy.DecodeStateBytes | 01-tutorials/02-AgentCore-gateway/04-integration/04-enterprise-mcp-demo/cdk/lambda/mcp_proxy_lambda.py:218-230 | a state that survives the unquote and space repair decodes through the URL-safe base64 bytes |
| McpProxy.StateFromBytesText | 01-tutorials/02-AgentCore-gateway/04-integration/04-enterprise-mcp-demo/cdk/lambda/mcp_proxy_lambda.py:230-233 | bytes that are valid UTF-8 are handed on as their text to `json.loads` |
| McpProxy.StateFromObject | 01-tutorials/02-AgentCore-gateway/04-integration/04-enterprise-mcp-demo/cdk/lambda/mcp_proxy_lambda.py:233-235 | text that loads as an object yields its `state` and `redirect_uri`, each defaulting to "" |
| McpProxy.StateFields | 01-tutorials/02-AgentCore-gateway/04-integration/04-enterprise-mcp-demo/cdk/lambda/mcp_proxy_lambda.py:174-177 | the compound state object holds the two strings under `state` and `redirect_uri` |
| McpProxy.StateRoundTrip | 01-tutorials/02-AgentCore-gateway/04-integration/04-enterprise-mcp-demo/cdk/lambda/mcp_proxy_lambda.py:174-181 | decoding the compound state as `handle_callback` does (lines 218-235) gives back exactly the state and redirect URI that were encoded |
| McpProxy.AuthorizeBaseGet | 01-tutorials/02-AgentCore-gateway/04-integration/04-enterprise-mcp-demo/cdk/lambda/mcp_proxy_lambda.py:139-155 | after the in-place edits, `resource` is gone, `scope` has `+` turned into spaces, `client_id` is the configured one, and every other key is the client's |
| McpProxy.AuthorizeQueryKeeps | 01-tutorials/02-AgentCore-gateway/04-integration/04-enterprise-mcp-demo/cdk/lambda/mcp_proxy_lambda.py:165-189 | the compound-state step changes only `state` and `redirect_uri` |
| McpProxy.AuthorizeQueryFixed | 01-tutorials/02-AgentCore-gateway/04-integration/04-enterprise-mcp-demo/cdk/lambda/mcp_proxy_lambda.py:143-155 | Cognito never receives `resource`, always receives the configured client id, and receives the client's scope with `+` turned into spaces |
| McpProxy.AuthorizeQueryState | 01-tutorials/02-AgentCore-gateway/04-integration/04-enterprise-mcp-demo/cdk/lambda/mcp_proxy_lambda.py:159-188 | with a non-empty `redirect_uri`, the state becomes the encoded URL-decoded pair and the redirect URI becomes the proxy's `/callback`; without one, both pass through untouched |
| McpProxy.AuthorizeQueryOther | 01-tutorials/02-AgentCore-gateway/04-integration/04-enterprise-mcp-demo/cdk/lambda/mcp_proxy_lambda.py:139-192 | every parameter other than the five rewritten ones reaches Cognito as the client sent it |
| McpProxy.HandleAuthorize | 01-tutorials/02-AgentCore-gateway/04-integration/04-enterprise-mcp-demo/cdk/lambda/mcp_proxy_lambda.py:132-196 | the in-place rewriting produces a 302 to `<domain without trailing slashes>/oauth2/authorize?` plus the urlencoded rewritten query |
| McpProxy.CallbackResponse | 01-tutorials/02-AgentCore-gateway/04-integration/04-enterprise-mcp-demo/cdk/lambda/mcp_proxy_lambda.py:204-252 | the response is a 400 carrying the `error`, a 400 for a state that fails to decode, a 400 for an empty redirect URI, and otherwise (exactly then) a 302 to the redirect URI with `code` and the original state |
| McpProxy.CallbackRedirects | 01-tutorials/02-AgentCore-gateway/04-integration/04-enterprise-mcp-demo/cdk/lambda/mcp_proxy_lambda.py:245-252 | a state decoding to two strings with a non-empty URI redirects there with `code` and that state |
| McpProxy.AuthorizeCallbackRoundTrip | 01-tutorials/02-AgentCore-gateway/04-integration/04-enterprise-mcp-demo/cdk/lambda/mcp_proxy_lambda.py:159-252 | when Cognito hands back the state `/authorize` produced, the client is redirected to its own (URL-decoded) redirect URI with its own (URL-decoded) state |
| McpProxy.TokenParams | 01-tutorials/02-AgentCore-gateway/04-integration/04-enterprise-mcp-demo/cdk/lambda/mcp_proxy_lambda.py:261-271 | the form sent on has the configured client id, the secret when one is configured (else the client's), `redirect_uri` rewritten to `/callback` only if the client sent one, and every other field's last value as parsed |
| McpProxy.TokenParamsOfEncodedForm | 01-tutorials/02-AgentCore-gateway/04-integration/04-enterprise-mcp-demo/cdk/lambda/mcp_proxy_lambda.py:261 | a form the client urlencoded (no empty values) passes each other field through, last value winning |
| McpProxy.TokenResponse | 01-tutorials/02-AgentCore-gateway/04-integration/04-enterprise-mcp-demo/cdk/lambda/mcp_proxy_lambda.py:279-286 | an HTTP error becomes a response with its code and text; another failure propagates; a JSON object reply gets `created_at` added when missing and is returned with 200 |
| McpProxy.HandleToken | 01-tutorials/02-AgentCore-gateway/04-integration/04-enterprise-mcp-demo/cdk/lambda/mcp_proxy_lambda.py:255-286 | the method that edits the parsed form in place returns what `TokenOutcome` specifies |
| McpProxy.HeaderGet | 01-tutorials/02-AgentCore-gateway/04-integration/04-enterprise-mcp-demo/cdk/lambda/mcp_proxy_lambda.py:371-380 | a response header is found exactly when some header name matches ignoring case |
| McpProxy.ForwardedKeys | 01-tutorials/02-AgentCore-gateway/04-integration/04-enterprise-mcp-demo/cdk/lambda/mcp_proxy_lambda.py:321-329 | every collected request header is a content header or a title-cased MCP header name |
| McpProxy.ForwardedNameLength | 01-tutorials/02-AgentCore-gateway/04-integration/04-enterprise-mcp-demo/cdk/lambda/mcp_proxy_lambda.py:321-329 | a collected header name is as long as `Content-Type`, `Accept` or one of the names looked at |
| McpProxy.ContentHeadersFirst | 01-tutorials/02-AgentCore-gateway/04-integration/04-enterprise-mcp-demo/cdk/lambda/mcp_proxy_lambda.py:321-324 | before the loop, the content headers carry the client's values or the JSON defaults |
| McpProxy.ForwardedKeeps | 01-tutorials/02-AgentCore-gateway/04-integration/04-enterprise-mcp-demo/cdk/lambda/mcp_proxy_lambda.py:327-329 | one loop step changes no header except the one it title-cases |
| McpProxy.ForwardedUntouched | 01-tutorials/02-AgentCore-gateway/04-integration/04-enterprise-mcp-demo/cdk/lambda/mcp_proxy_lambda.py:327-329 | a header no looked-at name title-cases to keeps its initial value |
| McpProxy.ForwardedContent | 01-tutorials/02-AgentCore-gateway/04-integration/04-enterprise-mcp-demo/cdk/lambda/mcp_proxy_lambda.py:321-329 | the loop never overwrites the content headers |
| McpProxy.ForwardedFresh | 01-tutorials/02-AgentCore-gateway/04-integration/04-enterprise-mcp-demo/cdk/lambda/mcp_proxy_lambda.py:327-329 | the name a step adds was not collected before it |
| McpProxy.ForwardedLast | 01-tutorials/02-AgentCore-gateway/04-integration/04-enterprise-mcp-demo/cdk/lambda/mcp_proxy_lambda.py:328-329 | a step forwards its header exactly when the client's value is non-empty |
| McpProxy.ForwardedValue | 01-tutorials/02-AgentCore-gateway/04-integration/04-enterprise-mcp-demo/cdk/lambda/mcp_proxy_lambda.py:327-329 | after the loop, each looked-at header is forwarded title-cased exactly when the client gave it a non-empty value |
| McpProxy.McpHeaderTitles | 01-tutorials/02-AgentCore-gateway/04-integration/04-enterprise-mcp-demo/cdk/lambda/mcp_proxy_lambda.py:327 | the two MCP header names stay distinct from each other and from the content headers once title-cased |
| McpProxy.ForwardedHeadersSpec | 01-tutorials/02-AgentCore-gateway/04-integration/04-enterprise-mcp-demo/cdk/lambda/mcp_proxy_lambda.py:321-329 | the headers sent are exactly the two content headers plus each MCP header the client set to a non-empty value |
| McpProxy.ForwardedNoAuthorization | 01-tutorials/02-AgentCore-gateway/04-integration/04-enterprise-mcp-demo/cdk/lambda/mcp_proxy_lambda.py:339-355 | no collected header becomes `Authorization`, so the only Authorization header is the client's |
| McpProxy.Capitalized | 01-tutorials/02-AgentCore-gateway/04-integration/04-enterprise-mcp-demo/cdk/lambda/mcp_proxy_lambda.py:339-340 | `add_header` stores each name capitalized and keeps every value, in order |
| McpProxy.GatewayRequestSpec | 01-tutorials/02-AgentCore-gateway/04-integration/04-enterprise-mcp-demo/cdk/lambda/mcp_proxy_lambda.py:315-355 | the request goes to GATEWAY_URL, carries the body exactly on a POST with a non-empty body, otherwise uses the client's method, and carries the client's token exactly when the client sent a non-empty Authorization header |
| McpProxy.GatewayBase | 01-tutorials/02-AgentCore-gateway/04-integration/04-enterprise-mcp-demo/cdk/lambda/mcp_proxy_lambda.py:385-387 | the base is GATEWAY_URL, or GATEWAY_URL with a trailing `/mcp` removed |
| McpProxy.GatewayResponse | 01-tutorials/02-AgentCore-gateway/04-integration/04-enterprise-mcp-demo/cdk/lambda/mcp_proxy_lambda.py:366-426 | a reply keeps its status and body, forwards its Content-Type (`application/json` when absent) and a non-empty Mcp-Session-Id; an HTTP error keeps its code with the gateway base replaced by the proxy URL in its body, and has the JSON Content-Type and no session id; a non-empty WWW-Authenticate is rewritten the same way; no other header is sent; any other failure is a 502 JSON-RPC error -32603 |
| McpProxy.ProxyToGateway | 01-tutorials/02-AgentCore-gateway/04-integration/04-enterprise-mcp-demo/cdk/lambda/mcp_proxy_lambda.py:304-426 | the method with the header loop returns what `GatewayOutcome` specifies |
| McpProxy.IsElicitation | 01-tutorials/02-AgentCore-gateway/04-integration/04-enterprise-mcp-demo/cdk/lambda/mcp_proxy_lambda.py:429-434 | a response is an elicitation exactly when it is a dictionary whose `error` (default {}) is a dictionary with the code -32042 |
| McpProxy.ElicitationIffCode | 01-tutorials/02-AgentCore-gateway/04-integration/04-enterprise-mcp-demo/cdk/lambda/mcp_proxy_lambda.py:432-434 | a response whose `error` object has a code is an elicitation exactly when that code is -32042 |
| McpProxy.NotElicitation | 01-tutorials/02-AgentCore-gateway/04-integration/04-enterprise-mcp-demo/cdk/lambda/mcp_proxy_lambda.py:430-434 | a non-dictionary, a response without `error`, an `error` that is not a dictionary, or an error without a code is never an elicitation |
| McpProxy.LambdaHandler | 01-tutorials/02-AgentCore-gateway/04-integration/04-enterprise-mcp-demo/cdk/lambda/mcp_proxy_lambda.py:44-85 | each route gets its handler's response: the preflight, the health document, the two metadata documents, the authorize redirect, the callback, the token outcome, the registration document, the gateway outcome, or 404 |
| Interceptors.ReadRequest | 01-tutorials/02-AgentCore-gateway/15-prevent-sql-injection/src/lambda/lambda_function.py:131-133 | the three `.get` lookups succeed only if the gateway request they reach is a dictionary |
| SqlInterceptor.NormalizeShape | 01-tutorials/02-AgentCore-gateway/15-prevent-sql-injection/src/lambda/lambda_function.py:39-41 | the normalized string has no whitespace runs other than single spaces and no upper-case ASCII letter |
| SqlInterceptor.NormalizeIdempotent | 01-tutorials/02-AgentCore-gateway/15-prevent-sql-injection/src/lambda/lambda_function.py:39-41 | normalizing twice is normalizing once |
| SqlInterceptor.ExtractedStringsAreLeaves | 01-tutorials/02-AgentCore-gateway/15-prevent-sql-injection/src/lambda/lambda_function.py:48-62 | the strings found are exactly the string leaves of the arguments, in document order, whatever the starting path |
| SqlInterceptor.ExtractedPathsExtend | 01-tutorials/02-AgentCore-gateway/15-prevent-sql-injection/src/lambda/lambda_function.py:48-62 | every path found extends the starting path |
| SqlInterceptor.MemberStringPath | 01-tutorials/02-AgentCore-gateway/15-prevent-sql-injection/src/lambda/lambda_function.py:51-54 | a string member is found under `path.key`, or under `key` at the top level |
| SqlInterceptor.ItemStringPath | 01-tutorials/02-AgentCore-gateway/15-prevent-sql-injection/src/lambda/lambda_function.py:55-58 | a string list element is found under `path[i]` |
| SqlInterceptor.Detect | 01-tutorials/02-AgentCore-gateway/15-prevent-sql-injection/src/lambda/lambda_function.py:65-78 | the empty string is clean; a string over 10000 characters is STRING_TOO_LONG / INVALID_INPUT; a clean verdict carries empty rule and category |
| SqlInterceptor.FirstMatch | 01-tutorials/02-AgentCore-gateway/15-prevent-sql-injection/src/lambda/lambda_function.py:74-76 | the rule reported matches and no earlier rule does; none reported means no rule matches |
| SqlInterceptor.FirstMatchAt | 01-tutorials/02-AgentCore-gateway/15-prevent-sql-injection/src/lambda/lambda_function.py:74-76 | the first matching rule is the one reported |
| SqlInterceptor.DetectFirstPattern | 01-tutorials/02-AgentCore-gateway/15-prevent-sql-injection/src/lambda/lambda_function.py:72-78 | within the length bound a string is flagged exactly when some rule matches its normalized form, with category SQL_INJECTION_DETECTED and the rule id of the first match |
| SqlInterceptor.DetectSqlInjection | 01-tutorials/02-AgentCore-gateway/15-prevent-sql-injection/src/lambda/lambda_function.py:65-78 | the method with the rule loop returns what `Detect` specifies |
| SqlInterceptor.Flags | 01-tutorials/02-AgentCore-gateway/15-prevent-sql-injection/src/lambda/lambda_function.py:87-90 | one flag per found string, set exactly when that string is detected |
| SqlInterceptor.FirstSet | 01-tutorials/02-AgentCore-gateway/15-prevent-sql-injection/src/lambda/lambda_function.py:87-93 | the position reported is the first set flag; none reported means no flag is set |
| SqlInterceptor.FirstOffendingUnique | 01-tutorials/02-AgentCore-gateway/15-prevent-sql-injection/src/lambda/lambda_function.py:87-93 | there is at most one first offending string |
| SqlInterceptor.Analyze | 01-tutorials/02-AgentCore-gateway/15-prevent-sql-injection/src/lambda/lambda_function.py:81-95 | the arguments are safe exactly when no extracted string is detected, and then the rule and category are empty |
| SqlInterceptor.AnalyzeReportsFirstOffending | 01-tutorials/02-AgentCore-gateway/15-prevent-sql-injection/src/lambda/lambda_function.py:87-93 | an unsafe verdict reports the rule and category of the first offending string |
| SqlInterceptor.SafeIffNoLeafDetected | 01-tutorials/02-AgentCore-gateway/15-prevent-sql-injection/src/lambda/lambda_function.py:81-95 | the arguments are safe exactly when no string leaf is detected |
| SqlInterceptor.AnalyzeArgumentsForSqlInjection | 01-tutorials/02-AgentCore-gateway/15-prevent-sql-injection/src/lambda/lambda_function.py:81-95 | the method with the early-returning loop returns what `Analyze` specifies |
| SqlInterceptor.BlockedBodyLeaves | 01-tutorials/02-AgentCore-gateway/15-prevent-sql-injection/src/lambda/lambda_function.py:110-120 | the blocked JSON-RPC body holds no text but the generic message, the category, the policy name and the request id: the offending value is never echoed |
| SqlInterceptor.BlockedGatewayLeaves | 01-tutorials/02-AgentCore-gateway/15-prevent-sql-injection/src/lambda/lambda_function.py:104-121 | the transformed gateway response adds only the content type and BLOCKED |
| SqlInterceptor.BlockedResponseLeaves | 01-tutorials/02-AgentCore-gateway/15-prevent-sql-injection/src/lambda/lambda_function.py:98-126 | the whole blocked answer holds only the fixed strings, the category and the request id |
| SqlInterceptor.OtherMethodsPassThrough | 01-tutorials/02-AgentCore-gateway/15-prevent-sql-injection/src/lambda/lambda_function.py:140-150 | a method other than tools/call passes the headers and body through unchanged, in either mode |
| SqlInterceptor.SafeToolCallPassesThrough | 01-tutorials/02-AgentCore-gateway/15-prevent-sql-injection/src/lambda/lambda_function.py:163-176 | a tools/call with safe arguments passes through unchanged |
| SqlInterceptor.UnsafeToolCallBlocked | 01-tutorials/02-AgentCore-gateway/15-prevent-sql-injection/src/lambda/lambda_function.py:163-179 | a tools/call with unsafe arguments is blocked with the analysis category and the request id |
| SqlInterceptor.StrictModeBlocksRawSql | 01-tutorials/02-AgentCore-gateway/15-prevent-sql-injection/src/lambda/lambda_function.py:158-161 | in strict mode a `query` or `sql` argument is blocked as RAW_SQL_NOT_ALLOWED before any analysis |
| SqlInterceptor.FailsClosedOnDictionaryBody | 01-tutorials/02-AgentCore-gateway/15-prevent-sql-injection/src/lambda/lambda_function.py:129-183 | once the body is a dictionary the handler never raises, and any exception in the try block is answered with INTERCEPTOR_ERROR |
| SqlInterceptor.StringBodyEscapes | 01-tutorials/02-AgentCore-gateway/15-prevent-sql-injection/src/lambda/lambda_function.py:133-135 | a string body makes the try block raise and the except block raise again (see Findings) |
| SqlInterceptor.UnreadableRequestEscapes | 01-tutorials/02-AgentCore-gateway/15-prevent-sql-injection/src/lambda/lambda_function.py:131-133 | an event whose `mcp` is not a dictionary reaches the except block with `request_body` unbound (see Findings) |
| SqlInterceptor.FailClosedRecover | 01-tutorials/02-AgentCore-gateway/15-prevent-sql-injection/src/lambda/lambda_function.py:181-183 | the corrected except block always answers |
| SqlInterceptor.RecoverRefines | 01-tutorials/02-AgentCore-gateway/15-prevent-sql-injection/src/lambda/lambda_function.py:181-183 | the corrected except block agrees with the original wherever that answers and blocks with INTERCEPTOR_ERROR wherever it raises |
| SqlInterceptor.FailClosedHandler | 01-tutorials/02-AgentCore-gateway/15-prevent-sql-injection/src/lambda/lambda_function.py:129-183 | the corrected handler always answers |
| SqlInterceptor.FailClosedHandlerRefines | 01-tutorials/02-AgentCore-gateway/15-prevent-sql-injection/src/lambda/lambda_function.py:129-183 | the corrected handler agrees with the original wherever that answers and blocks with INTERCEPTOR_ERROR wherever it raises |
| PromptInterceptor.ParseVerdict | 01-tutorials/02-AgentCore-gateway/15-prevent-prompt-injection/src/lambda/lambda_function.py:92-113 | the query is safe exactly when the model replied and its stripped reply starts with SAFE; a failure gives "Security analysis failed: " plus the first 100 characters of its message; an unrecognised reply gives "Unable to verify query safety"; an UNSAFE reply is blocked with what is left after removing every `UNSAFE:` and stripping, or with "Potential injection detected" when nothing is left |
| PromptInterceptor.ReplaceMarker | 01-tutorials/02-AgentCore-gateway/15-prevent-prompt-injection/src/lambda/lambda_function.py:101 | removing the marker from "marker reason" leaves a space and the reason |
| PromptInterceptor.MarkedReason | 01-tutorials/02-AgentCore-gateway/15-prevent-prompt-injection/src/lambda/lambda_function.py:93-101 | the reason of a well-formed "marker reason" reply survives the strip, the marker removal and the second strip |
| PromptInterceptor.UnsafeReplyRoundTrip | 01-tutorials/02-AgentCore-gateway/15-prevent-prompt-injection/src/lambda/lambda_function.py:98-102 | a reply "UNSAFE: r" yields an unsafe verdict with exactly the reason r |
| PromptInterceptor.UnsafeVerdict | 01-tutorials/02-AgentCore-gateway/15-prevent-prompt-injection/src/lambda/lambda_function.py:100-102 | an UNSAFE reply is blocked with its stripped, marker-free remainder as the reason, or with "Potential injection detected" when that remainder is empty |
| PromptInterceptor.BareMarkerGetsFallback | 01-tutorials/02-AgentCore-gateway/15-prevent-prompt-injection/src/lambda/lambda_function.py:100-102 | the reply `UNSAFE:`, with any whitespace around it, leaves nothing once the marker is removed, so it is blocked with "Potential injection detected" |
| PromptInterceptor.BareWordIsItsOwnReason | 01-tutorials/02-AgentCore-gateway/15-prevent-prompt-injection/src/lambda/lambda_function.py:100-102 | the reply `UNSAFE`, with any whitespace around it, holds no `UNSAFE:` marker, so it is blocked with the reason "UNSAFE" |
| PromptInterceptor.Preview | 01-tutorials/02-AgentCore-gateway/15-prevent-prompt-injection/src/lambda/lambda_function.py:66 | `user_query[:100]` succeeds exactly for a string or a list |
| PromptInterceptor.AnalyzePrompt | 01-tutorials/02-AgentCore-gateway/15-prevent-prompt-injection/src/lambda/lambda_function.py:53-113 | the analysis returns a verdict exactly for a string or list query (anything else raises at the preview), and that verdict is the parse of the model's reply |
| PromptInterceptor.OtherMethodsPassThrough | 01-tutorials/02-AgentCore-gateway/15-prevent-prompt-injection/src/lambda/lambda_function.py:200-210 | a method other than tools/call passes the headers and body through unchanged |
| PromptInterceptor.EmptyQueryPassesThrough | 01-tutorials/02-AgentCore-gateway/15-prevent-prompt-injection/src/lambda/lambda_function.py:222-234 | a tools/call with no truthy `query` argument passes through unchanged |
| PromptInterceptor.SafeQueryPassesThrough | 01-tutorials/02-AgentCore-gateway/15-prevent-prompt-injection/src/lambda/lambda_function.py:239-254 | a query the model judges safe passes through unchanged |
| PromptInterceptor.UnsafeQueryBlocked | 01-tutorials/02-AgentCore-gateway/15-prevent-prompt-injection/src/lambda/lambda_function.py:239-260 | a query judged unsafe is blocked with the verdict's reason and the request id |
| PromptInterceptor.NumericQueryBlocked | 01-tutorials/02-AgentCore-gateway/15-prevent-prompt-injection/src/lambda/lambda_function.py:262-274 | a non-zero numeric query raises at the preview slice and is blocked with "Interceptor error: " plus the TypeError message |
| PromptInterceptor.FailsClosedOnDictionaryBody | 01-tutorials/02-AgentCore-gateway/15-prevent-prompt-injection/src/lambda/lambda_function.py:185-274 | once the body is a dictionary the handler never raises; any exception in the try block is blocked with "Interceptor error: " plus its first 100 characters |
| PromptInterceptor.StringBodyEscapes | 01-tutorials/02-AgentCore-gateway/15-prevent-prompt-injection/src/lambda/lambda_function.py:191-194 | a string body makes the try block raise and the except block raise again (see Findings) |
| PromptInterceptor.FailClosedRecover | 01-tutorials/02-AgentCore-gateway/15-prevent-prompt-injection/src/lambda/lambda_function.py:262-274 | the corrected except block always answers |
| PromptInterceptor.RecoverRefines | 01-tutorials/02-AgentCore-gateway/15-prevent-prompt-injection/src/lambda/lambda_function.py:262-274 | the corrected except block agrees with the original wherever that answers and blocks wherever it raises |
| PromptInterceptor.FailClosedHandler | 01-tutorials/02-AgentCore-gateway/15-prevent-prompt-injection/src/lambda/lambda_function.py:152-274 | the corrected handler always answers |
| PromptInterceptor.FailClosedHandlerRefines | 01-tutorials/02-AgentCore-gateway/15-prevent-prompt-injection/src/lambda/lambda_function.py:152-274 | the corrected handler agrees with the original wherever that answers and blocks wherever it raises |
| PolicyEngineResource.AwaitOutcome | 01-tutorials/02-AgentCore-gateway/04-integration/04-enterprise-mcp-demo/cdk/lambda/agentcore-policy-engine/agentcore_policy_engine.py:490-516 | a wait spends at most the rounds that fit in the timeout, and at least one poll when any fits |
| PolicyEngineResource.AwaitPending | 01-tutorials/02-AgentCore-gateway/04-integration/04-enterprise-mcp-demo/cdk/lambda/agentcore-policy-engine/agentcore_policy_engine.py:496-508 | a pending poll moves the wait on to the next round |
| PolicyEngineResource.AwaitSettled | 01-tutorials/02-AgentCore-gateway/04-integration/04-enterprise-mcp-demo/cdk/lambda/agentcore-policy-engine/agentcore_policy_engine.py:503-506 | the first poll that is not pending ends the wait: returning when done, raising its message otherwise |
| PolicyEngineResource.AwaitSettlesAtFirst | 01-tutorials/02-AgentCore-gateway/04-integration/04-enterprise-mcp-demo/cdk/lambda/agentcore-policy-engine/agentcore_policy_engine.py:496-512 | when every earlier poll was pending, the wait ends at the first settled poll with that poll's outcome and that many polls |
| PolicyEngineResource.AwaitTimesOut | 01-tutorials/02-AgentCore-gateway/04-integration/04-enterprise-mcp-demo/cdk/lambda/agentcore-policy-engine/agentcore_policy_engine.py:514-516 | when every poll is pending, the wait raises the timeout message after spending all its rounds |
| PolicyEngineResource.AwaitReturnsIff | 01-tutorials/02-AgentCore-gateway/04-integration/04-enterprise-mcp-demo/cdk/lambda/agentcore-policy-engine/agentcore_policy_engine.py:496-516 | the wait returns exactly when some poll within the rounds is done and every poll before it was pending |
| PolicyEngineResource.EngineActiveStep | 01-tutorials/02-AgentCore-gateway/04-integration/04-enterprise-mcp-demo/cdk/lambda/agentcore-policy-engine/agentcore_policy_engine.py:497-512 | an engine poll is done on ACTIVE, fails on FAILED or DELETING, fails with KeyError when `status` is missing, propagates a client error, and is pending on any other status |
| PolicyEngineResource.PolicyActiveStep | 01-tutorials/02-AgentCore-gateway/04-integration/04-enterprise-mcp-demo/cdk/lambda/agentcore-policy-engine/agentcore_policy_engine.py:526-556 | a policy poll is done on ACTIVE (a missing status counts as UNKNOWN), fails on the three failed states, is pending on ResourceNotFound or any other status, and propagates other errors |
| PolicyEngineResource.DeletedStep | 01-tutorials/02-AgentCore-gateway/04-integration/04-enterprise-mcp-demo/cdk/lambda/agentcore-policy-engine/agentcore_policy_engine.py:567-591 | a deletion poll is done exactly on ResourceNotFound, pending whenever the resource is still returned, and otherwise propagates the error |
| PolicyEngineResource.ResponseId | 01-tutorials/02-AgentCore-gateway/04-integration/04-enterprise-mcp-demo/cdk/lambda/agentcore-policy-engine/agentcore_policy_engine.py:644-647 | the physical id is the one given when non-empty, else the event's, else `failed-<now>` |
| PolicyEngineResource.SendResponse | 01-tutorials/02-AgentCore-gateway/04-integration/04-enterprise-mcp-demo/cdk/lambda/agentcore-policy-engine/agentcore_policy_engine.py:631-675 | the response carries the given status, reason and data, the chosen physical id, and the event's stack, request and logical ids |
| PolicyEngineResource.EngineCreated | 01-tutorials/02-AgentCore-gateway/04-integration/04-enterprise-mcp-demo/cdk/lambda/agentcore-policy-engine/agentcore_policy_engine.py:164-165 | a create reply is usable exactly when it returned both the id and the ARN, which are taken from it; a client error propagates |
| PolicyEngineResource.EngineCreationOutcome | 01-tutorials/02-AgentCore-gateway/04-integration/04-enterprise-mcp-demo/cdk/lambda/agentcore-policy-engine/agentcore_policy_engine.py:146-187 | creation always answers the event with SUCCESS or FAILED, calls create first with the configured name and description, and carries no data when it fails |
| PolicyEngineResource.CreatedEngineIsActive | 01-tutorials/02-AgentCore-gateway/04-integration/04-enterprise-mcp-demo/cdk/lambda/agentcore-policy-engine/agentcore_policy_engine.py:160-183 | a successful creation got an id and ARN, names the new engine as the physical resource, and saw it ACTIVE within the wait |
| PolicyEngineResource.EngineRecreationOutcome | 01-tutorials/02-AgentCore-gateway/04-integration/04-enterprise-mcp-demo/cdk/lambda/agentcore-policy-engine/agentcore_policy_engine.py:239-266 | recreation creates `default-policy-engine` (or the configured name) with the description derived from the name and, on success, names the new engine |
| PolicyEngineResource.ExistingEngineUpdateOutcome | 01-tutorials/02-AgentCore-gateway/04-integration/04-enterprise-mcp-demo/cdk/lambda/agentcore-policy-engine/agentcore_policy_engine.py:205-237 | an existing engine is updated first and keeps its id on success; a failure's reason starts with "Failed to update policy engine: " |
| PolicyEngineResource.EngineUpdateOutcome | 01-tutorials/02-AgentCore-gateway/04-integration/04-enterprise-mcp-demo/cdk/lambda/agentcore-policy-engine/agentcore_policy_engine.py:190-270 | an update always answers the event with SUCCESS or FAILED and looks the engine up first |
| PolicyEngineResource.UpdateRecreatesOnlyMissingEngines | 01-tutorials/02-AgentCore-gateway/04-integration/04-enterprise-mcp-demo/cdk/lambda/agentcore-policy-engine/agentcore_policy_engine.py:204-270 | an engine that is found is updated in place; only ResourceNotFound leads to recreation; any other lookup error fails the update after that single call |
| PolicyEngineResource.EngineDeletionSucceeds | 01-tutorials/02-AgentCore-gateway/04-integration/04-enterprise-mcp-demo/cdk/lambda/agentcore-policy-engine/agentcore_policy_engine.py:273-308 | deletion always reports SUCCESS, makes no call without a physical id, and otherwise deletes that engine first |
| PolicyEngineResource.MissingPolicyField | 01-tutorials/02-AgentCore-gateway/04-integration/04-enterprise-mcp-demo/cdk/lambda/agentcore-policy-engine/agentcore_policy_engine.py:343-348 | the first missing or empty field among engine id, name and statement is reported, the engine id first |
| PolicyEngineResource.PolicyCreationOutcome | 01-tutorials/02-AgentCore-gateway/04-integration/04-enterprise-mcp-demo/cdk/lambda/agentcore-policy-engine/agentcore_policy_engine.py:330-386 | a missing field fails without any call; otherwise the first call creates the Cedar policy with the given engine, name, statement and description |
| PolicyEngineResource.PolicyUpdateOutcome | 01-tutorials/02-AgentCore-gateway/04-integration/04-enterprise-mcp-demo/cdk/lambda/agentcore-policy-engine/agentcore_policy_engine.py:389-445 | the policy is updated only when the statement changed; the update succeeds exactly when nothing changed or the update call returned, keeping the physical id; otherwise it fails with the call's error |
| PolicyEngineResource.PolicyDeletionSucceeds | 01-tutorials/02-AgentCore-gateway/04-integration/04-enterprise-mcp-demo/cdk/lambda/agentcore-policy-engine/agentcore_policy_engine.py:448-482 | deletion always reports SUCCESS and calls delete only when both the policy id and the engine id are set |
| PolicyEngineResource.Pick | 01-tutorials/02-AgentCore-gateway/04-integration/04-enterprise-mcp-demo/cdk/lambda/agentcore-policy-engine/agentcore_policy_engine.py:84-97 | the copied gateway fields are the gateway's values for the listed keys, position by position |
| PolicyEngineResource.GatewayUpdateFor | 01-tutorials/02-AgentCore-gateway/04-integration/04-enterprise-mcp-demo/cdk/lambda/agentcore-policy-engine/agentcore_policy_engine.py:81-97 | the update names the gateway, the configured engine ARN and mode (LOG_ONLY by default), copies the gateway's own fields (None for a missing one) and sends the gateway's `interceptorConfigurations` (None standing for the `[]` default) |
| PolicyEngineResource.GatewayAttachmentOutcome | 01-tutorials/02-AgentCore-gateway/04-integration/04-enterprise-mcp-demo/cdk/lambda/agentcore-policy-engine/agentcore_policy_engine.py:68-124 | attaching reads the gateway first and makes at most one more call; it succeeds exactly when that update returned, and otherwise fails with "Error associating policy engine with gateway: " |
| PolicyEngineResource.AssociationOutcome | 01-tutorials/02-AgentCore-gateway/04-integration/04-enterprise-mcp-demo/cdk/lambda/agentcore-policy-engine/agentcore_policy_engine.py:46-124 | an unknown request type raises; Delete succeeds without calls; Create or Update without a GatewayId succeeds without calls |
| PolicyEngineResource.EngineDispatchOutcome | 01-tutorials/02-AgentCore-gateway/04-integration/04-enterprise-mcp-demo/cdk/lambda/agentcore-policy-engine/agentcore_policy_engine.py:132-143 | an unknown request type raises "Unknown request type: …"; any other answers the event |
| PolicyEngineResource.PolicyDispatchOutcome | 01-tutorials/02-AgentCore-gateway/04-integration/04-enterprise-mcp-demo/cdk/lambda/agentcore-policy-engine/agentcore_policy_engine.py:316-327 | an unknown request type raises "Unknown request type: …"; any other answers the event |
| PolicyEngineResource.HandlerOutcomes | 01-tutorials/02-AgentCore-gateway/04-integration/04-enterprise-mcp-demo/cdk/lambda/agentcore-policy-engine/agentcore_policy_engine.py:12-40 | every event is answered; an unknown resource type or request type fails without any call; every Delete succeeds |
| PolicyEngineResource.ControlPlane.constructor | 01-tutorials/02-AgentCore-gateway/04-integration/04-enterprise-mcp-demo/cdk/lambda/agentcore-policy-engine/agentcore_policy_engine.py:62 | a fresh client has made no calls |
| PolicyEngineResource.ControlPlane.Send | 01-tutorials/02-AgentCore-gateway/04-integration/04-enterprise-mcp-demo/cdk/lambda/agentcore-policy-engine/agentcore_policy_engine.py:70 | one call is appended to the log and answered by the service |
| PolicyEngineResource.ControlPlane.Poll | 01-tutorials/02-AgentCore-gateway/04-integration/04-enterprise-mcp-demo/cdk/lambda/agentcore-policy-engine/agentcore_policy_engine.py:497-512 | one poll is logged and classified |
| PolicyEngineResource.ControlPlane.Await | 01-tutorials/02-AgentCore-gateway/04-integration/04-enterprise-mcp-demo/cdk/lambda/agentcore-policy-engine/agentcore_policy_engine.py:490-516 | the polling loop returns what `AwaitOutcome` specifies and logs exactly the polls it made |
| PolicyEngineResource.CreatePolicyEngine | 01-tutorials/02-AgentCore-gateway/04-integration/04-enterprise-mcp-demo/cdk/lambda/agentcore-policy-engine/agentcore_policy_engine.py:146-187 | the method answers and logs what `EngineCreation` specifies |
| PolicyEngineResource.RecreatePolicyEngine | 01-tutorials/02-AgentCore-gateway/04-integration/04-enterprise-mcp-demo/cdk/lambda/agentcore-policy-engine/agentcore_policy_engine.py:239-266 | the method answers and logs what `EngineRecreation` specifies |
| PolicyEngineResource.UpdateExistingEngine | 01-tutorials/02-AgentCore-gateway/04-integration/04-enterprise-mcp-demo/cdk/lambda/agentcore-policy-engine/agentcore_policy_engine.py:205-237 | the method answers and logs what `ExistingEngineUpdate` specifies |
| PolicyEngineResource.UpdatePolicyEngine | 01-tutorials/02-AgentCore-gateway/04-integration/04-enterprise-mcp-demo/cdk/lambda/agentcore-policy-engine/agentcore_policy_engine.py:190-270 | the method answers and logs what `EngineUpdate` specifies |
| PolicyEngineResource.DeletePolicyEngine | 01-tutorials/02-AgentCore-gateway/04-integration/04-enterprise-mcp-demo/cdk/lambda/agentcore-policy-engine/agentcore_policy_engine.py:273-308 | the method answers and logs what `EngineDeletion` specifies |
| PolicyEngineResource.CreatePolicy | 01-tutorials/02-AgentCore-gateway/04-integration/04-enterprise-mcp-demo/cdk/lambda/agentcore-policy-engine/agentcore_policy_engine.py:330-386 | the method answers and logs what `PolicyCreation` specifies |
| PolicyEngineResource.UpdatePolicy | 01-tutorials/02-AgentCore-gateway/04-integration/04-enterprise-mcp-demo/cdk/lambda/agentcore-policy-engine/agentcore_policy_engine.py:389-445 | the method answers and logs what `PolicyUpdate` specifies |
| PolicyEngineResource.DeletePolicy | 01-tutorials/02-AgentCore-gateway/04-integration/04-enterprise-mcp-demo/cdk/lambda/agentcore-policy-engine/agentcore_policy_engine.py:448-482 | the method answers and logs what `PolicyDeletion` specifies |
| PolicyEngineResource.AttachToGateway | 01-tutorials/02-AgentCore-gateway/04-integration/04-enterprise-mcp-demo/cdk/lambda/agentcore-policy-engine/agentcore_policy_engine.py:68-124 | the method answers and logs what `GatewayAttachment` specifies |
| PolicyEngineResource.HandleAssociation | 01-tutorials/02-AgentCore-gateway/04-integration/04-enterprise-mcp-demo/cdk/lambda/agentcore-policy-engine/agentcore_policy_engine.py:46-124 | the method raises, logging nothing, or answers and logs what `Association` specifies |
| PolicyEngineResource.HandlePolicyEngine | 01-tutorials/02-AgentCore-gateway/04-integration/04-enterprise-mcp-demo/cdk/lambda/agentcore-policy-engine/agentcore_policy_engine.py:132-143 | the method raises, logging nothing, or answers and logs what `EngineDispatch` specifies |
| PolicyEngineResource.HandlePolicy | 01-tutorials/02-AgentCore-gateway/04-integration/04-enterprise-mcp-demo/cdk/lambda/agentcore-policy-engine/agentcore_policy_engine.py:316-327 | the method raises, logging nothing, or answers and logs what `PolicyDispatch` specifies |
| PolicyEngineResource.LambdaHandler | 01-tutorials/02-AgentCore-gateway/04-integration/04-enterprise-mcp-demo/cdk/lambda/agentcore-policy-engine/agentcore_policy_engine.py:12-40 | the method answers and logs what `Handled` specifies |
| PreToken.UserTag | 01-tutorials/02-AgentCore-gateway/04-integration/04-enterprise-mcp-demo/cdk/lambda/pre_token_generation_lambda.py:25-31 | the tag is admin_user exactly for the admin e-mail and regular_user for every other value |
| PreToken.ContainerIff | 01-tutorials/02-AgentCore-gateway/04-integration/04-enterprise-mcp-demo/cdk/lambda/pre_token_generation_lambda.py:35-72 | a guard that only tests `not in` (`claimsToAddOrOverride`, `accessTokenGeneration`) lets the code go on exactly when the value is missing or a dictionary, so a None there makes the block raise; a guard that also tests `is None` (`claimsOverrideDetails`, `claimsAndScopeOverrideDetails`) lets None through and replaces it by {} |
| PreToken.IdClaimsAdded | 01-tutorials/02-AgentCore-gateway/04-integration/04-enterprise-mcp-demo/cdk/lambda/pre_token_generation_lambda.py:45-50 | the ID-token claims get `email` and `user_tag`; every other claim keeps its value |
| PreToken.AccessClaimsAdded | 01-tutorials/02-AgentCore-gateway/04-integration/04-enterprise-mcp-demo/cdk/lambda/pre_token_generation_lambda.py:78-83 | the access-token claims get `email` and `user_tag`; every other claim keeps its value |
| PreToken.NestOutcome | 01-tutorials/02-AgentCore-gateway/04-integration/04-enterprise-mcp-demo/cdk/lambda/pre_token_generation_lambda.py:39 | assigning a nested dictionary makes it the child under that key |
| PreToken.NestOther | 01-tutorials/02-AgentCore-gateway/04-integration/04-enterprise-mcp-demo/cdk/lambda/pre_token_generation_lambda.py:39 | assigning a nested dictionary leaves the other keys alone |
| PreToken.IdBlockIff | 01-tutorials/02-AgentCore-gateway/04-integration/04-enterprise-mcp-demo/cdk/lambda/pre_token_generation_lambda.py:35-50 | the ID-token block completes exactly when each container on its path is missing or a dictionary |
| PreToken.IdBlockOutcome | 01-tutorials/02-AgentCore-gateway/04-integration/04-enterprise-mcp-demo/cdk/lambda/pre_token_generation_lambda.py:35-50 | a completed ID-token block holds the earlier claims plus the two new ones and leaves the access-token details untouched |
| PreToken.AccessBlockIff | 01-tutorials/02-AgentCore-gateway/04-integration/04-enterprise-mcp-demo/cdk/lambda/pre_token_generation_lambda.py:53-83 | the access-token block completes exactly when each of its three containers is missing or a dictionary |
| PreToken.AccessBlockOutcome | 01-tutorials/02-AgentCore-gateway/04-integration/04-enterprise-mcp-demo/cdk/lambda/pre_token_generation_lambda.py:53-83 | a completed access-token block holds the earlier claims plus the two new ones and leaves the ID-token details untouched |
| PreToken.IdReaderOwnKey | 01-tutorials/02-AgentCore-gateway/04-integration/04-enterprise-mcp-demo/cdk/lambda/pre_token_generation_lambda.py:36-45 | the ID-token claims depend only on `claimsOverrideDetails` |
| PreToken.AccessReaderOwnKey | 01-tutorials/02-AgentCore-gateway/04-integration/04-enterprise-mcp-demo/cdk/lambda/pre_token_generation_lambda.py:54-78 | the access-token claims and their path depend only on `claimsAndScopeOverrideDetails` |
| PreToken.ClaimsOfNested | 01-tutorials/02-AgentCore-gateway/04-integration/04-enterprise-mcp-demo/cdk/lambda/pre_token_generation_lambda.py:18-83 | the claims read from the event are those of its `response` |
| PreToken.ClaimsInjected | 01-tutorials/02-AgentCore-gateway/04-integration/04-enterprise-mcp-demo/cdk/lambda/pre_token_generation_lambda.py:16-95 | when every container is usable, both tokens get the e-mail and the tag added to their earlier claims |
| PreToken.SameClaimsInBothTokens | 01-tutorials/02-AgentCore-gateway/04-integration/04-enterprise-mcp-demo/cdk/lambda/pre_token_generation_lambda.py:27-83 | both tokens carry the same e-mail and the same tag, which is admin_user exactly for the admin e-mail |
| PreToken.OnlyResponseChanges | 01-tutorials/02-AgentCore-gateway/04-integration/04-enterprise-mcp-demo/cdk/lambda/pre_token_generation_lambda.py:16-95 | only `response` changes; every other key of the event keeps its value |
| PreToken.ErrorsLeaveEventUnchanged | 01-tutorials/02-AgentCore-gateway/04-integration/04-enterprise-mcp-demo/cdk/lambda/pre_token_generation_lambda.py:16-93 | a missing request, e-mail attributes or response, or an unusable ID-token container, leaves the event exactly as it came |
| PreToken.IdClaimsSurviveAccessFailure | 01-tutorials/02-AgentCore-gateway/04-integration/04-enterprise-mcp-demo/cdk/lambda/pre_token_generation_lambda.py:45-93 | when the access-token block raises, the ID-token claims already written stay and the access-token details are untouched |
| PreToken.CognitoEvent.constructor | 01-tutorials/02-AgentCore-gateway/04-integration/04-enterprise-mcp-demo/cdk/lambda/pre_token_generation_lambda.py:8 | the event object holds the given dictionary |
| PreToken.LambdaHandler | 01-tutorials/02-AgentCore-gateway/04-integration/04-enterprise-mcp-demo/cdk/lambda/pre_token_generation_lambda.py:8-95 | the event is updated in place to `Handled` of its old contents and returned |
| RagAgent.FirstFew | 04-infrastructure-as-code/cdk/typescript/knowledge-base-rag-agent/infrastructure/agent/src/main.py:146 | `xs[:5]` is the prefix of length min(5, len(xs)) |
| RagAgent.LastFew | 04-infrastructure-as-code/cdk/typescript/knowledge-base-rag-agent/infrastructure/agent/src/main.py:153 | `xs[-5:]` is the suffix of length min(5, len(xs)) |
| RagAgent.MemorySection | 04-infrastructure-as-code/cdk/typescript/knowledge-base-rag-agent/infrastructure/agent/src/main.py:144-148 | the loop over the first five memories produces exactly the memory section |
| RagAgent.HistorySection | 04-infrastructure-as-code/cdk/typescript/knowledge-base-rag-agent/infrastructure/agent/src/main.py:151-157 | the loop over the last five turns produces exactly the history section, or the error raised by the first bad turn |
| RagAgent.BuildContext | 04-infrastructure-as-code/cdk/typescript/knowledge-base-rag-agent/infrastructure/agent/src/main.py:139-159 | the method computes exactly the context string, or the error a bad turn raises |
| RagAgent.CollectStep | 04-infrastructure-as-code/cdk/typescript/knowledge-base-rag-agent/infrastructure/agent/src/main.py:153-156 | one more loop step either keeps an earlier error, raises the new item's error, or appends the new line |
| RagAgent.CollectRaisedPersists | 04-infrastructure-as-code/cdk/typescript/knowledge-base-rag-agent/infrastructure/agent/src/main.py:153-156 | once a turn has raised, the later turns do not change the outcome |
| RagAgent.CollectOk | 04-infrastructure-as-code/cdk/typescript/knowledge-base-rag-agent/infrastructure/agent/src/main.py:153-156 | the loop completes exactly when every item converts without raising |
| RagAgent.CollectInOrder | 04-infrastructure-as-code/cdk/typescript/knowledge-base-rag-agent/infrastructure/agent/src/main.py:153-156 | a completed loop yields one line per item, in the items' order |
| RagAgent.TurnLinesOk | 04-infrastructure-as-code/cdk/typescript/knowledge-base-rag-agent/infrastructure/agent/src/main.py:153-156 | the history lines are all produced exactly when no turn raises |
| RagAgent.TurnLinesInOrder | 04-infrastructure-as-code/cdk/typescript/knowledge-base-rag-agent/infrastructure/agent/src/main.py:153-156 | the history lines correspond one-to-one and in order to the recent turns |
| RagAgent.TurnDefaults | 04-infrastructure-as-code/cdk/typescript/knowledge-base-rag-agent/infrastructure/agent/src/main.py:154-156 | a missing role reads as `Unknown` and a missing content as the empty string |
| RagAgent.TurnLineIff | 04-infrastructure-as-code/cdk/typescript/knowledge-base-rag-agent/infrastructure/agent/src/main.py:154-156 | a turn yields a line exactly when it is a dictionary whose role is a string; a non-dictionary raises on `.get` |
| RagAgent.JoinNonEmpty | 04-infrastructure-as-code/cdk/typescript/knowledge-base-rag-agent/infrastructure/agent/src/main.py:159 | joining parts whose first part is non-empty gives a non-empty string |
| RagAgent.ContextEmptyIff | 04-infrastructure-as-code/cdk/typescript/knowledge-base-rag-agent/infrastructure/agent/src/main.py:139-159 | the context is empty exactly when there is neither history nor any memory |
| RagAgent.MemoryLayout | 04-infrastructure-as-code/cdk/typescript/knowledge-base-rag-agent/infrastructure/agent/src/main.py:144-148 | the memory section is empty without memories, otherwise header, one `- memory` line per memory among the first five, then a blank line |
| RagAgent.HistoryLayout | 04-infrastructure-as-code/cdk/typescript/knowledge-base-rag-agent/infrastructure/agent/src/main.py:151-157 | the history section is empty without history, otherwise header, one line per turn among the last five, then a blank line |
| RagAgent.OnlyRecentTurnsRead | 04-infrastructure-as-code/cdk/typescript/knowledge-base-rag-agent/infrastructure/agent/src/main.py:153 | turns older than the last five do not affect the context |
| RagAgent.OnlyFirstMemoriesRead | 04-infrastructure-as-code/cdk/typescript/knowledge-base-rag-agent/infrastructure/agent/src/main.py:146 | memories after the first five do not affect the context |
| RagAgent.ContextSplitsIntoParts | 04-infrastructure-as-code/cdk/typescript/knowledge-base-rag-agent/infrastructure/agent/src/main.py:159 | splitting the context on newlines gives back its parts when no part holds a newline |
| RagAgent.ResponseFields | 04-infrastructure-as-code/cdk/typescript/knowledge-base-rag-agent/infrastructure/agent/src/main.py:71-75 | every reply is a dictionary with exactly `response`, `session_id` and `status`, in that order |
| RagAgent.Runtime.constructor | 04-infrastructure-as-code/cdk/typescript/knowledge-base-rag-agent/infrastructure/agent/src/main.py:27-28 | the agent and the memory manager start uncreated |
| RagAgent.Runtime.GetAgent | 04-infrastructure-as-code/cdk/typescript/knowledge-base-rag-agent/infrastructure/agent/src/main.py:31-36 | the agent is created at most once and reused afterwards |
| RagAgent.Runtime.GetMemoryManager | 04-infrastructure-as-code/cdk/typescript/knowledge-base-rag-agent/infrastructure/agent/src/main.py:39-47 | the memory manager is created at most once, from `MEMORY_ID` and `AWS_REGION` (default us-east-1), and reused afterwards |
| RagAgent.Runtime.Invoke | 04-infrastructure-as-code/cdk/typescript/knowledge-base-rag-agent/infrastructure/agent/src/main.py:51-136 | the reply is the specified one; an empty prompt creates nothing, any other prompt leaves both the agent and the memory manager created |
| RagAgent.MissingPromptReply | 04-infrastructure-as-code/cdk/typescript/knowledge-base-rag-agent/infrastructure/agent/src/main.py:66-75 | a missing or empty prompt yields the error reply "Please provide a prompt." with the caller's session id |
| RagAgent.ReplyShape | 04-infrastructure-as-code/cdk/typescript/knowledge-base-rag-agent/infrastructure/agent/src/main.py:67-136 | every reply carries the three keys and the caller's session id, `default` when none was given |
| RagAgent.SuccessIff | 04-infrastructure-as-code/cdk/typescript/knowledge-base-rag-agent/infrastructure/agent/src/main.py:97-136 | the status is success exactly when the prompt is non-empty and every step completed, the response is then the agent's text, and any error becomes "An error occurred: ..." |
| RagAgent.FullPromptIff | 04-infrastructure-as-code/cdk/typescript/knowledge-base-rag-agent/infrastructure/agent/src/main.py:97-100 | the prompt goes to the agent unchanged exactly when the context is empty, otherwise it is prefixed by the context and `User:` |
| RagAgent.SuccessStored | 04-infrastructure-as-code/cdk/typescript/knowledge-base-rag-agent/infrastructure/agent/src/main.py:115-128 | a completed answer means the store call completed for this user, session, prompt and reply text |
| RagAgent.ReplyTextCases | 04-infrastructure-as-code/cdk/typescript/knowledge-base-rag-agent/infrastructure/agent/src/main.py:105-112 | extracting the reply text raises exactly when the first content block is not a dictionary; otherwise the text is the block's `text` or the printed response |
| KnowledgeBase.Truncated | 04-infrastructure-as-code/cdk/typescript/knowledge-base-rag-agent/infrastructure/agent/src/tools/knowledge_base.py:97-99 | content of at most 800 characters is kept whole; longer content keeps its first 800 characters followed by `...` |
| KnowledgeBase.Blocks | 04-infrastructure-as-code/cdk/typescript/knowledge-base-rag-agent/infrastructure/agent/src/tools/knowledge_base.py:79-102 | there is one formatted block per retrieved result |
| KnowledgeBase.FormatResults | 04-infrastructure-as-code/cdk/typescript/knowledge-base-rag-agent/infrastructure/agent/src/tools/knowledge_base.py:79-104 | the loop over the results produces exactly the blocks joined by `\n---\n` |
| KnowledgeBase.Tool.constructor | 04-infrastructure-as-code/cdk/typescript/knowledge-base-rag-agent/infrastructure/agent/src/tools/knowledge_base.py:17 | the client starts uncreated |
| KnowledgeBase.Tool.GetClient | 04-infrastructure-as-code/cdk/typescript/knowledge-base-rag-agent/infrastructure/agent/src/tools/knowledge_base.py:20-35 | the client is created at most once, for `AWS_REGION` (default us-east-1), and the same client is returned afterwards |
| KnowledgeBase.Tool.Search | 04-infrastructure-as-code/cdk/typescript/knowledge-base-rag-agent/infrastructure/agent/src/tools/knowledge_base.py:39-116 | without `KNOWLEDGE_BASE_ID` the tool answers "not available" and creates no client; otherwise the reply is that of the retrieve outcome, using the cached client; the result count asked for is the caller's `max_results`, 5 when it gives none |
| KnowledgeBase.BlocksAppend | 04-infrastructure-as-code/cdk/typescript/knowledge-base-rag-agent/infrastructure/agent/src/tools/knowledge_base.py:80-102 | one more result appends one more block, numbered one past the earlier results |
| KnowledgeBase.JoinAppend | 04-infrastructure-as-code/cdk/typescript/knowledge-base-rag-agent/infrastructure/agent/src/tools/knowledge_base.py:104 | joining one more part appends the separator and that part |
| KnowledgeBase.FormattedAppend | 04-infrastructure-as-code/cdk/typescript/knowledge-base-rag-agent/infrastructure/agent/src/tools/knowledge_base.py:79-104 | one more result appends the separator and its block to the formatted text |
| KnowledgeBase.DigitsBeforeStar | 04-infrastructure-as-code/cdk/typescript/knowledge-base-rag-agent/infrastructure/agent/src/tools/knowledge_base.py:94 | two digit strings that both end where the first `*` follows are equal |
| KnowledgeBase.HeadingNumber | 04-infrastructure-as-code/cdk/typescript/knowledge-base-rag-agent/infrastructure/agent/src/tools/knowledge_base.py:94 | the heading of result i carries the decimal digits of i right after `**Result `, followed by `*` |
| KnowledgeBase.BlockNumber | 04-infrastructure-as-code/cdk/typescript/knowledge-base-rag-agent/infrastructure/agent/src/tools/knowledge_base.py:94-100 | every block carries its own number after `**Result `, followed by `*` |
| KnowledgeBase.BlocksNumbered | 04-infrastructure-as-code/cdk/typescript/knowledge-base-rag-agent/infrastructure/agent/src/tools/knowledge_base.py:80-94 | blocks with different numbers differ, whatever the results |
| KnowledgeBase.JoinHead | 04-infrastructure-as-code/cdk/typescript/knowledge-base-rag-agent/infrastructure/agent/src/tools/knowledge_base.py:104 | the joined text starts with its first part |
| KnowledgeBase.ResultsReplyHead | 04-infrastructure-as-code/cdk/typescript/knowledge-base-rag-agent/infrastructure/agent/src/tools/knowledge_base.py:73-104 | an empty result list answers "No results found ..." and a non-empty one starts with its first block |
| KnowledgeBase.ErrorReplyHead | 04-infrastructure-as-code/cdk/typescript/knowledge-base-rag-agent/infrastructure/agent/src/tools/knowledge_base.py:106-116 | each failure answers with its own "Error..." prefix: not found, invalid request, or any other error |
| KnowledgeBase.RepliesDistinguishOutcomes | 04-infrastructure-as-code/cdk/typescript/knowledge-base-rag-agent/infrastructure/agent/src/tools/knowledge_base.py:73-116 | outcomes of different kinds (results, none, not found, invalid, other failure) never give the same reply |
| PolicyGenerator.Workspace.constructor | 01-tutorials/08-AgentCore-policy/Getting-Started/scripts/policy_generator.py:164 | the workspace holds the given config file and nothing has been written yet |
| PolicyGenerator.Workspace.SaveToConfig | 01-tutorials/08-AgentCore-policy/Getting-Started/scripts/policy_generator.py:159-196 | the config file becomes its saved form, and it is written once exactly when it held an object missing or differing in the id or the ARN |
| PolicyGenerator.MergedSetsKeys | 01-tutorials/08-AgentCore-policy/Getting-Started/scripts/policy_generator.py:176-182 | after a save the config maps `policy_engine_id` to the id and `policy_engine_arn` to the ARN |
| PolicyGenerator.MergedKeepsOthers | 01-tutorials/08-AgentCore-policy/Getting-Started/scripts/policy_generator.py:174-182 | a save leaves every other key of the config unchanged |
| PolicyGenerator.MergedIsAssignment | 01-tutorials/08-AgentCore-policy/Getting-Started/scripts/policy_generator.py:176-182 | the two conditional assignments give the same dictionary as two plain assignments |
| PolicyGenerator.WrittenIffChanged | 01-tutorials/08-AgentCore-policy/Getting-Started/scripts/policy_generator.py:184-187 | the file is rewritten exactly when saving changes it |
| PolicyGenerator.SaveIdempotent | 01-tutorials/08-AgentCore-policy/Getting-Started/scripts/policy_generator.py:159-196 | saving the same id and ARN twice writes nothing the second time and leaves the same file |
| PolicyGenerator.WaitForActive | 01-tutorials/08-AgentCore-policy/Getting-Started/scripts/policy_generator.py:116-157 | the first poll whose answer is ACTIVE or a failed status decides (true exactly for ACTIVE); missing answers, empty answers and other statuses are polled again until the time runs out, and then the wait fails |
| PolicyGenerator.CreatePolicyEngine | 01-tutorials/08-AgentCore-policy/Getting-Started/scripts/policy_generator.py:81-102 | a ClientError gives None; a reply without `policyEngineId` raises KeyError; otherwise the id is returned and the config is saved exactly when the ARN is truthy |
| PolicyGenerator.ListPolicyEngines | 01-tutorials/08-AgentCore-policy/Getting-Started/scripts/policy_generator.py:69-79 | the reply's `policyEngines`, or the empty list when it is absent or the call fails; TypeError from the logged `len` exactly when the entry is null, a boolean or a number |
| StackOutputs.HasEquals | 01-tutorials/02-AgentCore-gateway/04-integration/04-enterprise-mcp-demo/scripts/script.py:31 | the substring test for `=` holds exactly when the line contains the character `=` |
| StackOutputs.Entry | 01-tutorials/02-AgentCore-gateway/04-integration/04-enterprise-mcp-demo/scripts/script.py:31-33 | a line gives an entry exactly when it contains `=` |
| StackOutputs.EntryOfLine | 01-tutorials/02-AgentCore-gateway/04-integration/04-enterprise-mcp-demo/scripts/script.py:31-33 | a line with `=` is split at its first `=`, the key cleaned and the value stripped; a line without `=` gives nothing |
| StackOutputs.ParsedStep | 01-tutorials/02-AgentCore-gateway/04-integration/04-enterprise-mcp-demo/scripts/script.py:30-33 | one more line either assigns its entry in the dictionary or leaves it alone |
| StackOutputs.ParseOutputs | 01-tutorials/02-AgentCore-gateway/04-integration/04-enterprise-mcp-demo/scripts/script.py:29-33 | the loop over the output's lines builds exactly the dictionary of their entries, later lines overriding earlier ones |
| StackOutputs.LineWithoutEqualsIgnored | 01-tutorials/02-AgentCore-gateway/04-integration/04-enterprise-mcp-demo/scripts/script.py:31 | a line without `=` changes nothing |
| StackOutputs.LaterLineWins | 01-tutorials/02-AgentCore-gateway/04-integration/04-enterprise-mcp-demo/scripts/script.py:33 | a line with `=` sets its key to its value and leaves every other key as it was |
| StackOutputs.FirstEquals | 01-tutorials/02-AgentCore-gateway/04-integration/04-enterprise-mcp-demo/scripts/script.py:32 | the first `=` of `key=value` is the one after the key when the key holds none |
| StackOutputs.SplitAtFirstEquals | 01-tutorials/02-AgentCore-gateway/04-integration/04-enterprise-mcp-demo/scripts/script.py:32-33 | `key=value` gives the cleaned key and the stripped value, even when the value holds further `=` signs |
| StackOutputs.BlankValueIsEmpty | 01-tutorials/02-AgentCore-gateway/04-integration/04-enterprise-mcp-demo/scripts/script.py:33 | a value made only of white space is stored as the empty string |
| StackOutputs.StackPrefixRemoved | 01-tutorials/02-AgentCore-gateway/04-integration/04-enterprise-mcp-demo/scripts/script.py:33 | the `EnterpriseMcpInfraStack.` prefix is removed from a key that does not contain it again |
| StackOutputs.LinesWithoutEqualsIgnored | 01-tutorials/02-AgentCore-gateway/04-integration/04-enterprise-mcp-demo/scripts/script.py:30-31 | any run of lines without `=` changes nothing |
| StackOutputs.ContinuationLinesDropped | 01-tutorials/02-AgentCore-gateway/04-integration/04-enterprise-mcp-demo/scripts/script.py:19-33 | the lines of a multi-line value that hold no `=` are dropped and the key keeps only its first line's value |
| McpTools.StripTarget | 01-tutorials/02-AgentCore-gateway/04-integration/04-enterprise-mcp-demo/cdk/lambda/mcp-servers/user_details/user_details_lambda.py:9-10 | the tool name after the first `___`, and ValueError exactly when the visible name has no `___` |
| McpTools.StripTargetPrefix | 01-tutorials/02-AgentCore-gateway/04-integration/04-enterprise-mcp-demo/cdk/lambda/mcp-servers/user_details/user_details_lambda.py:5-10 | a target name without underscores is stripped from `target___tool`, leaving the tool name |
| McpTools.ContextIff | 01-tutorials/02-AgentCore-gateway/04-integration/04-enterprise-mcp-demo/cdk/lambda/mcp-servers/user_details/user_details_lambda.py:9-17 | reading the client context succeeds exactly when a client context was sent, its tool name is present and delimited and the other five keys are present; it then yields the stripped tool name and the target id |
| McpTools.MissingClientContextRaises | 01-tutorials/02-AgentCore-gateway/04-integration/04-enterprise-mcp-demo/cdk/lambda/mcp-servers/user_details/user_details_lambda.py:9 | an invocation without a client context raises AttributeError on `.custom` before any key is read |
| McpTools.MissingToolNameRaises | 01-tutorials/02-AgentCore-gateway/04-integration/04-enterprise-mcp-demo/cdk/lambda/mcp-servers/user_details/user_details_lambda.py:9 | a missing `bedrockAgentCoreToolName` raises KeyError on that key |
| McpTools.UndelimitedToolNameRaises | 01-tutorials/02-AgentCore-gateway/04-integration/04-enterprise-mcp-demo/cdk/lambda/mcp-servers/user_details/user_details_lambda.py:10 | a tool name without `___` raises "substring not found" |
| McpTools.HandlersFailAlike | 01-tutorials/02-AgentCore-gateway/04-integration/04-enterprise-mcp-demo/cdk/lambda/mcp-servers/inventory/inventory_lambda.py:9-17 | a context that cannot be read makes the three handlers raise its error whatever the events; with dictionary events, that is the only way they raise |
| McpTools.NonDictionaryEventRaises | 01-tutorials/02-AgentCore-gateway/04-integration/04-enterprise-mcp-demo/cdk/lambda/mcp-servers/user_details/user_details_lambda.py:23 | a recognised tool with an event that is not a dictionary raises AttributeError at `event.get`; an unrecognised tool answers None without reading the event |
| McpTools.UserDetailsReplies | 01-tutorials/02-AgentCore-gateway/04-integration/04-enterprise-mcp-demo/cdk/lambda/mcp-servers/user_details/user_details_lambda.py:19-34 | `get_user_email` and `get_user_cc_number` answer for the event's `userId` (the target id when absent); any other tool answers None |
| McpTools.InventoryReplies | 01-tutorials/02-AgentCore-gateway/04-integration/04-enterprise-mcp-demo/cdk/lambda/mcp-servers/inventory/inventory_lambda.py:19-28 | `get_inventory` answers for the event's `productId` (the target id when absent); any other tool answers None |
| McpTools.WeatherReplies | 01-tutorials/02-AgentCore-gateway/04-integration/04-enterprise-mcp-demo/cdk/lambda/mcp-servers/weather/weather_lambda.py:19-26 | `get_weather` answers for the event's `timezone` (`unknown` when absent); any other tool answers None |
| McpTools.RepliesNameTheirUser | 01-tutorials/02-AgentCore-gateway/04-integration/04-enterprise-mcp-demo/cdk/lambda/mcp-servers/user_details/user_details_lambda.py:25-31 | different users get different replies, and an e-mail reply is never a card-number reply |

## Left out

- Logging and `print` calls are not modelled. They have no effect on results, except that the `len` in the log call of `list_policy_engines` (policy_generator.py:75) raises TypeError for an entry without a length, which PolicyGenerator.ListPolicyEngines models.
- I/O is not modelled: HTTP requests, the CloudFormation response PUT (`send_response` sending with `urllib3`), file reads and writes, and `time.sleep`.
  - Responses are values.
  - A wait is a number of polls (`rounds`), the polls that fit in its timeout.
  - The config file is a `ConfigFile` value.
- AWS clients (Cognito, the AgentCore control plane, Bedrock Retrieve, the memory service), the Strands agent and the language model are oracles, given as parameters.
  - `create_agent` and the agent module are not part of this model.
  - The memory manager is not part of this model either.
  - Exceptions raised while a boto3 client is created are not modelled.
- Regular expressions are not interpreted. `search(rule, text)` stands for the compiled pattern matching the text.
- The `GATEWAY_AUTH=IAM` branch of the proxy is not modelled, including its user-id header taken from the JWT `sub`. It signs the request with SigV4 through botocore.
- Clocks and random values are not modelled. Two clock readings are `now` parameters: `int(time.time())` in the `failed-<timestamp>` physical id (agentcore_policy_engine.py:646), and `int(time.time() * 1000)` in the proxy's `created_at` (mcp_proxy_lambda.py:283). The policy generator's `create_policy_engine` puts a `datetime.now()` timestamp in its description and sends a `uuid4` client token (policy_generator.py:85-89). Neither is modelled.
- Python `str()` of a dictionary or list is modelled as its JSON text, not as Python's `repr`.
- Python numbers compare across `int` and `float` by value. The model compares numbers by their literal text.
- JsonText.Dumps: a float that neither overflows nor rounds to zero is written as its literal text. Python writes the shortest text that reads back as the same double, so `1e2` is written `100.0` and `1.50` is written `1.5`. NaN, the infinities (overflowing literals included) and the signed zeros are written as Python writes them. This reaches the proxy's token response, which dumps Cognito's reply again (mcp_proxy_lambda.py:280-283).
- JsonText.PyStr: `str()` of a float has the same gap as JsonText.Dumps. `nan`, `inf`, `-inf`, `0.0` and `-0.0` are modelled; other finite floats print as their literal text.
- `lower`, `upper`, `capitalize` and `title` are modelled for ASCII letters only.
- Knowledge-base results are typed records, so the model has no `AttributeError` paths for malformed results. The score is taken already formatted to two decimals.
- `json.dump(config, f, indent=2)` is not modelled: the written file is its JSON value, not its text.
- The `statusReason` of a failed engine in the policy generator is only logged, so it is not modelled.
- `compute_query_hash` in the SQL interceptor only feeds a log line, so it is not modelled.
- The pre-token trigger's event is one dictionary value. Python aliasing between its nested dictionaries is not modelled. Each nested dictionary is rebuilt and written back in place, which gives the same result.
- McpProxy.Event: the headers are a dictionary of strings and the body is a string. So the AttributeError or TypeError the source raises for a non-dictionary `headers` or a `null` body is not modelled.
- McpProxy.GatewayResponse: the gateway's bodies are text that was already decoded. A success body that is not UTF-8 makes `resp.read().decode()` raise. The source turns that into the 502, which the model reaches through `Failure`. An HTTP error body that is not UTF-8 makes `e.read().decode()` raise inside the `except` block (mcp_proxy_lambda.py:398). The source lets that exception escape; the model has no reply that expresses it.
- McpProxy.TokenResponse: Cognito's replies are decoded text. A body that is not UTF-8 raises in the source, on either path. The model expresses that only as `TokenFailure`, which propagates the same way.
- RagAgent.Runtime.Invoke: the payload is a dictionary. For a payload that is not one, `payload.get` raises inside the `try`, and the `except` block calls `payload.get` again (main.py:134). That second exception escapes the handler, and the model does not express it.
- PolicyGenerator.CreatePolicyEngine, PolicyGenerator.ListPolicyEngines and PolicyGenerator.WaitForActive: the reply oracles express only ClientError. Any other exception raised by the boto3 call propagates past `except ClientError` (policy_generator.py:77-79, 96-102, 116-124), and the model does not express it.
- PolicyEngineResource.SendResponse: the event's `StackId`, `RequestId` and `LogicalResourceId` are strings. So the KeyError `send_response` raises when one of them is missing (agentcore_policy_engine.py:654-656) is not modelled. Likewise, `lambda_handler` reads `event["RequestType"]` and `event["ResourceProperties"]` outside its `try` (agentcore_policy_engine.py:19-20). A missing key there raises a KeyError that escapes, and no response is sent at all. The typed `Event` always has both fields.
- PolicyEngineResource.GatewayUpdateFor: the control plane's replies are dictionaries of strings. The nested `protocolConfiguration`, `authorizerConfiguration` and `interceptorConfigurations` values are copied as opaque strings, not as structured JSON, and a JSON `null` in the reply is not expressed.
- McpTools.ReadContext: `client_context.custom` is a dictionary of strings. A `custom` of None, or a tool name that is not a string (so `.index` fails), is not modelled. The missing client context and the non-dictionary event are modelled.
- PolicyEngineResource.PolicyUpdate: the service's answer to `update_policy` is unconstrained. It does not capture botocore's client-side check of parameter names. That check would reject the `policy_description=` keyword (agentcore_policy_engine.py:417-423) before any request is sent, so every changed statement would end FAILED.
- PromptInterceptor.Preview: slicing a dictionary query raises with Python 3.11's message, `unhashable type: 'slice'`. Python 3.12 and later raise KeyError instead. The request is blocked either way, but the reason text differs.
- PolicyGenerator.MergedSetsKeys and PolicyGenerator.MergedKeepsOthers state only the two assigned keys and the untouched keys. PolicyGenerator.MergedIsAssignment gives the full dictionary.

## Findings

| source | as written | input that shows it | evidently intended | confidence | as-written member | corrected member |
|---|---|---|---|---|---|---|
| 01-tutorials/02-AgentCore-gateway/15-prevent-sql-injection/src/lambda/lambda_function.py:181-183 | the `except` block reads `request_body.get('id', 'unknown')`, so it raises when the body is not a dictionary or was never bound | an event whose `mcp.gatewayRequest.body` is the string `"x"`, or whose `mcp` is `null` | fail closed: block with INTERCEPTOR_ERROR and id `unknown` | not executed | SqlInterceptor.StringBodyEscapes, SqlInterceptor.UnreadableRequestEscapes | SqlInterceptor.FailClosedHandler (proved by SqlInterceptor.FailClosedHandlerRefines) |
| 01-tutorials/02-AgentCore-gateway/15-prevent-prompt-injection/src/lambda/lambda_function.py:262-274 | the fail-closed `except` block reads `request_body.get('id', 'unknown')`, so it raises when the body is not a dictionary | an event whose `mcp.gatewayRequest.body` is the string `"x"` | block with the interceptor-error reason and id `unknown` | not executed | PromptInterceptor.StringBodyEscapes | PromptInterceptor.FailClosedHandler (proved by PromptInterceptor.FailClosedHandlerRefines) |
