/**
 * The prompt injection REQUEST interceptor: the `query` argument of a `tools/call` is sent to a
 * language model with an analysis prompt, and the model's verdict decides whether the request
 * continues unchanged or is replaced by a JSON-RPC error.
 *
 * The model call is a parameter: `llm(query)` is the reply to the analysis prompt built from
 * `query` (the `text` of the first content block), or the message of the exception the call or
 * the parsing of its answer raised.
 */
module PromptInterceptor {
  import opened Wrappers
  import opened Text
  import opened PyDict
  import opened Json
  import opened Interceptors

  datatype LlmReply = Replied(text: string) | Failed(message: string)

  /** `(is_safe, reason)` as `analyze_prompt_with_llm` returns it. */
  datatype Verdict = Verdict(safe: bool, reason: string)

  /** The prefix of the reason given when the analysis itself failed. */
  const AnalysisFailed := "Security analysis failed: "

  /** The reason of an UNSAFE reply that gives none of its own. */
  const NoReasonGiven := "Potential injection detected"

  /** The reason an UNSAFE reply carries: what is left once every `UNSAFE:` is removed and it is stripped. */
  function UnsafeReason(answer: string): string {
    Strip(Replace(answer, "UNSAFE:", ""))
  }

  /**
   * The verdict parsing of `analyze_prompt_with_llm`: the reply is stripped, then read as SAFE,
   * as UNSAFE with a reason, or as unexpected; a failed call fails closed.
   */
  function ParseVerdict(reply: LlmReply): (v: Verdict)
    ensures v.safe <==> reply.Replied? && "SAFE" <= Strip(reply.text)
    ensures v.safe ==> v.reason == "Query passed security analysis"
    ensures !v.safe ==> v.reason != ""
    ensures reply.Failed? ==> v.reason == AnalysisFailed + Take(reply.message, 100)
    ensures reply.Replied? && !("SAFE" <= Strip(reply.text)) && !("UNSAFE" <= Strip(reply.text)) ==>
      v.reason == "Unable to verify query safety"
    ensures reply.Replied? && "UNSAFE" <= Strip(reply.text) ==>
      var reason := UnsafeReason(Strip(reply.text));
      !v.safe && (reason != "" ==> v.reason == reason) && (reason == "" ==> v.reason == NoReasonGiven)
  {
    match reply
    case Failed(message) => Verdict(false, AnalysisFailed + Take(message, 100))
    case Replied(text) =>
      var answer := Strip(text);
      if "SAFE" <= answer then Verdict(true, "Query passed security analysis")
      else if "UNSAFE" <= answer then
        var reason := UnsafeReason(answer);
        Verdict(false, if reason != "" then reason else NoReasonGiven)
      else Verdict(false, "Unable to verify query safety")
  }

  /** Removing a leading marker followed by a space, where the marker does not occur again, leaves the space and the rest. */
  lemma ReplaceMarker(marker: string, reason: string)
    requires marker != [] && !IsSpace(marker[0])
    requires !Contains(reason, marker)
    ensures Replace(marker + " " + reason, marker, "") == [' '] + reason
  {
    var tail := [' '] + reason;
    assert marker + " " + reason == marker + tail;
    assert !(marker <= tail) by {
      assert tail[0] == ' ';
    }
    calc {
      Replace(marker + tail, marker, "");
      { ReplaceAtPrefix(marker, tail, ""); }
      "" + Replace(tail, marker, "");
      { ReplaceSkipChar(' ', reason, marker, ""); }
      "" + ([' '] + Replace(reason, marker, ""));
      { ReplaceAbsent(reason, marker, ""); }
      tail;
    }
  }

  /** Stripping `marker + " " + reason` keeps it whole; removing the marker and stripping again leaves the reason. */
  lemma MarkedReason(marker: string, reason: string)
    requires marker != [] && !IsSpace(marker[0])
    requires reason != [] && !IsSpace(reason[0]) && !IsSpace(reason[|reason| - 1])
    requires !Contains(reason, marker)
    ensures Strip(marker + " " + reason) == marker + " " + reason
    ensures Strip(Replace(marker + " " + reason, marker, "")) == reason
  {
    var s := marker + " " + reason;
    assert s[0] == marker[0] && s[|s| - 1] == reason[|reason| - 1];
    StripUnchanged(s);
    ReplaceMarker(marker, reason);
    StripLeadingSpace(' ', reason);
    StripUnchanged(reason);
  }

  /**
   * A reply in the format the prompt asks for, `UNSAFE: <reason>`, yields exactly that reason
   * when it has no surrounding whitespace and no `UNSAFE:` of its own.
   */
  lemma UnsafeReplyRoundTrip(reason: string)
    requires reason != [] && !IsSpace(reason[0]) && !IsSpace(reason[|reason| - 1])
    requires !Contains(reason, "UNSAFE:")
    ensures ParseVerdict(Replied("UNSAFE: " + reason)) == Verdict(false, reason)
  {
    var text := "UNSAFE:" + " " + reason;
    assert "UNSAFE: " + reason == text;
    MarkedReason("UNSAFE:", reason);
    assert !("SAFE" <= text) by {
      assert text[0] == 'U';
    }
    assert "UNSAFE" <= text;
    UnsafeVerdict(text, reason);
  }

  /**
   * A reply whose strip starts with UNSAFE is blocked with the remainder as its reason, or with
   * the fixed fallback when nothing remains.
   */
  lemma UnsafeVerdict(text: string, reason: string)
    requires "UNSAFE" <= Strip(text)
    requires UnsafeReason(Strip(text)) == reason
    ensures reason != "" ==> ParseVerdict(Replied(text)) == Verdict(false, reason)
    ensures reason == "" ==> ParseVerdict(Replied(text)) == Verdict(false, NoReasonGiven)
  {
    assert !("SAFE" <= Strip(text)) by {
      assert Strip(text)[0] == 'U';
    }
  }

  /**
   * `UNSAFE:` alone, whatever whitespace surrounds it, leaves nothing once the marker is removed,
   * so the fallback reason is given.
   */
  lemma BareMarkerGetsFallback(pre: string, post: string)
    requires forall i :: 0 <= i < |pre| ==> IsSpace(pre[i])
    requires forall i :: 0 <= i < |post| ==> IsSpace(post[i])
    ensures ParseVerdict(Replied(pre + "UNSAFE:" + post)) == Verdict(false, NoReasonGiven)
  {
    var marker := "UNSAFE:";
    StripSurrounded(pre, marker, post);
    RemoveWhole(marker);
    assert UnsafeReason(marker) == "";
    UnsafeVerdict(pre + marker + post, "");
  }

  /** Removing a pattern from itself leaves nothing. */
  lemma RemoveWhole(pat: string)
    requires pat != []
    ensures Replace(pat, pat, "") == []
  {
    ReplaceAtPrefix(pat, [], "");
    assert pat + [] == pat;
  }

  /**
   * `UNSAFE` without the colon, whatever whitespace surrounds it, holds no marker, so the word
   * itself becomes the reason.
   */
  lemma BareWordIsItsOwnReason(pre: string, post: string)
    requires forall i :: 0 <= i < |pre| ==> IsSpace(pre[i])
    requires forall i :: 0 <= i < |post| ==> IsSpace(post[i])
    ensures ParseVerdict(Replied(pre + "UNSAFE" + post)) == Verdict(false, "UNSAFE")
  {
    var word := "UNSAFE";
    StripSurrounded(pre, word, post);
    assert !Contains(word, "UNSAFE:") by {
      assert |"UNSAFE:"| > |word|;
    }
    ReplaceAbsent(word, "UNSAFE:", "");
    StripUnchanged(word);
    UnsafeVerdict(pre + word + post, word);
  }

  /**
   * `user_query[:100]` for the log preview, outside the inner `try`: strings and lists can be
   * sliced; numbers and booleans raise TypeError, and so does a dictionary (the slice object is
   * unhashable).
   */
  function Preview(query: Value): (r: Result<Value>)
    ensures r.Ok? <==> query.Str? || query.Arr?
  {
    match query
    case Str(s) => Ok(Str(Take(s, 100)))
    case Arr(items) => Ok(Arr(if |items| <= 100 then items else items[..100]))
    case Obj(_) => Raised("unhashable type: 'slice'")
    case _ => Raised(NotSubscriptable(query))
  }

  /** `analyze_prompt_with_llm(user_query)`: the preview may raise; the model's answer never does. */
  function AnalyzePrompt(query: Value, llm: Value -> LlmReply): (r: Result<Verdict>)
    ensures r.Ok? <==> query.Str? || query.Arr?
    ensures r.Ok? ==> r.value == ParseVerdict(llm(query))
  {
    var preview :- Preview(query);
    Ok(ParseVerdict(llm(query)))
  }

  /** `create_blocked_response`: the request is rewritten into a JSON-RPC error with the blocking headers. */
  function BlockedResponse(reason: string, requestId: Value): Value {
    PassRequest(BlockedHeaders,
                RpcError(requestId, "Request blocked by security interceptor",
                         Obj([("reason", Str(reason)), ("security_policy", Str("prompt_injection_prevention"))])))
  }

  /** The body of the `try` block once `request_body` is bound. */
  function Screen(req: Request, llm: Value -> LlmReply): Result<Value> {
    var headers :- MemberOr(req.gateway, "headers", Obj([]));
    var rpcMethod :- MemberOr(req.body, "method", Str(""));
    var requestId :- MemberOr(req.body, "id", Str("unknown"));
    if rpcMethod != Str("tools/call") then Ok(PassRequest(headers, req.body))
    else
      var params :- MemberOr(req.body, "params", Obj([]));
      var toolName :- MemberOr(params, "name", Str(""));
      var arguments :- MemberOr(params, "arguments", Obj([]));
      var userQuery :- MemberOr(arguments, "query", Str(""));
      if !Truthy(userQuery) then Ok(PassRequest(headers, req.body))
      else
        var verdict :- AnalyzePrompt(userQuery, llm);
        if verdict.safe then Ok(PassRequest(headers, req.body))
        else Ok(BlockedResponse(verdict.reason, requestId))
  }

  /** The reason of the blocked response the `except` block builds. */
  function ErrorReason(message: string): string {
    "Interceptor error: " + Take(message, 100)
  }

  /**
   * `lambda_handler` as written: the `except` block reads `request_body.get('id', 'unknown')`,
   * so it raises again when `request_body` was never bound or is not a dictionary.
   */
  function Handler(event: Value, llm: Value -> LlmReply): Result<Value> {
    match ReadRequest(event)
    case Raised(_) => Raised(UnboundBody)
    case Ok(req) => Recover(req, Screen(req, llm))
  }

  /** The `except` block as written, given what the `try` block produced. */
  function Recover(req: Request, screened: Result<Value>): Result<Value> {
    match screened
    case Ok(answer) => Ok(answer)
    case Raised(message) =>
      var requestId :- MemberOr(req.body, "id", Str("unknown"));
      Ok(BlockedResponse(ErrorReason(message), requestId))
  }

  function Headers(req: Request): Value
    requires req.gateway.Obj?
  {
    GetOr(req.gateway.fields, "headers", Obj([]))
  }

  function RequestId(body: Value): Value
    requires body.Obj?
  {
    GetOr(body.fields, "id", Str("unknown"))
  }

  /** The `query` argument of a `tools/call` body whose lookups all succeed. */
  predicate ToolCallQuery(body: Value, query: Value) {
    body.Obj? && GetOr(body.fields, "method", Str("")) == Str("tools/call") &&
    GetOr(body.fields, "params", Obj([])).Obj? &&
    GetOr(GetOr(body.fields, "params", Obj([])).fields, "arguments", Obj([])).Obj? &&
    query == GetOr(GetOr(GetOr(body.fields, "params", Obj([])).fields, "arguments", Obj([])).fields, "query", Str(""))
  }

  /** A method other than `tools/call` passes through with headers and body unchanged. */
  lemma OtherMethodsPassThrough(event: Value, req: Request, llm: Value -> LlmReply)
    requires ReadRequest(event) == Ok(req) && req.body.Obj?
    requires GetOr(req.body.fields, "method", Str("")) != Str("tools/call")
    ensures Handler(event, llm) == Ok(PassRequest(Headers(req), req.body))
  {
  }

  /** A `tools/call` with a missing or empty `query` passes through, whatever the model would say. */
  lemma EmptyQueryPassesThrough(event: Value, req: Request, query: Value, llm: Value -> LlmReply)
    requires ReadRequest(event) == Ok(req) && ToolCallQuery(req.body, query)
    requires !Truthy(query)
    ensures Handler(event, llm) == Ok(PassRequest(Headers(req), req.body))
  {
  }

  /** A query the model judges safe passes the request through unchanged. */
  lemma SafeQueryPassesThrough(event: Value, req: Request, query: Value, llm: Value -> LlmReply)
    requires ReadRequest(event) == Ok(req) && ToolCallQuery(req.body, query)
    requires Truthy(query) && (query.Str? || query.Arr?)
    requires ParseVerdict(llm(query)).safe
    ensures Handler(event, llm) == Ok(PassRequest(Headers(req), req.body))
  {
  }

  /** Any other verdict blocks the request with the verdict's reason and the request's id. */
  lemma UnsafeQueryBlocked(event: Value, req: Request, query: Value, llm: Value -> LlmReply)
    requires ReadRequest(event) == Ok(req) && ToolCallQuery(req.body, query)
    requires Truthy(query) && (query.Str? || query.Arr?)
    requires !ParseVerdict(llm(query)).safe
    ensures Handler(event, llm) == Ok(BlockedResponse(ParseVerdict(llm(query)).reason, RequestId(req.body)))
  {
  }

  /** A query that is a non-zero number is blocked by the error of its preview slice, before the model is asked. */
  lemma NumericQueryBlocked(event: Value, req: Request, n: int, llm: Value -> LlmReply)
    requires ReadRequest(event) == Ok(req) && ToolCallQuery(req.body, Int(n)) && n != 0
    ensures Handler(event, llm) == Ok(BlockedResponse(ErrorReason(NotSubscriptable(Int(n))), RequestId(req.body)))
  {
  }

  /** Fail closed once the body is a dictionary: every exception becomes a blocked response. */
  lemma FailsClosedOnDictionaryBody(event: Value, req: Request, llm: Value -> LlmReply)
    requires ReadRequest(event) == Ok(req) && req.body.Obj?
    ensures Handler(event, llm).Ok?
    ensures Screen(req, llm).Raised? ==>
      Handler(event, llm) == Ok(BlockedResponse(ErrorReason(Screen(req, llm).message), RequestId(req.body)))
  {
  }

  /** A request whose body is a string: the handler raises instead of blocking. */
  lemma StringBodyEscapes(llm: Value -> LlmReply)
    ensures Handler(Obj([("mcp", Obj([("gatewayRequest", Obj([("body", Str("x"))]))]))]), llm) == Raised(NoGet(Str("x")))
  {
  }

  /** A fail-closed `except` block: the request id is "unknown" when the body is not a dictionary. */
  function FailClosedRecover(req: Request, screened: Result<Value>): (r: Result<Value>)
    ensures r.Ok?
  {
    match screened
    case Ok(answer) => Ok(answer)
    case Raised(message) =>
      Ok(BlockedResponse(ErrorReason(message), if req.body.Obj? then RequestId(req.body) else Str("unknown")))
  }

  /** The fail-closed `except` block agrees with the original one wherever that one answers, and blocks where it raises. */
  lemma RecoverRefines(req: Request, screened: Result<Value>)
    ensures Recover(req, screened).Ok? ==> FailClosedRecover(req, screened) == Recover(req, screened)
    ensures Recover(req, screened).Raised? ==>
      exists reason, id :: FailClosedRecover(req, screened) == Ok(BlockedResponse(reason, id))
  {
    if screened.Raised? && !req.body.Obj? {
      assert FailClosedRecover(req, screened) == Ok(BlockedResponse(ErrorReason(screened.message), Str("unknown")));
    }
  }

  /**
   * The handler with a fail-closed `except` block: the request id is taken from the body only
   * when the body was read and is a dictionary, and is "unknown" otherwise.
   */
  function FailClosedHandler(event: Value, llm: Value -> LlmReply): (r: Result<Value>)
    ensures r.Ok?
  {
    match ReadRequest(event)
    case Raised(message) => Ok(BlockedResponse(ErrorReason(message), Str("unknown")))
    case Ok(req) => FailClosedRecover(req, Screen(req, llm))
  }

  /** The corrected handler never raises and agrees with the original wherever the original answers. */
  lemma FailClosedHandlerRefines(event: Value, llm: Value -> LlmReply)
    ensures Handler(event, llm).Ok? ==> FailClosedHandler(event, llm) == Handler(event, llm)
    ensures Handler(event, llm).Raised? ==>
      exists reason, id :: FailClosedHandler(event, llm) == Ok(BlockedResponse(reason, id))
  {
    match ReadRequest(event)
    case Raised(message) =>
      assert FailClosedHandler(event, llm) == Ok(BlockedResponse(ErrorReason(message), Str("unknown")));
    case Ok(req) =>
      RecoverRefines(req, Screen(req, llm));
  }
}
