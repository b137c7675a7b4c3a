/**
 * The SQL injection REQUEST interceptor: every string inside the `arguments` of a `tools/call`
 * is normalised and matched against a fixed list of injection patterns; a hit, an over-long
 * string or an error blocks the request with a 403 JSON-RPC error, anything else passes through.
 *
 * Regular expressions are not interpreted here: `search(rule, text)` stands for the compiled
 * pattern of the rule (IGNORECASE, MULTILINE) finding a match in `text`.
 */
module SqlInterceptor {
  import opened Wrappers
  import opened Seqs
  import opened Text
  import opened PyDict
  import opened Json
  import opened Interceptors

  /** Longer argument strings are rejected without being matched. */
  const MaxStringLength := 10000

  /** The injection rules of the interceptor, one per pattern. */
  datatype Rule =
    | StackedQuery | CommentDash | CommentOpen | CommentClose | UnionSelect | UnionAllSelect
    | TautologyOr | TautologyAnd | TimeSleep | TimeWaitfor | TimeBenchmark

  /** The rules in the order they are tried. */
  const SqlInjectionRules: seq<Rule> := [
    StackedQuery, CommentDash, CommentOpen, CommentClose, UnionSelect, UnionAllSelect,
    TautologyOr, TautologyAnd, TimeSleep, TimeWaitfor, TimeBenchmark
  ]

  /**
   * `re.search(RegexSource(rule), text, re.IGNORECASE | re.MULTILINE) is not None` for a rule
   * whose pattern uses regular-expression syntax.
   */
  type Search = (Rule, string) -> bool

  /** The pattern of each rule, as the interceptor compiles it. */
  function RegexSource(rule: Rule): string {
    match rule
    case StackedQuery => @";[\s\n]*\b(SELECT|INSERT|UPDATE|DELETE|DROP|CREATE|ALTER|TRUNCATE|EXEC|EXECUTE)\b"
    case CommentDash => "--"
    case CommentOpen => @"/\*"
    case CommentClose => @"\*/"
    case UnionSelect => @"\bUNION\b[\s\n]+\bSELECT\b"
    case UnionAllSelect => @"\bUNION\b[\s\n]+\bALL\b[\s\n]+\bSELECT\b"
    case TautologyOr => @"\bOR\b[\s\n]+1[\s\n]*=[\s\n]*1"
    case TautologyAnd => @"\bAND\b[\s\n]+1[\s\n]*=[\s\n]*1"
    case TimeSleep => @"\bSLEEP\b[\s\n]*\("
    case TimeWaitfor => @"\bWAITFOR\b[\s\n]+\bDELAY\b"
    case TimeBenchmark => @"\bBENCHMARK\b[\s\n]*\("
  }

  /**
   * Whether a rule's pattern is found in the (normalised) text. The three patterns without
   * metacharacters (the double dash and the two block-comment markers) are plain substring
   * tests; the others are left to `search`.
   */
  predicate Matches(rule: Rule, text: string, search: Search) {
    match rule
    case CommentDash => Contains(text, "--")
    case CommentOpen => Contains(text, "/*")
    case CommentClose => Contains(text, "*/")
    case _ => search(rule, text)
  }

  function RuleId(rule: Rule): string {
    match rule
    case StackedQuery => "STACKED_QUERY"
    case CommentDash => "SQL_COMMENT_DASH"
    case CommentOpen => "SQL_COMMENT_OPEN"
    case CommentClose => "SQL_COMMENT_CLOSE"
    case UnionSelect => "UNION_SELECT"
    case UnionAllSelect => "UNION_ALL_SELECT"
    case TautologyOr => "TAUTOLOGY_OR"
    case TautologyAnd => "TAUTOLOGY_AND"
    case TimeSleep => "TIME_SLEEP"
    case TimeWaitfor => "TIME_WAITFOR"
    case TimeBenchmark => "TIME_BENCHMARK"
  }

  // ---------------------------------------------------------------- normalize_string

  /** `normalize_string`: every whitespace run becomes one space, then the text is lowercased. */
  function NormalizeString(s: string): string {
    Lower(CollapseSpaces(s))
  }

  /** A normalised string holds no whitespace run and no upper-case letter. */
  lemma NormalizeShape(s: string)
    ensures Collapsed(NormalizeString(s))
    ensures forall i :: 0 <= i < |NormalizeString(s)| ==> !IsAsciiUpper(NormalizeString(s)[i])
  {
    CollapseSpacesIsCollapsed(s);
    LowerKeepsCollapsed(CollapseSpaces(s));
  }

  /** Normalising twice is normalising once. */
  lemma NormalizeIdempotent(s: string)
    ensures NormalizeString(NormalizeString(s)) == NormalizeString(s)
  {
    var c := CollapseSpaces(s);
    CollapseSpacesIsCollapsed(s);
    LowerKeepsCollapsed(c);
    CollapsedFixpoint(Lower(c));
    LowerIdempotent(c);
  }

  // ------------------------------------------------------------- extract_all_strings

  /** The path of a dictionary member: `key` at the root, `path.key` below it. */
  function KeyPath(path: string, key: string): string {
    if path != "" then path + "." + key else key
  }

  /** The path of a list element: `path[i]`. */
  function IndexPath(path: string, i: nat): string {
    path + "[" + NatToString(i) + "]"
  }

  /** `extract_all_strings(v, path)`: every string inside `v` with the path that leads to it. */
  function ExtractAllStrings(v: Value, path: string): seq<(string, string)>
    decreases v
  {
    match v
    case Obj(fields) =>
      Concat(seq(|fields|, i requires 0 <= i < |fields| => ExtractAllStrings(fields[i].1, KeyPath(path, fields[i].0))))
    case Arr(items) =>
      Concat(seq(|items|, i requires 0 <= i < |items| => ExtractAllStrings(items[i], IndexPath(path, i))))
    case Str(s) => [(path, s)]
    case _ => []
  }

  function Strings(found: seq<(string, string)>): seq<string> {
    Map(found, (e: (string, string)) => e.1)
  }

  /** The extracted strings are exactly the string leaves of `v`, in order; numbers, booleans and null add nothing. */
  lemma {:induction false} ExtractedStringsAreLeaves(v: Value, path: string)
    ensures Strings(ExtractAllStrings(v, path)) == Leaves(v)
    decreases v
  {
    var f := (e: (string, string)) => e.1;
    match v
    case Obj(fields) =>
      var parts := seq(|fields|, i requires 0 <= i < |fields| => ExtractAllStrings(fields[i].1, KeyPath(path, fields[i].0)));
      ConcatMap(parts, f);
      forall i | 0 <= i < |fields|
        ensures Map(parts[i], f) == Leaves(fields[i].1)
      {
        ExtractedStringsAreLeaves(fields[i].1, KeyPath(path, fields[i].0));
      }
      assert seq(|parts|, i requires 0 <= i < |parts| => Map(parts[i], f)) ==
             seq(|fields|, i requires 0 <= i < |fields| => Leaves(fields[i].1));
    case Arr(items) =>
      var parts := seq(|items|, i requires 0 <= i < |items| => ExtractAllStrings(items[i], IndexPath(path, i)));
      ConcatMap(parts, f);
      forall i | 0 <= i < |items|
        ensures Map(parts[i], f) == Leaves(items[i])
      {
        ExtractedStringsAreLeaves(items[i], IndexPath(path, i));
      }
      assert seq(|parts|, i requires 0 <= i < |parts| => Map(parts[i], f)) ==
             seq(|items|, i requires 0 <= i < |items| => Leaves(items[i]));
    case Str(s) =>
    case Null =>
    case Bool(_) =>
    case Int(_) =>
    case Float(_) =>
  }

  /** Every extracted path extends the path it was extracted under. */
  lemma {:induction false} ExtractedPathsExtend(v: Value, path: string, e: (string, string))
    requires e in ExtractAllStrings(v, path)
    ensures path <= e.0
    decreases v
  {
    match v
    case Obj(fields) =>
      var parts := seq(|fields|, i requires 0 <= i < |fields| => ExtractAllStrings(fields[i].1, KeyPath(path, fields[i].0)));
      InConcat(parts, e);
      var i :| 0 <= i < |parts| && e in parts[i];
      ExtractedPathsExtend(fields[i].1, KeyPath(path, fields[i].0), e);
    case Arr(items) =>
      var parts := seq(|items|, i requires 0 <= i < |items| => ExtractAllStrings(items[i], IndexPath(path, i)));
      InConcat(parts, e);
      var i :| 0 <= i < |parts| && e in parts[i];
      ExtractedPathsExtend(items[i], IndexPath(path, i), e);
    case Str(s) =>
  }

  /** A string member of a dictionary is found under `key` at the root (no leading dot) and `path.key` below. */
  lemma MemberStringPath(fields: Dict<Value>, path: string, i: nat, s: string)
    requires i < |fields| && fields[i].1 == Str(s)
    ensures (KeyPath(path, fields[i].0), s) in ExtractAllStrings(Obj(fields), path)
    ensures path == "" ==> (fields[i].0, s) in ExtractAllStrings(Obj(fields), path)
  {
    var parts := seq(|fields|, i requires 0 <= i < |fields| => ExtractAllStrings(fields[i].1, KeyPath(path, fields[i].0)));
    ConcatHas(parts, i, (KeyPath(path, fields[i].0), s));
  }

  /** A string element of a list is found under `path[i]`. */
  lemma ItemStringPath(items: seq<Value>, path: string, i: nat, s: string)
    requires i < |items| && items[i] == Str(s)
    ensures (path + "[" + NatToString(i) + "]", s) in ExtractAllStrings(Arr(items), path)
  {
    var parts := seq(|items|, i requires 0 <= i < |items| => ExtractAllStrings(items[i], IndexPath(path, i)));
    ConcatHas(parts, i, (IndexPath(path, i), s));
  }

  // ------------------------------------------------------------- detect_sql_injection

  datatype Detection = Detection(malicious: bool, ruleId: string, category: string)

  const NotDetected := Detection(false, "", "")

  /** What `detect_sql_injection` returns for `value`. */
  function Detect(value: string, search: Search): (d: Detection)
    ensures value == "" ==> d == NotDetected
    ensures |value| > MaxStringLength ==> d == Detection(true, "STRING_TOO_LONG", "INVALID_INPUT")
    ensures !d.malicious ==> d == NotDetected
  {
    if value == "" then NotDetected
    else if |value| > MaxStringLength then Detection(true, "STRING_TOO_LONG", "INVALID_INPUT")
    else
      var normalized := NormalizeString(value);
      match FirstMatch(SqlInjectionRules, normalized, search)
      case Some(j) => Detection(true, RuleId(SqlInjectionRules[j]), "SQL_INJECTION_DETECTED")
      case None => NotDetected
  }

  /** The index of the first of `rules` whose pattern is found in `text`. */
  function FirstMatch(rules: seq<Rule>, text: string, search: Search): (r: Option<nat>)
    ensures r.Some? ==> r.value < |rules| && Matches(rules[r.value], text, search)
    ensures r.Some? ==> forall k :: 0 <= k < r.value ==> !Matches(rules[k], text, search)
    ensures r.None? ==> forall k :: 0 <= k < |rules| ==> !Matches(rules[k], text, search)
  {
    if rules == [] then None
    else if Matches(rules[0], text, search) then Some(0)
    else match FirstMatch(rules[1..], text, search)
      case None => None
      case Some(k) => Some(k + 1)
  }

  /** The first matching rule is the one `FirstMatch` finds. */
  lemma FirstMatchAt(rules: seq<Rule>, text: string, search: Search, j: nat)
    requires j < |rules| && Matches(rules[j], text, search)
    requires forall k :: 0 <= k < j ==> !Matches(rules[k], text, search)
    ensures FirstMatch(rules, text, search) == Some(j)
  {
    match FirstMatch(rules, text, search)
    case Some(i) =>
      if i < j { assert false; }
      if j < i { assert false; }
    case None =>
      assert false;
  }

  /** `pattern` is the first of the list to match `text`. */
  predicate FirstPattern(text: string, j: int, search: Search) {
    0 <= j < |SqlInjectionRules| && Matches(SqlInjectionRules[j], text, search) &&
    forall k :: 0 <= k < j ==> !Matches(SqlInjectionRules[k], text, search)
  }

  /**
   * A string of acceptable length is detected exactly when some pattern matches its normal form,
   * and then the first such pattern names the rule.
   */
  lemma DetectFirstPattern(value: string, search: Search)
    requires 0 < |value| <= MaxStringLength
    ensures var d := Detect(value, search);
      d.malicious <==> exists j :: 0 <= j < |SqlInjectionRules| && Matches(SqlInjectionRules[j], NormalizeString(value), search)
    ensures var d := Detect(value, search);
      d.malicious ==>
        d.category == "SQL_INJECTION_DETECTED" &&
        exists j :: FirstPattern(NormalizeString(value), j, search) && d.ruleId == RuleId(SqlInjectionRules[j])
  {
    var normalized := NormalizeString(value);
    match FirstMatch(SqlInjectionRules, normalized, search)
    case Some(j) =>
      assert FirstPattern(normalized, j, search);
    case None =>
  }

  /** `detect_sql_injection`: the length check, then the patterns in order until one matches. */
  method DetectSqlInjection(value: string, search: Search) returns (d: Detection)
    ensures d == Detect(value, search)
  {
    if value == "" {
      return NotDetected;
    }
    if |value| > MaxStringLength {
      return Detection(true, "STRING_TOO_LONG", "INVALID_INPUT");
    }
    var normalized := NormalizeString(value);
    for j := 0 to |SqlInjectionRules|
      invariant forall k :: 0 <= k < j ==> !Matches(SqlInjectionRules[k], normalized, search)
    {
      if Matches(SqlInjectionRules[j], normalized, search) {
        FirstMatchAt(SqlInjectionRules, normalized, search, j);
        return Detection(true, RuleId(SqlInjectionRules[j]), "SQL_INJECTION_DETECTED");
      }
    }
    return NotDetected;
  }

  // ---------------------------------------------- analyze_arguments_for_sql_injection

  datatype Analysis = Analysis(safe: bool, ruleId: string, category: string)

  /** `found[i]` is detected and no string before it is. */
  predicate FirstOffending(found: seq<(string, string)>, i: int, search: Search) {
    0 <= i < |found| && Detect(found[i].1, search).malicious && NoneOffending(found, i, search)
  }

  /** None of the first `n` strings is detected. */
  predicate NoneOffending(found: seq<(string, string)>, n: int, search: Search)
    requires n <= |found|
  {
    forall k :: 0 <= k < n ==> !Detect(found[k].1, search).malicious
  }

  /** Which strings of `found` are detected, position by position. */
  function Flags(found: seq<(string, string)>, search: Search): (f: seq<bool>)
    ensures |f| == |found| && forall k :: 0 <= k < |found| ==> f[k] == Detect(found[k].1, search).malicious
  {
    seq(|found|, k requires 0 <= k < |found| => Detect(found[k].1, search).malicious)
  }

  /** The index of the first set flag. */
  function FirstSet(flags: seq<bool>): (r: Option<nat>)
    ensures r.Some? ==> r.value < |flags| && flags[r.value] && forall k :: 0 <= k < r.value ==> !flags[k]
    ensures r.None? ==> forall k :: 0 <= k < |flags| ==> !flags[k]
  {
    if flags == [] then None
    else if flags[0] then Some(0)
    else match FirstSet(flags[1..])
      case None => None
      case Some(k) => Some(k + 1)
  }

  /** There is at most one first offending string. */
  lemma FirstOffendingUnique(found: seq<(string, string)>, i: int, j: int, search: Search)
    requires FirstOffending(found, i, search) && FirstOffending(found, j, search)
    ensures i == j
  {
    if i < j { assert false; }
    if j < i { assert false; }
  }

  /** What `analyze_arguments_for_sql_injection` returns for `arguments`. */
  function Analyze(arguments: Value, search: Search): (a: Analysis)
    ensures var found := ExtractAllStrings(arguments, "");
      a.safe <==> forall e :: e in found ==> !Detect(e.1, search).malicious
    ensures a.safe ==> a == Analysis(true, "", "")
  {
    var found := ExtractAllStrings(arguments, "");
    match FirstSet(Flags(found, search))
    case None => Analysis(true, "", "")
    case Some(i) =>
      var d := Detect(found[i].1, search);
      Analysis(false, d.ruleId, d.category)
  }

  /** When unsafe, the rule and category reported are those of the first offending string in extraction order. */
  lemma AnalyzeReportsFirstOffending(arguments: Value, search: Search, i: nat)
    requires FirstOffending(ExtractAllStrings(arguments, ""), i, search)
    ensures var d := Detect(ExtractAllStrings(arguments, "")[i].1, search);
      Analyze(arguments, search) == Analysis(false, d.ruleId, d.category)
  {
    var found := ExtractAllStrings(arguments, "");
    match FirstSet(Flags(found, search))
    case Some(j) =>
      FirstOffendingUnique(found, i, j, search);
    case None =>
      assert false;
  }

  /** The arguments are safe exactly when none of their string leaves is detected. */
  lemma SafeIffNoLeafDetected(arguments: Value, search: Search)
    ensures Analyze(arguments, search).safe <==> forall s :: s in Leaves(arguments) ==> !Detect(s, search).malicious
  {
    var found := ExtractAllStrings(arguments, "");
    ExtractedStringsAreLeaves(arguments, "");
    assert Strings(found) == Leaves(arguments);
    forall s | s in Leaves(arguments)
      ensures exists e :: e in found && e.1 == s
    {
      var i :| 0 <= i < |Strings(found)| && Strings(found)[i] == s;
      assert found[i] in found;
    }
    forall e | e in found
      ensures e.1 in Leaves(arguments)
    {
      var i :| 0 <= i < |found| && found[i] == e;
      assert Strings(found)[i] == e.1;
    }
  }

  /** `analyze_arguments_for_sql_injection`: the extracted strings are checked in order until one is detected. */
  method AnalyzeArgumentsForSqlInjection(arguments: Value, search: Search) returns (a: Analysis)
    ensures a == Analyze(arguments, search)
  {
    var found := ExtractAllStrings(arguments, "");
    if found == [] {
      return Analysis(true, "", "");
    }
    for i := 0 to |found|
      invariant NoneOffending(found, i, search)
    {
      var d := DetectSqlInjection(found[i].1, search);
      if d.malicious {
        AnalyzeReportsFirstOffending(arguments, search, i);
        return Analysis(false, d.ruleId, d.category);
      }
      assert NoneOffending(found, i + 1, search);
    }
    return Analysis(true, "", "");
  }

  // ------------------------------------------------------------------- lambda_handler

  /** `create_blocked_response`: a 403 gateway response carrying a JSON-RPC error. */
  function BlockedResponse(category: string, requestId: Value): Value {
    Obj([("interceptorOutputVersion", Str("1.0")),
         ("mcp", Obj([("transformedGatewayResponse", Obj([
           ("statusCode", Int(403)),
           ("headers", BlockedHeaders),
           ("body", RpcError(requestId, "Request blocked by security policy",
                             Obj([("category", Str(category)), ("security_policy", Str("sql_injection_prevention"))])))]))]))])
  }

  /** The strings of the JSON-RPC error a blocked response carries, in order. */
  lemma BlockedBodyLeaves(category: string, requestId: Value)
    ensures Leaves(RpcError(requestId, "Request blocked by security policy",
                            Obj([("category", Str(category)), ("security_policy", Str("sql_injection_prevention"))]))) ==
      ["2.0"] + Leaves(requestId) + ["Request blocked by security policy", category, "sql_injection_prevention"]
  {
    var data := Obj([("category", Str(category)), ("security_policy", Str("sql_injection_prevention"))]);
    var error := Obj([("code", Int(-32000)), ("message", Str("Request blocked by security policy")), ("data", data)]);
    LeavesObj2("category", Str(category), "security_policy", Str("sql_injection_prevention"));
    LeavesObj3("code", Int(-32000), "message", Str("Request blocked by security policy"), "data", data);
    LeavesObj3("jsonrpc", Str("2.0"), "id", requestId, "error", error);
    var tail := ["Request blocked by security policy", category, "sql_injection_prevention"];
    assert Leaves(error) == tail;
    AppendAssoc(["2.0"], Leaves(requestId), tail);
  }

  /** The strings of the gateway response a block returns: its headers, then its JSON-RPC error. */
  lemma BlockedGatewayLeaves(category: string, requestId: Value)
    ensures Leaves(Obj([("statusCode", Int(403)), ("headers", BlockedHeaders),
                        ("body", RpcError(requestId, "Request blocked by security policy",
                                          Obj([("category", Str(category)), ("security_policy", Str("sql_injection_prevention"))])))])) ==
      ["application/json", "BLOCKED", "2.0"] + Leaves(requestId) +
      ["Request blocked by security policy", category, "sql_injection_prevention"]
  {
    var body := RpcError(requestId, "Request blocked by security policy",
                         Obj([("category", Str(category)), ("security_policy", Str("sql_injection_prevention"))]));
    BlockedBodyLeaves(category, requestId);
    LeavesObj2("Content-Type", Str("application/json"), "X-Security-Status", Str("BLOCKED"));
    LeavesObj3("statusCode", Int(403), "headers", BlockedHeaders, "body", body);
    var id, tail := Leaves(requestId), ["Request blocked by security policy", category, "sql_injection_prevention"];
    AppendAssoc(["application/json", "BLOCKED"], ["2.0"] + id, tail);
    AppendAssoc(["application/json", "BLOCKED"], ["2.0"], id);
  }

  /** The only strings a blocked response carries are fixed text, the echoed id and the category: never an argument. */
  lemma BlockedResponseLeaves(category: string, requestId: Value)
    ensures Leaves(BlockedResponse(category, requestId)) ==
      ["1.0", "application/json", "BLOCKED", "2.0"] + Leaves(requestId) +
      ["Request blocked by security policy", category, "sql_injection_prevention"]
  {
    var body := RpcError(requestId, "Request blocked by security policy",
                         Obj([("category", Str(category)), ("security_policy", Str("sql_injection_prevention"))]));
    var response := Obj([("statusCode", Int(403)), ("headers", BlockedHeaders), ("body", body)]);
    BlockedGatewayLeaves(category, requestId);
    LeavesObj([("transformedGatewayResponse", response)]);
    LeavesObj2("interceptorOutputVersion", Str("1.0"), "mcp", Obj([("transformedGatewayResponse", response)]));
    var id, tail := Leaves(requestId), ["Request blocked by security policy", category, "sql_injection_prevention"];
    AppendAssoc(["1.0"], ["application/json", "BLOCKED", "2.0"] + id, tail);
    AppendAssoc(["1.0"], ["application/json", "BLOCKED", "2.0"], id);
  }

  /** The request passed on unchanged: the gateway request's headers and the body as received. */
  function PassThrough(req: Request): Result<Value> {
    var headers :- MemberOr(req.gateway, "headers", Obj([]));
    Ok(PassRequest(headers, req.body))
  }

  /** The body of the `try` block once `request_body` is bound. */
  function Screen(req: Request, strict: bool, search: Search): Result<Value> {
    var rpcMethod :- MemberOr(req.body, "method", Str(""));
    var requestId :- MemberOr(req.body, "id", Str("unknown"));
    if rpcMethod != Str("tools/call") then PassThrough(req)
    else
      var params :- MemberOr(req.body, "params", Obj([]));
      var toolName :- MemberOr(params, "name", Str(""));
      var arguments :- MemberOr(params, "arguments", Obj([]));
      var rawSql :- if strict then RawSqlField(arguments) else Ok(false);
      if rawSql then Ok(BlockedResponse("RAW_SQL_NOT_ALLOWED", requestId))
      else
        var a := Analyze(arguments, search);
        if a.safe then PassThrough(req) else Ok(BlockedResponse(a.category, requestId))
  }

  /** `'query' in arguments or 'sql' in arguments`, evaluated left to right. */
  function RawSqlField(arguments: Value): Result<bool> {
    var query :- In("query", arguments);
    if query then Ok(true) else In("sql", arguments)
  }

  /**
   * `lambda_handler` as written: an exception anywhere in the `try` block is answered by the
   * `except` block, which itself reads `request_body.get('id', 'unknown')` and so raises again
   * when `request_body` was never bound or is not a dictionary.
   */
  function Handler(event: Value, strict: bool, search: Search): Result<Value> {
    match ReadRequest(event)
    case Raised(_) => Raised(UnboundBody)
    case Ok(req) => Recover(req, Screen(req, strict, search))
  }

  /** The `except` block as written, given what the `try` block produced. */
  function Recover(req: Request, screened: Result<Value>): Result<Value> {
    match screened
    case Ok(answer) => Ok(answer)
    case Raised(_) =>
      var requestId :- MemberOr(req.body, "id", Str("unknown"));
      Ok(BlockedResponse("INTERCEPTOR_ERROR", requestId))
  }

  /** Id and arguments of a `tools/call` body whose lookups all succeed. */
  predicate ToolCall(body: Value, arguments: Value) {
    body.Obj? && GetOr(body.fields, "method", Str("")) == Str("tools/call") &&
    GetOr(body.fields, "params", Obj([])).Obj? &&
    arguments == GetOr(GetOr(body.fields, "params", Obj([])).fields, "arguments", Obj([]))
  }

  function RequestId(body: Value): Value
    requires body.Obj?
  {
    GetOr(body.fields, "id", Str("unknown"))
  }

  /** A method other than `tools/call` passes headers and body through unchanged. */
  lemma OtherMethodsPassThrough(event: Value, req: Request, strict: bool, search: Search)
    requires ReadRequest(event) == Ok(req) && req.body.Obj?
    requires GetOr(req.body.fields, "method", Str("")) != Str("tools/call")
    ensures Handler(event, strict, search) == Ok(PassRequest(GetOr(req.gateway.fields, "headers", Obj([])), req.body))
  {
  }

  /** A `tools/call` whose arguments are safe passes through unchanged (with STRICT_MODE off, as deployed). */
  lemma SafeToolCallPassesThrough(event: Value, req: Request, arguments: Value, search: Search)
    requires ReadRequest(event) == Ok(req) && ToolCall(req.body, arguments)
    requires Analyze(arguments, search).safe
    ensures Handler(event, false, search) == Ok(PassRequest(GetOr(req.gateway.fields, "headers", Obj([])), req.body))
  {
  }

  /** An unsafe `tools/call` is blocked with the category of the first offending string and the request's id. */
  lemma UnsafeToolCallBlocked(event: Value, req: Request, arguments: Value, search: Search)
    requires ReadRequest(event) == Ok(req) && ToolCall(req.body, arguments)
    requires !Analyze(arguments, search).safe
    ensures Handler(event, false, search) == Ok(BlockedResponse(Analyze(arguments, search).category, RequestId(req.body)))
  {
  }

  /** With STRICT_MODE on, arguments holding a `query` or `sql` key are blocked before any analysis. */
  lemma StrictModeBlocksRawSql(event: Value, req: Request, arguments: Value, search: Search)
    requires ReadRequest(event) == Ok(req) && ToolCall(req.body, arguments)
    requires arguments.Obj? && (HasKey(arguments.fields, "query") || HasKey(arguments.fields, "sql"))
    ensures Handler(event, true, search) == Ok(BlockedResponse("RAW_SQL_NOT_ALLOWED", RequestId(req.body)))
  {
  }

  /**
   * Fail closed once the body is a dictionary: the handler always answers, and any exception
   * becomes the INTERCEPTOR_ERROR blocked response.
   */
  lemma FailsClosedOnDictionaryBody(event: Value, req: Request, strict: bool, search: Search)
    requires ReadRequest(event) == Ok(req) && req.body.Obj?
    ensures Handler(event, strict, search).Ok?
    ensures Screen(req, strict, search).Raised? ==>
      Handler(event, strict, search) == Ok(BlockedResponse("INTERCEPTOR_ERROR", RequestId(req.body)))
  {
  }

  /** A request whose body is a string: the handler raises instead of blocking. */
  lemma StringBodyEscapes(search: Search)
    ensures Handler(Obj([("mcp", Obj([("gatewayRequest", Obj([("body", Str("x"))]))]))]), false, search)
      == Raised(NoGet(Str("x")))
  {
  }

  /** An event whose `mcp` member is not a dictionary: the `except` block finds `request_body` unbound. */
  lemma UnreadableRequestEscapes(search: Search)
    ensures Handler(Obj([("mcp", Null)]), false, search) == Raised(UnboundBody)
  {
  }

  /** A fail-closed `except` block: the request id is "unknown" when the body is not a dictionary. */
  function FailClosedRecover(req: Request, screened: Result<Value>): (r: Result<Value>)
    ensures r.Ok?
  {
    match screened
    case Ok(answer) => Ok(answer)
    case Raised(_) =>
      Ok(BlockedResponse("INTERCEPTOR_ERROR", if req.body.Obj? then RequestId(req.body) else Str("unknown")))
  }

  /** The fail-closed `except` block agrees with the original one wherever that one answers, and blocks where it raises. */
  lemma RecoverRefines(req: Request, screened: Result<Value>)
    ensures Recover(req, screened).Ok? ==> FailClosedRecover(req, screened) == Recover(req, screened)
    ensures Recover(req, screened).Raised? ==>
      exists id :: FailClosedRecover(req, screened) == Ok(BlockedResponse("INTERCEPTOR_ERROR", id))
  {
    if screened.Raised? && !req.body.Obj? {
      assert FailClosedRecover(req, screened) == Ok(BlockedResponse("INTERCEPTOR_ERROR", Str("unknown")));
    }
  }

  /**
   * The handler with a fail-closed `except` block: the request id is taken from the body only
   * when the body was read and is a dictionary, and is "unknown" otherwise.
   */
  function FailClosedHandler(event: Value, strict: bool, search: Search): (r: Result<Value>)
    ensures r.Ok?
  {
    match ReadRequest(event)
    case Raised(_) => Ok(BlockedResponse("INTERCEPTOR_ERROR", Str("unknown")))
    case Ok(req) => FailClosedRecover(req, Screen(req, strict, search))
  }

  /**
   * The corrected handler never raises, agrees with the original wherever the original answers,
   * and blocks with INTERCEPTOR_ERROR wherever the original raises.
   */
  lemma FailClosedHandlerRefines(event: Value, strict: bool, search: Search)
    ensures Handler(event, strict, search).Ok? ==> FailClosedHandler(event, strict, search) == Handler(event, strict, search)
    ensures Handler(event, strict, search).Raised? ==>
      exists id :: FailClosedHandler(event, strict, search) == Ok(BlockedResponse("INTERCEPTOR_ERROR", id))
  {
    match ReadRequest(event)
    case Raised(_) =>
      assert FailClosedHandler(event, strict, search) == Ok(BlockedResponse("INTERCEPTOR_ERROR", Str("unknown")));
    case Ok(req) =>
      RecoverRefines(req, Screen(req, strict, search));
  }
}
