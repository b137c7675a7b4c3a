/**
 * The three demo MCP tool Lambdas behind the gateway (user details, inventory, weather). Each
 * reads the gateway's custom client context, strips the target prefix from the tool name and
 * answers the tool it recognises with a fixed message; any other tool gets None.
 */
module McpTools {
  import opened Wrappers
  import opened PyDict
  import opened Json
  import opened JsonText
  import opened Text

  /** What separates the target name from the tool name in the name the gateway shows. */
  const Delimiter := "___"

  /** The message of the ValueError `str.index` raises when the substring is absent. */
  const SubstringNotFound := "substring not found"

  /** `name[name.index("___") + len("___"):]`: what follows the first delimiter. */
  function StripTarget(name: string): (r: Result<string>)
    ensures r.Ok? <==> Contains(name, Delimiter)
    ensures r.Raised? ==> r.message == SubstringNotFound
    ensures r.Ok? ==> exists i :: FindFirst(name, Delimiter) == Some(i) && name == name[..i] + Delimiter + r.value
  {
    match FindFirst(name, Delimiter)
    case None => Raised(SubstringNotFound)
    case Some(i) =>
      assert name == name[..i] + Delimiter + name[i + |Delimiter|..];
      Ok(name[i + |Delimiter|..])
  }

  /** The context of one invocation: the stripped tool name and the target id. */
  datatype Invocation = Invocation(tool: string, targetId: string)

  /** The message of the AttributeError raised when `context.client_context` is None. */
  const NoClientContext := "'NoneType' object has no attribute 'custom'"

  /**
   * Lines 9-17 of each handler: `context.client_context` (None when the caller sent no client
   * context) is dereferenced first; then the tool name is read and stripped, then the four other
   * `bedrockAgentCore*` keys and the target id, each `custom[key]` raising KeyError when missing.
   */
  function ReadContext(clientContext: Option<Dict<string>>): (r: Result<Invocation>) {
    var custom :- if clientContext.Some? then Ok(clientContext.value) else Raised(NoClientContext);
    var original :- Index(custom, "bedrockAgentCoreToolName");
    var tool :- StripTarget(original);
    var _ :- Index(custom, "bedrockAgentCoreMessageVersion");
    var _ :- Index(custom, "bedrockAgentCoreAwsRequestId");
    var _ :- Index(custom, "bedrockAgentCoreMcpMessageId");
    var _ :- Index(custom, "bedrockAgentCoreGatewayId");
    var targetId :- Index(custom, "bedrockAgentCoreTargetId");
    Ok(Invocation(tool, targetId))
  }

  /** The five keys read after the tool name, in reading order. */
  const OtherKeys := ["bedrockAgentCoreMessageVersion", "bedrockAgentCoreAwsRequestId",
                      "bedrockAgentCoreMcpMessageId", "bedrockAgentCoreGatewayId", "bedrockAgentCoreTargetId"]

  /** Every one of the five keys read after the tool name is present. */
  predicate HasOtherKeys(custom: Dict<string>) {
    forall i :: 0 <= i < |OtherKeys| ==> HasKey(custom, OtherKeys[i])
  }

  // user_details_lambda.py

  /** The reply of `get_user_email`. */
  function EmailReply(userId: string): string {
    "User email for user " + userId + " retrieved! Email: john.doe@example.com"
  }

  /** The reply of `get_user_cc_number`. */
  function CardReply(userId: string): string {
    "User credit card number for user " + userId + " retrieved! CC Number: 1234-5678-9012-3456"
  }

  /** `event.get(key, default)`, printed; AttributeError when the event is not a dictionary. */
  function ArgumentOr(event: Value, key: string, default: string): Result<string> {
    if event.Obj? then Ok(PyStr(GetOr(event.fields, key, Str(default)))) else Raised(NoGet(event))
  }

  /** The user-details handler: the reply, None for an unknown tool, or the exception raised. */
  function UserDetails(event: Value, clientContext: Option<Dict<string>>): Result<Option<string>> {
    var call :- ReadContext(clientContext);
    if call.tool == "get_user_email" then
      var userId :- ArgumentOr(event, "userId", call.targetId);
      Ok(Some(EmailReply(userId)))
    else if call.tool == "get_user_cc_number" then
      var userId :- ArgumentOr(event, "userId", call.targetId);
      Ok(Some(CardReply(userId)))
    else Ok(None)
  }

  // inventory_lambda.py

  /** The reply of `get_inventory`. */
  function InventoryReply(productId: string): string {
    "Inventory information for product " + productId + " retrieved! It is in stock and ready to ship."
  }

  /** The inventory handler. */
  function Inventory(event: Value, clientContext: Option<Dict<string>>): Result<Option<string>> {
    var call :- ReadContext(clientContext);
    if call.tool == "get_inventory" then
      var productId :- ArgumentOr(event, "productId", call.targetId);
      Ok(Some(InventoryReply(productId)))
    else Ok(None)
  }

  // weather_lambda.py

  /** The reply of `get_weather`, spelling included. */
  function WeatherReply(timezone: string): string {
    "It is vey sunny today in " + timezone + "!"
  }

  /** The weather handler: the timezone argument defaults to `unknown`, not to the target id. */
  function Weather(event: Value, clientContext: Option<Dict<string>>): Result<Option<string>> {
    var call :- ReadContext(clientContext);
    if call.tool == "get_weather" then
      var timezone :- ArgumentOr(event, "timezone", "unknown");
      Ok(Some(WeatherReply(timezone)))
    else Ok(None)
  }

  // Properties

  /** With a target name free of `_`, the first delimiter is the one after it, so the tool keeps any later `___`. */
  lemma StripTargetPrefix(target: string, tool: string)
    requires '_' !in target
    ensures StripTarget(target + Delimiter + tool) == Ok(tool)
  {
    var name := target + Delimiter + tool;
    assert OccursAt(name, Delimiter, |target|) by {
      assert name[|target|..|target| + |Delimiter|] == Delimiter;
    }
    forall j | 0 <= j < |target|
      ensures !OccursAt(name, Delimiter, j)
    {
      assert name[j] == target[j] != '_';
      assert j + |Delimiter| <= |name| ==> name[j..j + |Delimiter|][0] == name[j];
    }
    assert name[|target| + |Delimiter|..] == tool;
  }

  /**
   * The context is read without error exactly when a client context was sent, its tool name is
   * present and holds the delimiter and the five other keys are present; the target id is then
   * the one given.
   */
  lemma ContextIff(clientContext: Option<Dict<string>>)
    ensures ReadContext(clientContext).Ok? <==>
      && clientContext.Some?
      && HasKey(clientContext.value, "bedrockAgentCoreToolName")
      && Contains(Get(clientContext.value, "bedrockAgentCoreToolName").value, Delimiter)
      && HasOtherKeys(clientContext.value)
    ensures ReadContext(clientContext).Ok? ==>
      && Ok(ReadContext(clientContext).value.tool) == StripTarget(Get(clientContext.value, "bedrockAgentCoreToolName").value)
      && Some(ReadContext(clientContext).value.targetId) == Get(clientContext.value, "bedrockAgentCoreTargetId")
  {
    if clientContext.Some? {
      var custom := clientContext.value;
      if HasOtherKeys(custom) {
        assert HasKey(custom, OtherKeys[0]) && HasKey(custom, OtherKeys[1]) && HasKey(custom, OtherKeys[2]);
        assert HasKey(custom, OtherKeys[3]) && HasKey(custom, OtherKeys[4]);
      } else {
        var i :| 0 <= i < |OtherKeys| && !HasKey(custom, OtherKeys[i]);
        assert ReadContext(clientContext).Raised?;
      }
    }
  }

  /** An invocation without a client context raises AttributeError before any key is read. */
  lemma MissingClientContextRaises()
    ensures ReadContext(None) == Raised(NoClientContext)
  {
  }

  /** A missing tool name raises KeyError for it before anything else is read. */
  lemma MissingToolNameRaises(custom: Dict<string>)
    requires !HasKey(custom, "bedrockAgentCoreToolName")
    ensures ReadContext(Some(custom)) == Raised(KeyErrorMessage("bedrockAgentCoreToolName"))
  {
  }

  /** A tool name without the delimiter raises ValueError, whatever else is missing. */
  lemma UndelimitedToolNameRaises(custom: Dict<string>)
    requires HasKey(custom, "bedrockAgentCoreToolName")
    requires !Contains(Get(custom, "bedrockAgentCoreToolName").value, Delimiter)
    ensures ReadContext(Some(custom)) == Raised(SubstringNotFound)
  {
  }

  /**
   * A context that cannot be read makes all three handlers raise its error, whatever the events;
   * with dictionary events, that is the only way a handler raises.
   */
  lemma HandlersFailAlike(event1: Value, event2: Value, event3: Value, clientContext: Option<Dict<string>>)
    ensures event1.Obj? ==> (UserDetails(event1, clientContext).Raised? <==> ReadContext(clientContext).Raised?)
    ensures event2.Obj? ==> (Inventory(event2, clientContext).Raised? <==> ReadContext(clientContext).Raised?)
    ensures event3.Obj? ==> (Weather(event3, clientContext).Raised? <==> ReadContext(clientContext).Raised?)
    ensures ReadContext(clientContext).Raised? ==>
      && UserDetails(event1, clientContext) == Inventory(event2, clientContext) == Weather(event3, clientContext)
      && UserDetails(event1, clientContext) == Raised(ReadContext(clientContext).message)
  {
  }

  /**
   * A recognised tool whose event is not a dictionary raises AttributeError at `event.get`;
   * an unrecognised tool never reads the event.
   */
  lemma NonDictionaryEventRaises(event: Value, clientContext: Option<Dict<string>>)
    requires ReadContext(clientContext).Ok? && !event.Obj?
    ensures var tool := ReadContext(clientContext).value.tool;
      && UserDetails(event, clientContext) ==
           (if tool == "get_user_email" || tool == "get_user_cc_number" then Raised(NoGet(event)) else Ok(None))
      && Inventory(event, clientContext) == (if tool == "get_inventory" then Raised(NoGet(event)) else Ok(None))
      && Weather(event, clientContext) == (if tool == "get_weather" then Raised(NoGet(event)) else Ok(None))
  {
  }

  /**
   * The user-details tools name the `userId` argument, or the target id when there is none;
   * any other tool gets None.
   */
  lemma UserDetailsReplies(fields: Dict<Value>, clientContext: Option<Dict<string>>)
    requires ReadContext(clientContext).Ok?
    ensures var call := ReadContext(clientContext).value;
      var event := Obj(fields);
      var userId := if HasKey(fields, "userId") then PyStr(Get(fields, "userId").value) else call.targetId;
      && (call.tool == "get_user_email" ==> UserDetails(event, clientContext) == Ok(Some(EmailReply(userId))))
      && (call.tool == "get_user_cc_number" ==> UserDetails(event, clientContext) == Ok(Some(CardReply(userId))))
      && (call.tool != "get_user_email" && call.tool != "get_user_cc_number" ==> UserDetails(event, clientContext) == Ok(None))
  {
  }

  /** `get_inventory` names the `productId` argument, or the target id; any other tool gets None. */
  lemma InventoryReplies(fields: Dict<Value>, clientContext: Option<Dict<string>>)
    requires ReadContext(clientContext).Ok?
    ensures var call := ReadContext(clientContext).value;
      var event := Obj(fields);
      var productId := if HasKey(fields, "productId") then PyStr(Get(fields, "productId").value) else call.targetId;
      && (call.tool == "get_inventory" ==> Inventory(event, clientContext) == Ok(Some(InventoryReply(productId))))
      && (call.tool != "get_inventory" ==> Inventory(event, clientContext) == Ok(None))
  {
  }

  /** `get_weather` names the `timezone` argument, or `unknown`; any other tool gets None. */
  lemma WeatherReplies(fields: Dict<Value>, clientContext: Option<Dict<string>>)
    requires ReadContext(clientContext).Ok?
    ensures var call := ReadContext(clientContext).value;
      var event := Obj(fields);
      var timezone := if HasKey(fields, "timezone") then PyStr(Get(fields, "timezone").value) else "unknown";
      && (call.tool == "get_weather" ==> Weather(event, clientContext) == Ok(Some(WeatherReply(timezone))))
      && (call.tool != "get_weather" ==> Weather(event, clientContext) == Ok(None))
  {
  }

  /** Different users get different e-mail and card replies, and the two kinds never coincide. */
  lemma RepliesNameTheirUser(a: string, b: string)
    ensures EmailReply(a) == EmailReply(b) ==> a == b
    ensures CardReply(a) == CardReply(b) ==> a == b
    ensures EmailReply(a) != CardReply(b)
  {
    var p := "User email for user ";
    var q := "User credit card number for user ";
    if EmailReply(a) == EmailReply(b) {
      assert EmailReply(a)[|p|..|p| + |a|] == a;
      assert |a| == |b|;
      assert EmailReply(b)[|p|..|p| + |b|] == b;
    }
    if CardReply(a) == CardReply(b) {
      assert CardReply(a)[|q|..|q| + |a|] == a;
      assert |a| == |b|;
      assert CardReply(b)[|q|..|q| + |b|] == b;
    }
    assert EmailReply(a)[5] == 'e' && CardReply(b)[5] == 'c';
  }
}
