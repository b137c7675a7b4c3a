/**
 * The entry point of the knowledge-base RAG agent: the context built from conversation history
 * and long-term memories, the `invoke` handler around the agent, and the agent and memory
 * manager created lazily, once per process. The agent and the memory service are oracles.
 */
module RagAgent {
  import opened Wrappers
  import opened PyDict
  import opened Json
  import opened JsonText
  import opened Text
  import opened Seqs

  const MemoriesHeader := "Relevant information from previous conversations:"
  const HistoryHeader := "Recent conversation:"

  /** How many memories, and how many turns, the context keeps. */
  const Window := 5

  /** How many history events `invoke` asks the memory service for. */
  const HistoryLimit := 10

  function Min(a: nat, b: nat): nat { if a < b then a else b }

  /** `xs[:5]`. */
  function FirstFew<T>(xs: seq<T>): (r: seq<T>)
    ensures |r| == Min(Window, |xs|) && r == xs[..|r|]
  {
    xs[..Min(Window, |xs|)]
  }

  /** `xs[-5:]`. */
  function LastFew<T>(xs: seq<T>): (r: seq<T>)
    ensures |r| == Min(Window, |xs|) && r == xs[|xs| - |r|..]
  {
    xs[|xs| - Min(Window, |xs|)..]
  }

  // _build_context

  /** One memory as a bullet. */
  function MemoryLine(memory: Value): string {
    "- " + PyStr(memory)
  }

  /** The message of the AttributeError raised when `capitalize` is called on a non-string. */
  function NoCapitalize(v: Value): string {
    "'" + TypeName(v) + "' object has no attribute 'capitalize'"
  }

  /**
   * One turn as `<Role>: <content>`: `turn.get` raises unless the turn is a dictionary, and
   * `role.capitalize()` unless the role is a string.
   */
  function TurnLine(turn: Value): Result<string> {
    var role :- MemberOr(turn, "role", Str("unknown"));
    var content :- MemberOr(turn, "content", Str(""));
    if role.Str? then Ok(Capitalize(role.s) + ": " + PyStr(content)) else Raised(NoCapitalize(role))
  }

  /** The results of `f` on `xs`, in order, or the exception of the first item that raises. */
  function Collect<T, U>(xs: seq<T>, f: T -> Result<U>): Result<seq<U>> {
    if xs == [] then Ok([])
    else
      var front :- Collect(xs[..|xs| - 1], f);
      var last :- f(xs[|xs| - 1]);
      Ok(front + [last])
  }

  /** The lines of `turns`, in order, or the exception of the first turn that raises. */
  function TurnLines(turns: seq<Value>): Result<seq<string>> {
    Collect(turns, TurnLine)
  }

  /** The memories section: header, the first five memories as bullets, a blank part; nothing without memories. */
  function MemoryParts(memories: seq<Value>): seq<string> {
    if memories == [] then [] else [MemoriesHeader] + Map(FirstFew(memories), MemoryLine) + [""]
  }

  /** The history section: header, the last five turns, a blank part; nothing without history. */
  function HistoryParts(history: seq<Value>): Result<seq<string>> {
    if history == [] then Ok([])
    else
      var lines :- TurnLines(LastFew(history));
      Ok([HistoryHeader] + lines + [""])
  }

  /** `context_parts`: the memories section before the history section. */
  function ContextParts(history: seq<Value>, memories: seq<Value>): Result<seq<string>> {
    var historyParts :- HistoryParts(history);
    Ok(MemoryParts(memories) + historyParts)
  }

  /** The context string: the parts joined by newlines, or "" when there are none. */
  function Context(history: seq<Value>, memories: seq<Value>): Result<string> {
    var parts :- ContextParts(history, memories);
    Ok(if parts != [] then Join("\n", parts) else "")
  }

  /** The first loop of `_build_context`: the memories section. */
  method MemorySection(memories: seq<Value>) returns (parts: seq<string>)
    ensures parts == MemoryParts(memories)
  {
    parts := [];
    if memories != [] {
      parts := parts + [MemoriesHeader];
      var recent := FirstFew(memories);
      for i := 0 to |recent|
        invariant parts == [MemoriesHeader] + Map(recent[..i], MemoryLine)
      {
        assert recent[..i + 1] == recent[..i] + [recent[i]];
        MapAppend(recent[..i], [recent[i]], MemoryLine);
        parts := parts + [MemoryLine(recent[i])];
      }
      assert recent[..|recent|] == recent;
      parts := parts + [""];
    }
  }

  /** The second loop of `_build_context`: the history section, or the exception of a turn. */
  method HistorySection(history: seq<Value>) returns (r: Result<seq<string>>)
    ensures r == HistoryParts(history)
  {
    if history == [] {
      return Ok([]);
    }
    var parts := [HistoryHeader];
    var turns := LastFew(history);
    ghost var lines: seq<string> := [];
    for i := 0 to |turns|
      invariant TurnLines(turns[..i]) == Ok(lines)
      invariant parts == [HistoryHeader] + lines
    {
      CollectStep(turns, TurnLine, i);
      var line := TurnLine(turns[i]);
      if line.Raised? {
        CollectRaisedPersists(turns, TurnLine, i + 1);
        return Raised(line.message);
      }
      parts := parts + [line.value];
      lines := lines + [line.value];
    }
    assert turns[..|turns|] == turns;
    r := Ok(parts + [""]);
  }

  /** `_build_context`: the memories section, then the history section, joined by newlines. */
  method BuildContext(history: seq<Value>, memories: seq<Value>) returns (r: Result<string>)
    ensures r == Context(history, memories)
  {
    var parts := MemorySection(memories);
    var historyParts := HistorySection(history);
    if historyParts.Raised? {
      return Raised(historyParts.message);
    }
    parts := parts + historyParts.value;
    r := Ok(if parts != [] then Join("\n", parts) else "");
  }

  /** Once a prefix of the items raises, the whole run raises the same exception. */
  lemma {:induction false} CollectRaisedPersists<T, U>(xs: seq<T>, f: T -> Result<U>, k: nat)
    requires k <= |xs| && Collect(xs[..k], f).Raised?
    ensures Collect(xs, f) == Collect(xs[..k], f)
    decreases |xs| - k
  {
    if k == |xs| {
      assert xs[..k] == xs;
    } else {
      var front := xs[..|xs| - 1];
      assert front[..k] == xs[..k];
      CollectRaisedPersists(front, f, k);
    }
  }

  /** One more item: the run so far raises, or the item raises, or its result is appended. */
  lemma CollectStep<T, U>(xs: seq<T>, f: T -> Result<U>, i: nat)
    requires i < |xs|
    ensures Collect(xs[..i + 1], f) ==
      if Collect(xs[..i], f).Raised? then Collect(xs[..i], f)
      else if f(xs[i]).Raised? then Raised(f(xs[i]).message)
      else Ok(Collect(xs[..i], f).value + [f(xs[i]).value])
  {
    assert xs[..i + 1][..i] == xs[..i];
  }

  /** The run succeeds exactly when no item raises. */
  lemma {:induction false} CollectOk<T, U>(xs: seq<T>, f: T -> Result<U>)
    ensures Collect(xs, f).Ok? <==> forall i :: 0 <= i < |xs| ==> f(xs[i]).Ok?
  {
    if xs != [] {
      var front := xs[..|xs| - 1];
      CollectOk(front, f);
      if Collect(front, f).Raised? {
        var j :| 0 <= j < |front| && !f(front[j]).Ok?;
        assert xs[j] == front[j];
      } else if f(xs[|xs| - 1]).Ok? {
        forall i | 0 <= i < |front|
          ensures f(xs[i]).Ok?
        {
          assert xs[i] == front[i];
        }
      }
    }
  }

  /** A successful run has one result per item, each the result of that item, in order. */
  lemma {:induction false} CollectInOrder<T, U>(xs: seq<T>, f: T -> Result<U>)
    requires Collect(xs, f).Ok?
    ensures |Collect(xs, f).value| == |xs|
    ensures forall i :: 0 <= i < |xs| ==> Ok(Collect(xs, f).value[i]) == f(xs[i])
  {
    if xs != [] {
      var front := xs[..|xs| - 1];
      CollectInOrder(front, f);
      var results := Collect(front, f).value + [f(xs[|xs| - 1]).value];
      assert Collect(xs, f).value == results;
      forall i | 0 <= i < |xs|
        ensures Ok(results[i]) == f(xs[i])
      {
        if i < |front| {
          assert xs[i] == front[i];
        }
      }
    }
  }

  // Properties of the context

  /** The turns are read one by one: the history is read exactly when no turn raises. */
  lemma TurnLinesOk(turns: seq<Value>)
    ensures TurnLines(turns).Ok? <==> forall i :: 0 <= i < |turns| ==> TurnLine(turns[i]).Ok?
  {
    CollectOk(turns, TurnLine);
  }

  /** Read history has one line per turn, each the line of that turn, in order. */
  lemma TurnLinesInOrder(turns: seq<Value>)
    requires TurnLines(turns).Ok?
    ensures |TurnLines(turns).value| == |turns|
    ensures forall i :: 0 <= i < |turns| ==> Ok(TurnLines(turns).value[i]) == TurnLine(turns[i])
  {
    CollectInOrder(turns, TurnLine);
  }

  /** A turn without a role is attributed to `Unknown`; one without content shows nothing after the colon. */
  lemma TurnDefaults(fields: Dict<Value>)
    ensures !HasKey(fields, "role") ==>
      TurnLine(Obj(fields)) == Ok("Unknown: " + PyStr(GetOr(fields, "content", Str(""))))
    ensures !HasKey(fields, "content") && GetOr(fields, "role", Str("unknown")).Str? ==>
      TurnLine(Obj(fields)) == Ok(Capitalize(GetOr(fields, "role", Str("unknown")).s) + ": ")
  {
    var content := GetOr(fields, "content", Str(""));
    if !HasKey(fields, "role") {
      assert Capitalize("unknown") == "Unknown" by {
        assert Lower("nknown") == "nknown";
      }
      assert TurnLine(Obj(fields)) == Ok(Capitalize("unknown") + ": " + PyStr(content));
      assert Capitalize("unknown") + ": " + PyStr(content) == "Unknown: " + PyStr(content);
    }
    if !HasKey(fields, "content") && GetOr(fields, "role", Str("unknown")).Str? {
      var role := GetOr(fields, "role", Str("unknown")).s;
      assert TurnLine(Obj(fields)) == Ok(Capitalize(role) + ": " + PyStr(Str("")));
      assert Capitalize(role) + ": " + "" == Capitalize(role) + ": ";
    }
  }

  /** A turn that is not a dictionary, or whose role is not a string, raises. */
  lemma TurnLineIff(turn: Value)
    ensures TurnLine(turn).Ok? <==> turn.Obj? && GetOr(turn.fields, "role", Str("unknown")).Str?
    ensures !turn.Obj? ==> TurnLine(turn) == Raised(NoGet(turn))
  {
  }

  /** A join of parts whose first part is non-empty is non-empty. */
  lemma JoinNonEmpty(sep: string, parts: seq<string>)
    requires parts != [] && parts[0] != ""
    ensures Join(sep, parts) != ""
  {
    if |parts| > 1 {
      assert Join(sep, parts)[0] == parts[0][0];
    }
  }

  /** The context is empty exactly when there is neither history nor memory. */
  lemma ContextEmptyIff(history: seq<Value>, memories: seq<Value>)
    ensures Context(history, memories) == Ok("") <==> history == [] && memories == []
  {
    var r := ContextParts(history, memories);
    if r.Ok? && r.value != [] {
      var parts := r.value;
      if memories != [] {
        assert parts[0] == MemoriesHeader;
      } else {
        assert parts[0] == HistoryHeader;
      }
      JoinNonEmpty("\n", parts);
    }
  }

  /**
   * The memories section: nothing without memories; otherwise the header, the first five
   * memories, in order, as bullets, and a blank part.
   */
  lemma MemoryLayout(memories: seq<Value>)
    ensures var parts := MemoryParts(memories);
      var k := Min(Window, |memories|);
      && (memories == [] ==> parts == [])
      && (memories != [] ==>
            && |parts| == k + 2 && parts[0] == MemoriesHeader && parts[k + 1] == ""
            && forall i :: 0 <= i < k ==> parts[i + 1] == MemoryLine(memories[i]))
  {
    if memories != [] {
      var parts := MemoryParts(memories);
      var lines := Map(FirstFew(memories), MemoryLine);
      assert parts == [MemoriesHeader] + lines + [""];
      forall i | 0 <= i < Min(Window, |memories|)
        ensures parts[i + 1] == MemoryLine(memories[i])
      {
        assert parts[i + 1] == lines[i];
      }
    }
  }

  /**
   * The history section, when every turn read is well-formed: nothing without history; otherwise
   * the header, the lines of the last five turns, in order, and a blank part.
   */
  lemma HistoryLayout(history: seq<Value>)
    requires HistoryParts(history).Ok?
    ensures var parts := HistoryParts(history).value;
      var n := Min(Window, |history|);
      && (history == [] ==> parts == [])
      && (history != [] ==>
            && |parts| == n + 2 && parts[0] == HistoryHeader && parts[n + 1] == ""
            && forall i :: 0 <= i < n ==> Ok(parts[i + 1]) == TurnLine(LastFew(history)[i]))
  {
    if history != [] {
      var parts := HistoryParts(history).value;
      var turns := LastFew(history);
      TurnLinesInOrder(turns);
      var lines := TurnLines(turns).value;
      assert parts == [HistoryHeader] + lines + [""];
      forall i | 0 <= i < |turns|
        ensures Ok(parts[i + 1]) == TurnLine(turns[i])
      {
        assert parts[i + 1] == lines[i];
      }
    }
  }

  /** Turns older than the last five are never read, so they cannot make the context raise. */
  lemma OnlyRecentTurnsRead(older: seq<Value>, recent: seq<Value>, memories: seq<Value>)
    requires |recent| >= Window
    ensures Context(older + recent, memories) == Context(recent, memories)
  {
    var all := older + recent;
    assert LastFew(all) == LastFew(recent) by {
      assert all[|all| - Window..] == recent[|recent| - Window..];
    }
    assert HistoryParts(all) == HistoryParts(recent);
    assert ContextParts(all, memories) == ContextParts(recent, memories);
  }

  /** Memories past the first five are never read. */
  lemma OnlyFirstMemoriesRead(history: seq<Value>, first: seq<Value>, more: seq<Value>)
    requires |first| >= Window
    ensures Context(history, first + more) == Context(history, first)
  {
    assert FirstFew(first + more) == FirstFew(first);
  }

  /** When no part holds a newline, splitting the context at newlines gives the parts back. */
  lemma ContextSplitsIntoParts(history: seq<Value>, memories: seq<Value>)
    requires ContextParts(history, memories).Ok? && ContextParts(history, memories).value != []
    requires forall i :: 0 <= i < |ContextParts(history, memories).value| ==>
      '\n' !in ContextParts(history, memories).value[i]
    ensures Split(Context(history, memories).value, "\n") == ContextParts(history, memories).value
  {
    SplitJoin(ContextParts(history, memories).value, '\n');
  }

  // invoke

  /** The agent built by `create_agent`, numbered by creation; agent.py is not part of this model. */
  datatype Agent = Agent(serial: nat)

  /** The memory manager, built from `MEMORY_ID` and `AWS_REGION` (default `us-east-1`). */
  datatype MemoryManager = MemoryManager(memoryId: Option<string>, region: string)

  /** What the agent returns: its `message` attribute, when it has one, and its `str()`. */
  datatype AgentResponse = AgentResponse(message: Option<Value>, printed: string)

  /**
   * The calls `invoke` makes: conversation history (actor, session, limit), memory retrieval
   * (actor, query), the agent itself, and storing the interaction; each may raise.
   */
  datatype Services = Services(
    history: (MemoryManager, Value, Value, nat) -> Result<seq<Value>>,
    retrieve: (MemoryManager, Value, Value) -> Result<seq<Value>>,
    call: (Agent, Value) -> Result<AgentResponse>,
    store: (MemoryManager, Value, Value, Value, Value) -> Result<()>)

  const MissingPrompt := "Please provide a prompt."

  function Prompt(payload: Dict<Value>): Value { GetOr(payload, "prompt", Str("")) }
  function Session(payload: Dict<Value>): Value { GetOr(payload, "session_id", Str("default")) }
  function User(payload: Dict<Value>): Value { GetOr(payload, "user_id", Str("anonymous")) }

  /** The reply dictionary. */
  function Response(text: Value, session: Value, status: string): Dict<Value> {
    [("response", text), ("session_id", session), ("status", Str(status))]
  }

  /** The three entries of a reply. */
  lemma ResponseFields(text: Value, session: Value, status: string)
    ensures var r := Response(text, session, status);
      && Keys(r) == ["response", "session_id", "status"]
      && Get(r, "response") == Some(text) && Get(r, "session_id") == Some(session)
      && Get(r, "status") == Some(Str(status))
  {
    var r := Response(text, session, status);
    assert Get(r, "status") == Get(r[1..], "status") == Get(r[1..][1..], "status");
  }

  /** What the agent is asked: the prompt after the context, or the bare prompt without context. */
  function FullPrompt(context: string, prompt: Value): Value {
    if context != "" then Str(context + "\n\nUser: " + PyStr(prompt)) else prompt
  }

  /**
   * The reply text: the `text` of the first content block when the message is a dictionary
   * with a non-empty content list, the printed response otherwise.
   */
  function ReplyText(response: AgentResponse): Result<Value> {
    if response.message.Some? && response.message.value.Obj? then
      var content := GetOr(response.message.value.fields, "content", Arr([]));
      if Truthy(content) && content.Arr? && |content.items| > 0 then
        MemberOr(content.items[0], "text", Str(response.printed))
      else Ok(Str(response.printed))
    else Ok(Str(response.printed))
  }

  /** The body of the `try` block after the prompt check: the reply text, or the exception raised. */
  function Answer(payload: Dict<Value>, agent: Agent, manager: MemoryManager, services: Services): Result<Value> {
    var prompt, session, user := Prompt(payload), Session(payload), User(payload);
    var history :- services.history(manager, user, session, HistoryLimit);
    var memories :- services.retrieve(manager, user, prompt);
    var context :- Context(history, memories);
    var response :- services.call(agent, FullPrompt(context, prompt));
    var text :- ReplyText(response);
    var _ :- services.store(manager, user, session, prompt, text);
    Ok(text)
  }

  /** `invoke`: the error reply for a missing prompt, the agent's reply, or the exception's message. */
  function Reply(payload: Dict<Value>, agent: Agent, manager: MemoryManager, services: Services): Dict<Value> {
    if !Truthy(Prompt(payload)) then Response(Str(MissingPrompt), Session(payload), "error")
    else
      match Answer(payload, agent, manager, services)
      case Ok(text) => Response(text, Session(payload), "success")
      case Raised(e) => Response(Str("An error occurred: " + e), Session(payload), "error")
  }

  /** The memory manager a first call builds from the environment. */
  function NewManager(env: Dict<string>): MemoryManager {
    MemoryManager(Get(env, "MEMORY_ID"), GetOr(env, "AWS_REGION", "us-east-1"))
  }

  /** The cached manager, or the one a first call builds. */
  function ManagerFor(cached: Option<MemoryManager>, env: Dict<string>): MemoryManager {
    if cached.Some? then cached.value else NewManager(env)
  }

  /** The module globals `_agent` and `_memory_manager`, with how often each was built. */
  class Runtime {
    var agent: Option<Agent>
    var memoryManager: Option<MemoryManager>
    var agentsCreated: nat
    var managersCreated: nat

    /** Each global is built at most once, and only the first agent ever exists. */
    ghost predicate Valid()
      reads this
    {
      && agentsCreated == (if agent.Some? then 1 else 0)
      && (agent.Some? ==> agent.value == Agent(0))
      && managersCreated == (if memoryManager.Some? then 1 else 0)
    }

    constructor()
      ensures Valid() && agent == None && memoryManager == None
    {
      agent := None;
      memoryManager := None;
      agentsCreated := 0;
      managersCreated := 0;
    }

    /** `get_agent`: builds the agent on the first call and returns the same one afterwards. */
    method GetAgent() returns (a: Agent)
      requires Valid()
      modifies this
      ensures Valid() && agent == Some(a) && a == Agent(0) && agentsCreated <= 1
      ensures old(agent).Some? ==> agentsCreated == old(agentsCreated)
      ensures memoryManager == old(memoryManager) && managersCreated == old(managersCreated)
    {
      if agent.None? {
        agent := Some(Agent(agentsCreated));
        agentsCreated := agentsCreated + 1;
      }
      a := agent.value;
    }

    /** `get_memory_manager`: the environment of the first call decides the manager for good. */
    method GetMemoryManager(env: Dict<string>) returns (m: MemoryManager)
      requires Valid()
      modifies this
      ensures Valid() && m == ManagerFor(old(memoryManager), env) && memoryManager == Some(m) && managersCreated <= 1
      ensures old(memoryManager).Some? ==> managersCreated == old(managersCreated)
      ensures agent == old(agent) && agentsCreated == old(agentsCreated)
    {
      if memoryManager.None? {
        memoryManager := Some(NewManager(env));
        managersCreated := managersCreated + 1;
      }
      m := memoryManager.value;
    }

    /** `invoke`: a missing prompt is answered before either global is touched. */
    method Invoke(payload: Dict<Value>, env: Dict<string>, services: Services) returns (r: Dict<Value>)
      requires Valid()
      modifies this
      ensures Valid()
      ensures r == Reply(payload, Agent(0), ManagerFor(old(memoryManager), env), services)
      ensures !Truthy(Prompt(payload)) ==> unchanged(this)
      ensures Truthy(Prompt(payload)) ==>
        agent == Some(Agent(0)) && memoryManager == Some(ManagerFor(old(memoryManager), env))
    {
      var prompt, session, user := Prompt(payload), Session(payload), User(payload);
      if !Truthy(prompt) {
        return Response(Str(MissingPrompt), session, "error");
      }
      var a := GetAgent();
      var manager := GetMemoryManager(env);
      var history := services.history(manager, user, session, HistoryLimit);
      if history.Raised? {
        return Response(Str("An error occurred: " + history.message), session, "error");
      }
      var memories := services.retrieve(manager, user, prompt);
      if memories.Raised? {
        return Response(Str("An error occurred: " + memories.message), session, "error");
      }
      var context := BuildContext(history.value, memories.value);
      if context.Raised? {
        return Response(Str("An error occurred: " + context.message), session, "error");
      }
      var fullPrompt := if context.value != "" then Str(context.value + "\n\nUser: " + PyStr(prompt)) else prompt;
      var response := services.call(a, fullPrompt);
      if response.Raised? {
        return Response(Str("An error occurred: " + response.message), session, "error");
      }
      var text := ReplyText(response.value);
      if text.Raised? {
        return Response(Str("An error occurred: " + text.message), session, "error");
      }
      var stored := services.store(manager, user, session, prompt, text.value);
      if stored.Raised? {
        return Response(Str("An error occurred: " + stored.message), session, "error");
      }
      r := Response(text.value, session, "success");
    }
  }

  // Properties of invoke

  /** Without a prompt the reply is the fixed error, whatever the services would have done. */
  lemma MissingPromptReply(payload: Dict<Value>, agent: Agent, manager: MemoryManager, services: Services)
    requires !Truthy(Prompt(payload))
    ensures Reply(payload, agent, manager, services) ==
      [("response", Str(MissingPrompt)), ("session_id", Session(payload)), ("status", Str("error"))]
  {
  }

  /** Every reply has the same three keys and echoes the session id, `default` when none was sent. */
  lemma ReplyShape(payload: Dict<Value>, agent: Agent, manager: MemoryManager, services: Services)
    ensures var r := Reply(payload, agent, manager, services);
      && Keys(r) == ["response", "session_id", "status"]
      && Get(r, "session_id") == Some(Session(payload))
      && (!HasKey(payload, "session_id") ==> Get(r, "session_id") == Some(Str("default")))
  {
    var answer := Answer(payload, agent, manager, services);
    if !Truthy(Prompt(payload)) {
      ResponseFields(Str(MissingPrompt), Session(payload), "error");
    } else if answer.Ok? {
      ResponseFields(answer.value, Session(payload), "success");
    } else {
      ResponseFields(Str("An error occurred: " + answer.message), Session(payload), "error");
    }
  }

  /** The reply succeeds exactly when there is a prompt and nothing raised; then it carries the reply text. */
  lemma SuccessIff(payload: Dict<Value>, agent: Agent, manager: MemoryManager, services: Services)
    ensures var r := Reply(payload, agent, manager, services);
      && (Get(r, "status") == Some(Str("success")) <==>
            Truthy(Prompt(payload)) && Answer(payload, agent, manager, services).Ok?)
      && (Get(r, "status") == Some(Str("success")) ==>
            Get(r, "response") == Some(Answer(payload, agent, manager, services).value))
      && (Truthy(Prompt(payload)) && Answer(payload, agent, manager, services).Raised? ==>
            Get(r, "response") == Some(Str("An error occurred: " + Answer(payload, agent, manager, services).message)))
  {
    var answer := Answer(payload, agent, manager, services);
    if !Truthy(Prompt(payload)) {
      ResponseFields(Str(MissingPrompt), Session(payload), "error");
    } else if answer.Ok? {
      ResponseFields(answer.value, Session(payload), "success");
    } else {
      ResponseFields(Str("An error occurred: " + answer.message), Session(payload), "error");
    }
  }

  /** The agent sees the bare prompt exactly when the context is empty. */
  lemma FullPromptIff(context: string, prompt: Value)
    ensures FullPrompt(context, prompt) == prompt <==> context == ""
    ensures context != "" ==> FullPrompt(context, prompt) == Str(context + "\n\nUser: " + PyStr(prompt))
  {
    if context != "" && prompt.Str? {
      assert |FullPrompt(context, prompt).s| > |prompt.s|;
    }
  }

  /** A successful answer was stored: the store call for this prompt and reply text did not raise. */
  lemma SuccessStored(payload: Dict<Value>, agent: Agent, manager: MemoryManager, services: Services)
    requires Answer(payload, agent, manager, services).Ok?
    ensures services.store(manager, User(payload), Session(payload), Prompt(payload),
                           Answer(payload, agent, manager, services).value).Ok?
  {
  }

  /**
   * The reply text is the first content block's `text` when the message is a dictionary with a
   * non-empty content list and that block is a dictionary holding one; the printed response in
   * every other case, except a first block that is not a dictionary, which raises.
   */
  lemma ReplyTextCases(response: AgentResponse)
    ensures ReplyText(response).Raised? <==>
      && response.message.Some? && response.message.value.Obj?
      && GetOr(response.message.value.fields, "content", Arr([])).Arr?
      && |GetOr(response.message.value.fields, "content", Arr([])).items| > 0
      && !GetOr(response.message.value.fields, "content", Arr([])).items[0].Obj?
    ensures ReplyText(response).Ok? && ReplyText(response) != Ok(Str(response.printed)) ==>
      exists block: Value :: block.Obj? && Get(block.fields, "text") == Some(ReplyText(response).value)
  {
    if ReplyText(response).Ok? && ReplyText(response) != Ok(Str(response.printed)) {
      var block := GetOr(response.message.value.fields, "content", Arr([])).items[0];
      assert block.Obj? && Get(block.fields, "text") == Some(ReplyText(response).value);
    }
  }
}
