/**
 * The knowledge-base search tool of the RAG agent: the Bedrock Retrieve call behind a lazily
 * created client, the numbered, truncated result blocks with their source citations, and the
 * error strings the tool returns instead of raising. The Retrieve API is an oracle.
 */
module KnowledgeBase {
  import opened Wrappers
  import opened PyDict
  import opened Text

  const NotAvailable :=
    "Knowledge base search is not available. The KNOWLEDGE_BASE_ID environment variable is not set."

  /** What separates two result blocks. */
  const Separator := "\n---\n"

  /** How many characters of a result's content are kept before `...` is appended. */
  const ContentLimit := 800

  /** The number of results asked for when the caller gives no `max_results`. */
  const DefaultMaxResults := 5

  /** The Bedrock Agent Runtime client, built for a region. */
  datatype Client = Client(region: string)

  /**
   * One retrieval result as the Retrieve API returns it: the content text, the score already
   * rendered with two decimals, the location type and, for S3 locations, the object URI; `None`
   * stands for a key the result does not carry.
   */
  datatype Retrieved = Retrieved(
    text: Option<string>, score: Option<string>, locationType: Option<string>, s3Uri: Option<string>)

  /** What the Retrieve call gives back, or which exception it raises. */
  datatype RetrieveOutcome =
    | Results(results: seq<Retrieved>)
    | NotFound
    | Invalid(message: string)
    | Failed(message: string)

  /** `content[:800] + "..."` for content longer than 800 characters; shorter content as is. */
  function Truncated(content: string): (r: string)
    ensures |content| <= ContentLimit ==> r == content
    ensures |content| > ContentLimit ==> |r| == ContentLimit + 3 && r[..ContentLimit] == content[..ContentLimit]
    ensures |content| > ContentLimit ==> r[ContentLimit..] == "..."
  {
    if |content| > ContentLimit then content[..ContentLimit] + "..." else content
  }

  /** The source citation: the S3 URI for S3 locations, the location type otherwise. */
  function Source(result: Retrieved): string {
    if result.locationType == Some("S3") then result.s3Uri.GetOr("Unknown S3 source")
    else "Source type: " + result.locationType.GetOr("UNKNOWN")
  }

  /** The text of the `n`-th result (numbered from 1): heading, source line, content line. */
  function Block(n: nat, result: Retrieved): string {
    Heading(n, result) + SourceLine(result) + ContentLine(result)
  }

  /** `**Result <n>** (Relevance: <score>)`. */
  function Heading(n: nat, result: Retrieved): string {
    "**Result " + NatToString(n) + "** (Relevance: " + result.score.GetOr("0.00") + ")\n"
  }

  function SourceLine(result: Retrieved): string {
    "Source: " + Source(result) + "\n"
  }

  /** The content, truncated, or `No content available` when the result has none. */
  function ContentLine(result: Retrieved): string {
    "Content: " + Truncated(result.text.GetOr("No content available")) + "\n"
  }

  /** The blocks of all results, numbered from 1 in input order. */
  function Blocks(results: seq<Retrieved>): (r: seq<string>)
    ensures |r| == |results|
  {
    seq(|results|, i requires 0 <= i < |results| => Block(i + 1, results[i]))
  }

  /** The reply for a non-empty result list. */
  function Formatted(results: seq<Retrieved>): string {
    Join(Separator, Blocks(results))
  }

  /** The reply for the Retrieve call's outcome. */
  function OutcomeReply(query: string, knowledgeBaseId: string, outcome: RetrieveOutcome): string {
    match outcome
    case Results(results) =>
      if results == [] then "No results found for query: " + query else Formatted(results)
    case NotFound =>
      "Error: Knowledge base '" + knowledgeBaseId + "' not found. Please verify the knowledge base exists."
    case Invalid(message) => "Error: Invalid search request - " + message
    case Failed(message) => "Error searching knowledge base: " + message
  }

  /** The knowledge base to search: `KNOWLEDGE_BASE_ID` when set and non-empty. */
  function KnowledgeBaseId(env: Dict<string>): Option<string> {
    var id := Get(env, "KNOWLEDGE_BASE_ID");
    if id.Some? && id.value != "" then id else None
  }

  /** The client a first call builds: `AWS_REGION`, `us-east-1` by default. */
  function NewClient(env: Dict<string>): Client {
    Client(GetOr(env, "AWS_REGION", "us-east-1"))
  }

  /** The loop that formats the results, one block per result. */
  method FormatResults(results: seq<Retrieved>) returns (r: string)
    ensures r == Formatted(results)
  {
    var formatted: seq<string> := [];
    for i := 0 to |results|
      invariant formatted == Blocks(results[..i])
    {
      var source: string;
      var locationType := results[i].locationType.GetOr("UNKNOWN");
      if locationType == "S3" {
        source := results[i].s3Uri.GetOr("Unknown S3 source");
      } else {
        source := "Source type: " + locationType;
      }
      var resultText := "**Result " + NatToString(i + 1) + "** (Relevance: " + results[i].score.GetOr("0.00") + ")\n";
      resultText := resultText + ("Source: " + source + "\n");
      var content := results[i].text.GetOr("No content available");
      if |content| > ContentLimit {
        content := content[..ContentLimit] + "...";
      }
      resultText := resultText + ("Content: " + content + "\n");
      assert resultText == Block(i + 1, results[i]);
      BlocksAppend(results[..i], results[i]);
      assert results[..i + 1] == results[..i] + [results[i]];
      formatted := formatted + [resultText];
    }
    assert results[..|results|] == results;
    r := Join(Separator, formatted);
  }

  /** The module global `_bedrock_agent_client`, with how often a client was built. */
  class Tool {
    var client: Option<Client>
    var clientsCreated: nat

    /** The client is built at most once. */
    ghost predicate Valid()
      reads this
    {
      clientsCreated == if client.Some? then 1 else 0
    }

    constructor()
      ensures Valid() && client == None
    {
      client := None;
      clientsCreated := 0;
    }

    /** `get_bedrock_agent_client`: the first call's region decides the client for good. */
    method GetClient(env: Dict<string>) returns (c: Client)
      requires Valid()
      modifies this
      ensures Valid() && client == Some(c) && clientsCreated <= 1
      ensures old(client).Some? ==> c == old(client).value && clientsCreated == old(clientsCreated)
      ensures old(client).None? ==> c == NewClient(env)
    {
      if client.Some? {
        return client.value;
      }
      client := Some(NewClient(env));
      clientsCreated := clientsCreated + 1;
      c := client.value;
    }

    /**
     * `search_knowledge_base`: without a knowledge base id the fixed message, before any client
     * exists; otherwise the reply for what Retrieve (client, id, query, result count) gives. A
     * caller that passes no `max_results` asks for `DefaultMaxResults`.
     */
    method Search(query: string, maxResults: Option<int>, env: Dict<string>,
                  retrieve: (Client, string, string, int) -> RetrieveOutcome) returns (r: string)
      requires Valid()
      modifies this
      ensures Valid() && clientsCreated <= 1
      ensures KnowledgeBaseId(env).None? ==> r == NotAvailable && unchanged(this)
      ensures KnowledgeBaseId(env).Some? ==>
        && client == Some(if old(client).Some? then old(client).value else NewClient(env))
        && r == OutcomeReply(query, KnowledgeBaseId(env).value,
                             retrieve(client.value, KnowledgeBaseId(env).value, query, maxResults.GetOr(DefaultMaxResults)))
    {
      var knowledgeBaseId := Get(env, "KNOWLEDGE_BASE_ID");
      if knowledgeBaseId.None? || knowledgeBaseId.value == "" {
        return NotAvailable;
      }
      var c := GetClient(env);
      var outcome := retrieve(c, knowledgeBaseId.value, query, maxResults.GetOr(DefaultMaxResults));
      match outcome {
        case Results(results) =>
          if results == [] {
            r := "No results found for query: " + query;
          } else {
            r := FormatResults(results);
          }
        case NotFound =>
          r := "Error: Knowledge base '" + knowledgeBaseId.value + "' not found. Please verify the knowledge base exists.";
        case Invalid(message) =>
          r := "Error: Invalid search request - " + message;
        case Failed(message) =>
          r := "Error searching knowledge base: " + message;
      }
    }
  }

  // Properties

  /** Adding a result adds its block, numbered one past the others. */
  lemma BlocksAppend(results: seq<Retrieved>, result: Retrieved)
    ensures Blocks(results + [result]) == Blocks(results) + [Block(|results| + 1, result)]
  {
  }

  /** Joining one more part appends the separator and the part. */
  lemma {:induction false} JoinAppend(sep: string, parts: seq<string>, part: string)
    requires parts != []
    ensures Join(sep, parts + [part]) == Join(sep, parts) + sep + part
    decreases |parts|
  {
    if |parts| > 1 {
      JoinAppend(sep, parts[1..], part);
      assert (parts + [part])[1..] == parts[1..] + [part];
    } else {
      assert (parts + [part])[1..] == [part];
    }
  }

  /** The reply grows block by block: a further result appends the separator and its numbered block. */
  lemma FormattedAppend(results: seq<Retrieved>, result: Retrieved)
    requires results != []
    ensures Formatted(results + [result]) == Formatted(results) + Separator + Block(|results| + 1, result)
  {
    BlocksAppend(results, result);
    JoinAppend(Separator, Blocks(results), Block(|results| + 1, result));
  }

  /** A run of digits ended by `*` is determined by the string it starts. */
  lemma DigitsBeforeStar(s: string, x: string, y: string)
    requires forall i :: 0 <= i < |x| ==> IsDigit(x[i])
    requires forall i :: 0 <= i < |y| ==> IsDigit(y[i])
    requires |x| < |s| && s[..|x|] == x && s[|x|] == '*'
    requires |y| < |s| && s[..|y|] == y && s[|y|] == '*'
    ensures x == y
  {
    var k := if |x| < |y| then |x| else |y|;
    assert s[k] == '*';
    assert |x| == |y|;
  }

  /** The number of a block follows `**Result ` and runs up to the next `*`. */
  lemma BlockNumber(n: nat, result: Retrieved)
    ensures var b, d := Block(n, result), NatToString(n);
      9 + |d| < |b| && b[9..][..|d|] == d && b[9..][|d|] == '*'
  {
    var d := NatToString(n);
    var h := Heading(n, result);
    HeadingNumber(n, result);
    var b := h + SourceLine(result) + ContentLine(result);
    assert b[9..9 + |d|] == h[9..9 + |d|];
    assert b[9..][..|d|] == b[9..9 + |d|];
  }

  /** The heading holds the number from its tenth character, followed by `*`. */
  lemma HeadingNumber(n: nat, result: Retrieved)
    ensures var h, d := Heading(n, result), NatToString(n);
      9 + |d| < |h| && h[9..9 + |d|] == d && h[9 + |d|] == '*'
  {
    var d := NatToString(n);
    var tail := "** (Relevance: " + result.score.GetOr("0.00") + ")\n";
    var h := "**Result " + d + tail;
    assert Heading(n, result) == h;
    assert h[9..9 + |d|] == d;
    assert h[9 + |d|] == tail[0];
  }

  /** Blocks with different numbers differ: a block's number can be read back from it. */
  lemma BlocksNumbered(n: nat, m: nat, a: Retrieved, b: Retrieved)
    requires n != m
    ensures Block(n, a) != Block(m, b)
  {
    if Block(n, a) == Block(m, b) {
      BlockNumber(n, a);
      BlockNumber(m, b);
      DigitsBeforeStar(Block(n, a)[9..], NatToString(n), NatToString(m));
      NatToStringRoundTrip(n);
      NatToStringRoundTrip(m);
    }
  }

  /** The kind of an outcome: no results, results, and the three exceptions. */
  function Kind(outcome: RetrieveOutcome): nat {
    match outcome
    case Results(results) => if results == [] then 0 else 1
    case NotFound => 2
    case Invalid(_) => 3
    case Failed(_) => 4
  }

  /** A join starts with its first part. */
  lemma JoinHead(sep: string, parts: seq<string>)
    requires parts != []
    ensures |Join(sep, parts)| >= |parts[0]| && Join(sep, parts)[..|parts[0]|] == parts[0]
  {
  }

  /** A no-results reply starts with `N`, a formatted one with `*`. */
  lemma ResultsReplyHead(query: string, id: string, results: seq<Retrieved>)
    ensures var r := OutcomeReply(query, id, Results(results));
      |r| > 0 && r[0] == if results == [] then 'N' else '*'
  {
    if results != [] {
      var blocks := Blocks(results);
      JoinHead(Separator, blocks);
      assert blocks[0] == Block(1, results[0]);
      assert Heading(1, results[0])[0] == '*';
      assert OutcomeReply(query, id, Results(results))[..|blocks[0]|] == blocks[0];
    }
  }

  /** The three error replies start with `Error`, and differ at the sixth or the eighth character. */
  lemma ErrorReplyHead(query: string, id: string, outcome: RetrieveOutcome)
    requires !outcome.Results?
    ensures var r := OutcomeReply(query, id, outcome);
      && |r| > 7 && r[0] == 'E'
      && (outcome.NotFound? ==> r[5] == ':' && r[7] == 'K')
      && (outcome.Invalid? ==> r[5] == ':' && r[7] == 'I')
      && (outcome.Failed? ==> r[5] == ' ')
  {
    var r := OutcomeReply(query, id, outcome);
    match outcome
    case NotFound =>
      assert r == "Error: Knowledge base '" + (id + "' not found. Please verify the knowledge base exists.");
    case Invalid(message) =>
      assert r == "Error: Invalid search request - " + message;
    case Failed(message) =>
      assert r == "Error searching knowledge base: " + message;
  }

  /** The reply tells the outcomes apart: replies to outcomes of different kinds never coincide. */
  lemma RepliesDistinguishOutcomes(query: string, id: string, a: RetrieveOutcome, b: RetrieveOutcome)
    requires Kind(a) != Kind(b)
    ensures OutcomeReply(query, id, a) != OutcomeReply(query, id, b)
  {
    if a.Results? {
      ResultsReplyHead(query, id, a.results);
    } else {
      ErrorReplyHead(query, id, a);
    }
    if b.Results? {
      ResultsReplyHead(query, id, b.results);
    } else {
      ErrorReplyHead(query, id, b);
    }
  }
}
