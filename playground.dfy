/** mcp_playground_server.py: the `ComprehensiveLogger` with its bounded
    in-memory log of `LogEntry` records, and the handlers of
    `MCPPlaygroundServer` (list/call tools, list/read resources, list/get
    prompts) with the `counter` they keep. */
module Playground {
  import opened PyValues
  import opened PyCollections
  import opened McpTypes

  const DefaultMaxMemoryLogs: nat := 2000

  /** One entry of `stream_events`:
      `{'timestamp': ..., 'data': {"count": count, "remaining": remaining}}` */
  datatype StreamEvent = StreamEvent(timestamp: string, count: int, remaining: int)

  /** `asdict(entry)`: the value of a log entry at one moment. */
  datatype EntryRecord = EntryRecord(
    timestamp: string,
    requestType: string,
    operation: string,
    name: Option<string>,
    parameters: Arguments,
    requestPayload: RequestPayload,
    responsePayload: Option<ResponsePayload>,
    responseTimeMs: Option<Duration>,
    error: Option<string>,
    success: bool,
    streaming: bool,
    streamEvents: seq<StreamEvent>)

  /** The record `log_request` creates: no response yet, `success` at its
      default `True`, not streaming, no stream events. */
  function NewRecord(timestamp: string, requestType: string, operation: string, name: Option<string>,
                     parameters: Arguments, requestPayload: RequestPayload): EntryRecord
  {
    EntryRecord(timestamp, requestType, operation, name, parameters, requestPayload,
                None, None, None, true, false, [])
  }

  /** What `log_response` does to a record: the payload, error and time
      passed in are stored, and `success` is `error is None`. */
  function Responded(r: EntryRecord, payload: Option<ResponsePayload>, error: Option<string>,
                     responseTimeMs: Option<Duration>): (r': EntryRecord)
    ensures r'.responsePayload == payload && r'.error == error && r'.responseTimeMs == responseTimeMs
    ensures r'.success <==> error == None
    ensures r'.(responsePayload := r.responsePayload, error := r.error, success := r.success,
                responseTimeMs := r.responseTimeMs) == r
  {
    r.(responsePayload := payload, error := error, success := error == None, responseTimeMs := responseTimeMs)
  }

  /** What a run of `log_stream_event` calls does to a record. */
  function Streamed(r: EntryRecord, events: seq<StreamEvent>): EntryRecord {
    r.(streaming := r.streaming || events != [], streamEvents := r.streamEvents + events)
  }

  /** A tool that streams nothing leaves the record as it was. */
  lemma StreamedNothing(r: EntryRecord)
    ensures Streamed(r, []) == r
  {
    assert r.streamEvents + [] == r.streamEvents;
  }

  /** Two runs of stream events in a row are one run of all of them. */
  lemma StreamedTwice(r: EntryRecord, a: seq<StreamEvent>, b: seq<StreamEvent>)
    ensures Streamed(Streamed(r, a), b) == Streamed(r, a + b)
  {
    assert r.streamEvents + a + b == r.streamEvents + (a + b);
  }

  /** The `LogEntry` dataclass. The fields `log_request` sets are never
      reassigned, so they are constants; the response fields and the
      stream events are filled in place later. */
  class LogEntry {
    const timestamp: string
    const requestType: string
    const operation: string
    const name: Option<string>
    const parameters: Arguments
    const requestPayload: RequestPayload
    var responsePayload: Option<ResponsePayload>
    var responseTimeMs: Option<Duration>
    var error: Option<string>
    var success: bool
    var streaming: bool
    var streamEvents: seq<StreamEvent>

    constructor (timestamp: string, requestType: string, operation: string, name: Option<string>,
                 parameters: Arguments, requestPayload: RequestPayload)
      ensures View() == NewRecord(timestamp, requestType, operation, name, parameters, requestPayload)
    {
      this.timestamp := timestamp;
      this.requestType := requestType;
      this.operation := operation;
      this.name := name;
      this.parameters := parameters;
      this.requestPayload := requestPayload;
      responsePayload := None;
      responseTimeMs := None;
      error := None;
      success := true;
      streaming := false;
      streamEvents := [];
    }

    function View(): EntryRecord
      reads this
    {
      EntryRecord(timestamp, requestType, operation, name, parameters, requestPayload,
                  responsePayload, responseTimeMs, error, success, streaming, streamEvents)
    }
  }

  /** `[asdict(log) for log in logs]` */
  function Views(logs: seq<LogEntry>): (r: seq<EntryRecord>)
    reads logs
    ensures |r| == |logs| && forall i :: 0 <= i < |logs| ==> r[i] == logs[i].View()
  {
    seq(|logs|, i requires 0 <= i < |logs| reads logs => logs[i].View())
  }

  /** Selecting entries and then reading them gives the same records as
      reading the whole log and selecting from the records. */
  lemma ViewsRecent(logs: seq<LogEntry>, limit: Option<int>)
    ensures Views(RecentLogs(logs, limit)) == RecentLogs(Views(logs), limit)
  {
    var r, v := RecentLogs(logs, limit), RecentLogs(Views(logs), limit);
    if !(limit == None || limit == Some(0)) {
      var k := SliceStart(-limit.value, |logs|);
      assert r == logs[k..] && v == Views(logs)[k..];
    }
  }

  /** `ComprehensiveLogger`: `memory_logs` is a `deque(maxlen=max_memory_logs)`
      of references to entries, which the handlers go on updating. */
  class ComprehensiveLogger {
    const maxMemoryLogs: nat
    var memoryLogs: seq<LogEntry>

    ghost predicate Valid()
      reads this
    {
      |memoryLogs| <= maxMemoryLogs
    }

    constructor (maxMemoryLogs: nat)
      ensures Valid() && this.maxMemoryLogs == maxMemoryLogs && memoryLogs == []
    {
      this.maxMemoryLogs := maxMemoryLogs;
      memoryLogs := [];
    }

    /** `log_request`: creates one entry, appends it to the bounded log
        (evicting the oldest entry when the log is full) and returns it. */
    method LogRequest(requestType: string, operation: string, name: Option<string>,
                      parameters: Option<Arguments>, requestPayload: Option<RequestPayload>, now: string)
      returns (entry: LogEntry)
      requires Valid()
      modifies this
      ensures Valid() && fresh(entry)
      ensures memoryLogs == BoundedAppend(old(memoryLogs), entry, maxMemoryLogs)
      ensures entry.View() == NewRecord(now, requestType, operation, name,
                                        parameters.GetOr(map[]), requestPayload.GetOr(EmptyPayload))
    {
      entry := new LogEntry(now, requestType, operation, name,
                            parameters.GetOr(map[]), requestPayload.GetOr(EmptyPayload));
      memoryLogs := BoundedAppend(memoryLogs, entry, maxMemoryLogs);
    }

    /** `log_response`: fills in the response of one entry; no other entry
        and no other field of it changes. */
    method LogResponse(entry: LogEntry, responsePayload: Option<ResponsePayload>, error: Option<string>,
                       responseTimeMs: Option<Duration>)
      modifies entry
      ensures entry.View() == Responded(old(entry.View()), responsePayload, error, responseTimeMs)
      ensures forall i :: 0 <= i < |memoryLogs| && memoryLogs[i] != entry ==>
                memoryLogs[i].View() == old(memoryLogs[i].View())
    {
      entry.responsePayload := responsePayload;
      entry.error := error;
      entry.success := error == None;
      entry.responseTimeMs := responseTimeMs;
    }

    /** `log_stream_event`: marks the entry as streaming and appends one event. */
    method LogStreamEvent(entry: LogEntry, count: int, remaining: int, now: string)
      modifies entry
      ensures entry.View() == Streamed(old(entry.View()), [StreamEvent(now, count, remaining)])
      ensures forall i :: 0 <= i < |memoryLogs| && memoryLogs[i] != entry ==>
                memoryLogs[i].View() == old(memoryLogs[i].View())
    {
      entry.streaming := true;
      entry.streamEvents := entry.streamEvents + [StreamEvent(now, count, remaining)];
    }

    /** `get_logs(limit)`: the whole log for a missing or zero limit, else
        `logs[-limit:]`; for a positive limit, the newest `min(limit, len)`
        entries, oldest first. */
    function GetLogs(limit: Option<int>): (logs: seq<LogEntry>)
      reads this
      ensures |logs| <= |memoryLogs| && logs == memoryLogs[|memoryLogs| - |logs|..]
      ensures limit == None || limit == Some(0) ==> logs == memoryLogs
      ensures limit.Some? && limit.value > 0 ==> |logs| == Min(limit.value, |memoryLogs|)
    {
      RecentLogs(memoryLogs, limit)
    }
  }

  /** The readings of the clock and the environment one handler call makes,
      and the literal contents of two resources. */
  datatype Env = Env(
    now: string,           // datetime.now(timezone.utc).isoformat()
    elapsed: Duration,     // the measured response time
    uptimeSeconds: int,    // int(uptime.total_seconds())
    uptimeHuman: string,   // str(uptime).split('.')[0]
    bigText: string,       // the generated content of data://big_text
    pngBase64: string)     // the base64 text of the tiny PNG

  // ---------------------------------------------------------------------
  // Tools

  function PlaygroundTools(): seq<Tool> {
    [ Tool("add", "Add two numbers together - demonstrates basic tool functionality"),
      Tool("fail_on_purpose", "Always fails - demonstrates error handling in MCP"),
      Tool("countdown", "Stream countdown from N to 1 - demonstrates streaming responses"),
      Tool("increment_counter", "Increment server-side counter - demonstrates stateful operations"),
      Tool("get_server_info", "Get server information - demonstrates introspection capabilities") ]
  }

  /** The `add` branch: `a` and `b` default to 0 and are added with Python's `+`. */
  function AddTool(args: Arguments): Outcome<string> {
    var a := Get(args, "a", IntV(0));
    var b := Get(args, "b", IntV(0));
    match Plus(a, b)
    case Ok(sum) => Ok("Adding " + (ToStr(a) + " + " + ToStr(b) + " = " + ToStr(sum)))
    case Err(m) => Err(m)
  }

  /** The `fail_on_purpose` branch raises `Exception(message)`. */
  function FailOnPurpose(args: Arguments): Outcome<string> {
    Err(ToStr(Get(args, "message", StrV("Intentional test error"))))
  }

  /** `range(n, 0, -1)` */
  function CountdownCounts(n: int): (r: seq<int>)
    ensures |r| == if n > 0 then n else 0
    ensures forall k :: 0 <= k < |r| ==> r[k] == n - k
    decreases n
  {
    if n <= 0 then [] else [n] + CountdownCounts(n - 1)
  }

  function CountdownLine(i: int): string {
    "Countdown: " + IntToString(i)
  }

  /** the `countdown_text` list */
  function CountdownLines(n: int): seq<string> {
    var c := CountdownCounts(n);
    seq(|c|, k requires 0 <= k < |c| => CountdownLine(c[k]))
  }

  /** the stream events the countdown logs, one per line */
  function CountdownEvents(n: int, now: string): seq<StreamEvent> {
    var c := CountdownCounts(n);
    seq(|c|, k requires 0 <= k < |c| => StreamEvent(now, c[k], c[k] - 1))
  }

  /** `"\\n".join(countdown_text) + "\\nCountdown complete!"`, with the
      two-character sequence backslash-n as separator. */
  function CountdownText(lines: seq<string>): string {
    Join("\\n", lines) + "\\nCountdown complete!"
  }

  /** the TypeError `range()` raises for a non-integer `n` */
  function NotAnInteger(v: Value): string {
    "'" + TypeName(v) + "' object cannot be interpreted as an integer"
  }

  function CountdownOutcome(args: Arguments): Outcome<string> {
    match Get(args, "n", IntV(5))
    case IntV(n) => Ok(CountdownText(CountdownLines(n)))
    case v => Err(NotAnInteger(v))
  }

  /** the stream events a call of a tool logs */
  function ToolStreamEvents(name: string, args: Arguments, now: string): seq<StreamEvent> {
    var n := Get(args, "n", IntV(5));
    if name == "countdown" && n.IntV? then CountdownEvents(n.i, now) else []
  }

  /** The `get_server_info` text: `json.dumps(info, indent=2)` under the
      `Server Information:` heading. */
  function ServerInfoText(counter: int, logsInMemory: nat, env: Env): string {
    "Server Information:\\n" + ServerInfoJson(counter, logsInMemory, env)
  }

  /** `json.dumps(info, indent=2)` */
  function ServerInfoJson(counter: int, logsInMemory: nat, env: Env): string {
    "{\n"
    + "  \"server_name\": \"MCP Playground Server\",\n"
    + "  \"version\": \"1.0.0\",\n"
    + "  \"uptime_seconds\": " + IntToString(env.uptimeSeconds) + ",\n"
    + "  \"uptime_human\": " + JsonString(env.uptimeHuman) + ",\n"
    + "  \"features\": {\n"
    + "    \"tools\": 5,\n"
    + "    \"resources\": 3,\n"
    + "    \"prompts\": 1,\n"
    + "    \"streaming\": \"Simulated\",\n"
    + "    \"stateful\": true,\n"
    + "    \"error_handling\": true\n"
    + "  },\n"
    + "  \"current_counter\": " + IntToString(counter) + ",\n"
    + "  \"logs_in_memory\": " + IntToString(logsInMemory) + "\n"
    + "}"
  }

  /** What the body of `handle_call_tool` computes or raises, given the
      counter before the call and the number of entries in the log. */
  function ToolOutcome(name: string, args: Arguments, counter: int, logsInMemory: nat, env: Env): Outcome<string> {
    if name == "add" then AddTool(args)
    else if name == "fail_on_purpose" then FailOnPurpose(args)
    else if name == "countdown" then CountdownOutcome(args)
    else if name == "increment_counter" then Ok("Counter incremented to: " + IntToString(counter + 1))
    else if name == "get_server_info" then Ok(ServerInfoText(counter, logsInMemory, env))
    else Err("Unknown tool: " + name)
  }

  /** An exception becomes the single text item `Error: <message>`. */
  function ToolReply(o: Outcome<string>): seq<TextContent> {
    [Text(if o.Ok? then o.value else "Error: " + o.message)]
  }

  /** How the tool call's entry is completed: `{"result": "success"}` or the error. */
  function ToolResponded(r: EntryRecord, o: Outcome<string>, elapsed: Duration): EntryRecord {
    if o.Ok? then Responded(r, Some(ResultSuccess), None, Some(elapsed))
    else Responded(r, None, Some(o.message), Some(elapsed))
  }

  /** `range(n, 0, -1)` counts down: n first, then one less each step. */
  lemma CountdownStrictlyDecreasing(n: int, i: nat, j: nat)
    requires i < j < |CountdownCounts(n)|
    ensures CountdownCounts(n)[i] > CountdownCounts(n)[j] >= 1
  {
  }

  /** The k-th line and the k-th stream event both show the count n - k,
      and the event says n - k - 1 remain. */
  lemma CountdownLineAndEvent(n: int, now: string, k: nat)
    requires k < |CountdownCounts(n)|
    ensures |CountdownLines(n)| == |CountdownEvents(n, now)| == if n > 0 then n else 0
    ensures CountdownLines(n)[k] == "Countdown: " + IntToString(n - k)
    ensures CountdownEvents(n, now)[k] == StreamEvent(now, n - k, n - k - 1)
  {
    var c := CountdownCounts(n);
    assert c[k] == n - k;
    assert CountdownLines(n)[k] == CountdownLine(c[k]);
    assert CountdownEvents(n, now)[k] == StreamEvent(now, c[k], c[k] - 1);
  }

  /** For n <= 0 there are no lines and no events. */
  lemma CountdownNonPositive(n: int, now: string)
    requires n <= 0
    ensures CountdownText(CountdownLines(n)) == "\\nCountdown complete!"
    ensures CountdownEvents(n, now) == []
  {
    assert CountdownLines(n) == [];
  }

  /** A missing `n` counts down from 5. */
  lemma {:induction false} CountdownDefault(args: Arguments, now: string)
    requires "n" !in args
    ensures CountdownOutcome(args) == Ok(CountdownText(CountdownLines(5)))
    ensures |CountdownEvents(5, now)| == 5
    ensures CountdownLines(5)[0] == "Countdown: 5" && CountdownLines(5)[4] == "Countdown: 1"
  {
    CountdownLineAndEvent(5, now, 0);
    CountdownLineAndEvent(5, now, 4);
  }

  /** A missing argument of `add` counts as 0, whatever else the map holds:
      with both missing the sum is 0, with one missing the sum is the other. */
  lemma AddDefaults(args: Arguments)
    ensures "a" !in args && "b" !in args ==> AddTool(args) == Ok("Adding 0 + 0 = 0")
    ensures "a" !in args && "b" in args && args["b"].IntV? ==>
              var b := IntToString(args["b"].i);
              AddTool(args) == Ok("Adding " + ("0" + " + " + b + " = " + b))
    ensures "a" in args && args["a"].IntV? && "b" !in args ==>
              var a := IntToString(args["a"].i);
              AddTool(args) == Ok("Adding " + (a + " + " + "0" + " = " + a))
  {
    assert IntToString(0) == "0";
    if "a" !in args && "b" !in args {
      assert "Adding " + ("0" + " + " + "0" + " = " + "0") == "Adding 0 + 0 = 0";
    } else if "a" !in args && "b" in args && args["b"].IntV? {
      assert Plus(IntV(0), args["b"]) == Ok(IntV(args["b"].i));
    } else if "a" in args && args["a"].IntV? && "b" !in args {
      assert Plus(args["a"], IntV(0)) == Ok(IntV(args["a"].i));
    }
  }

  /** `add` raises exactly when Python's `+` rejects the operands: an int
      and a str, or a None on either side. */
  lemma AddRaisesIffMixed(args: Arguments)
    ensures var a, b := Get(args, "a", IntV(0)), Get(args, "b", IntV(0));
            AddTool(args).Err? <==> !((a.IntV? && b.IntV?) || (a.StrV? && b.StrV?))
  {
  }

  /** The counter report names the new counter, and two different counters
      never give the same report. */
  lemma {:induction false} CounterReportIdentifiesCounter(args: Arguments, c1: int, c2: int, l1: nat, l2: nat, env: Env)
    requires ToolOutcome("increment_counter", args, c1, l1, env) == ToolOutcome("increment_counter", args, c2, l2, env)
    ensures c1 == c2
  {
    var p := "Counter incremented to: ";
    var s1, s2 := IntToString(c1 + 1), IntToString(c2 + 1);
    assert (p + s1)[|p|..] == s1;
    assert (p + s2)[|p|..] == s2;
    IntToStringInjective(c1 + 1, c2 + 1);
  }

  /** The countdown text starts with its first line, or with the
      backslash of the closing line when there are no lines. */
  lemma {:induction false} CountdownTextStart(n: int)
    ensures var t := CountdownText(CountdownLines(n));
            && |t| > 0 && t[0] == (if n > 0 then 'C' else '\\')
            && (n > 0 ==> HasPrefix(t, CountdownLine(n)))
  {
    var lines := CountdownLines(n);
    var j := Join("\\n", lines);
    var t := CountdownText(lines);
    assert t == j + "\\nCountdown complete!";
    if n > 0 {
      assert lines[0] == CountdownLine(n);
      assert j[..|lines[0]|] == lines[0];
      assert t[..|lines[0]|] == j[..|lines[0]|];
      assert CountdownLine(n)[0] == 'C';
    } else {
      assert j == "";
    }
  }

  lemma AddTextStart(args: Arguments)
    requires AddTool(args).Ok?
    ensures |AddTool(args).value| > 0 && AddTool(args).value[0] == 'A'
  {
  }

  /** Every successful tool text starts with a letter other than `E`, or
      with a backslash. */
  lemma {:induction false} OkTextNotError(name: string, args: Arguments, counter: int, logsInMemory: nat, env: Env)
    requires ToolOutcome(name, args, counter, logsInMemory, env).Ok?
    ensures var t := ToolOutcome(name, args, counter, logsInMemory, env).value;
            |t| > 0 && t[0] != 'E'
  {
    if name == "countdown" {
      CountdownTextStart(Get(args, "n", IntV(5)).i);
    } else if name == "add" {
      AddTextStart(args);
    } else if name == "increment_counter" {
      assert ToolOutcome(name, args, counter, logsInMemory, env).value
          == "Counter incremented to: " + IntToString(counter + 1);
    } else if name == "get_server_info" {
      var info := ServerInfoJson(counter, logsInMemory, env);
      assert ToolOutcome(name, args, counter, logsInMemory, env).value == "Server Information:\\n" + info;
    }
  }

  /** Errors never escape `handle_call_tool`: the reply is always one text
      item, and it is an `Error: ` text exactly when the body raised. */
  lemma {:induction false} ToolErrorsBecomeText(name: string, args: Arguments, counter: int, logsInMemory: nat, env: Env)
    ensures var o := ToolOutcome(name, args, counter, logsInMemory, env);
            |ToolReply(o)| == 1 && (o.Err? <==> HasPrefix(ToolReply(o)[0].text, "Error: "))
  {
    var o := ToolOutcome(name, args, counter, logsInMemory, env);
    if o.Ok? {
      OkTextNotError(name, args, counter, logsInMemory, env);
    }
    ReplyMarksErrors(o);
  }

  /** A reply starts with `Error: ` exactly for a raised exception, as long
      as no successful text starts with `E`. */
  lemma ReplyMarksErrors(o: Outcome<string>)
    requires o.Ok? ==> |o.value| > 0 && o.value[0] != 'E'
    ensures |ToolReply(o)| == 1 && (o.Err? <==> HasPrefix(ToolReply(o)[0].text, "Error: "))
  {
    var t := ToolReply(o)[0].text;
    if o.Ok? {
      assert |t| >= 7 ==> t[..7][0] == t[0];
    } else {
      assert t[..7] == "Error: ";
    }
  }

  /** An unknown tool name is reported, not raised. */
  lemma UnknownToolReply(name: string, args: Arguments, counter: int, logsInMemory: nat, env: Env)
    requires name !in ToolNames(PlaygroundTools())
    ensures ToolReply(ToolOutcome(name, args, counter, logsInMemory, env)) == [Text("Error: Unknown tool: " + name)]
  {
    PlaygroundToolNames();
    assert ToolOutcome(name, args, counter, logsInMemory, env) == Err("Unknown tool: " + name);
    assert "Error: " + ("Unknown tool: " + name) == "Error: Unknown tool: " + name;
  }

  lemma PlaygroundToolNames()
    ensures ToolNames(PlaygroundTools())
         == ["add", "fail_on_purpose", "countdown", "increment_counter", "get_server_info"]
  {
    var names := ToolNames(PlaygroundTools());
    assert names[0] == "add" && names[1] == "fail_on_purpose" && names[2] == "countdown";
    assert names[3] == "increment_counter" && names[4] == "get_server_info";
  }

  // ---------------------------------------------------------------------
  // Resources

  function PlaygroundResources(): seq<Resource> {
    [ Resource("time://current", "Current Server Time",
               "Returns the current server time in ISO format", "text/plain"),
      Resource("data://big_text", "Large Text Data",
               "Returns a large text string for context window testing (10KB+)", "text/plain"),
      Resource("image://tiny_png_base64", "Tiny PNG Image (Base64)",
               "Returns a small PNG image encoded as base64 for binary handling demo", "image/png") ]
  }

  /** What the body of `handle_read_resource` returns or raises. */
  function ResourceOutcome(uri: string, env: Env): Outcome<string> {
    if uri == "time://current" then Ok(env.now)
    else if uri == "data://big_text" then Ok(env.bigText)
    else if uri == "image://tiny_png_base64" then Ok("data:image/png;base64," + env.pngBase64)
    else Err("Unknown resource URI: " + uri)
  }

  function ResourceReply(uri: string, o: Outcome<string>): string {
    if o.Ok? then o.value else "Error reading resource '" + uri + "': " + o.message
  }

  function ResourceResponded(r: EntryRecord, o: Outcome<string>, elapsed: Duration): EntryRecord {
    if o.Ok? then Responded(r, Some(ContentLength(|o.value|)), None, Some(elapsed))
    else Responded(r, None, Some(o.message), Some(elapsed))
  }

  /** Exactly the three listed URIs can be read; any other is reported. */
  lemma {:induction false} ResourceKnownIffListed(uri: string, env: Env)
    ensures ResourceOutcome(uri, env).Ok? <==> uri in ResourceUris(PlaygroundResources())
    ensures uri !in ResourceUris(PlaygroundResources()) ==>
              ResourceReply(uri, ResourceOutcome(uri, env))
              == "Error reading resource '" + uri + "': Unknown resource URI: " + uri
  {
    PlaygroundResourceUris();
  }

  lemma PlaygroundResourceUris()
    ensures ResourceUris(PlaygroundResources()) == ["time://current", "data://big_text", "image://tiny_png_base64"]
  {
    var uris := ResourceUris(PlaygroundResources());
    assert uris[0] == "time://current" && uris[1] == "data://big_text" && uris[2] == "image://tiny_png_base64";
  }

  // ---------------------------------------------------------------------
  // Prompts

  function PlaygroundPrompts(): seq<Prompt> {
    [ Prompt("prompt_greet", "Generate a friendly greeting prompt for a given name",
             [PromptArgument("name", "The name of the person to greet", true)]) ]
  }

  /** What the body of `handle_get_prompt` returns or raises. */
  function PromptOutcome(name: string, args: Arguments): Outcome<GetPromptResult> {
    if name == "prompt_greet" then
      var targetName := ToStr(Get(args, "name", StrV("World")));
      Ok(GetPromptResult("Greeting prompt for " + targetName,
                         [PromptMessage(User, Text("Write a friendly greeting for " + targetName + "."))]))
    else Err("Unknown prompt: " + name)
  }

  function PromptResponded(r: EntryRecord, o: Outcome<GetPromptResult>, elapsed: Duration): EntryRecord {
    if o.Ok? then Responded(r, Some(PromptGenerated), None, Some(elapsed))
    else Responded(r, None, Some(o.message), Some(elapsed))
  }

  /** `prompt_greet` yields one user message; the name defaults to "World".
      Every other prompt name raises. */
  lemma GreetPrompt(name: string, args: Arguments)
    ensures PromptOutcome(name, args).Ok? <==> name == "prompt_greet"
    ensures name == "prompt_greet" && "name" !in args ==>
              PromptOutcome(name, args).value.messages
              == [PromptMessage(User, Text("Write a friendly greeting for World."))]
    ensures name != "prompt_greet" ==> PromptOutcome(name, args) == Err("Unknown prompt: " + name)
  {
    assert "Write a friendly greeting for " + "World" + "." == "Write a friendly greeting for World.";
  }

  // ---------------------------------------------------------------------
  // The server

  /** `MCPPlaygroundServer`: its logger and its `counter`. */
  class PlaygroundServer {
    const logger: ComprehensiveLogger
    var counter: int

    ghost predicate Valid()
      reads this, logger
    {
      logger.Valid()
    }

    constructor ()
      ensures Valid() && fresh(logger)
      ensures counter == 0 && logger.memoryLogs == [] && logger.maxMemoryLogs == DefaultMaxMemoryLogs
    {
      logger := new ComprehensiveLogger(DefaultMaxMemoryLogs);
      counter := 0;
    }

    /** `handle_list_tools` */
    method ListTools(env: Env) returns (tools: seq<Tool>, ghost entry: LogEntry)
      requires Valid()
      modifies logger
      ensures Valid() && fresh(entry) && tools == PlaygroundTools()
      ensures logger.memoryLogs == BoundedAppend(old(logger.memoryLogs), entry, logger.maxMemoryLogs)
      ensures entry.View() == Responded(NewRecord(env.now, "TOOLS", "list_tools", None, map[], MethodOnly("tools/list")),
                                        Some(Listing("tools", ToolNames(tools))), None, Some(env.elapsed))
    {
      var e := logger.LogRequest("TOOLS", "list_tools", None, None, Some(MethodOnly("tools/list")), env.now);
      tools := PlaygroundTools();
      logger.LogResponse(e, Some(Listing("tools", ToolNames(tools))), None, Some(env.elapsed));
      entry := e;
    }

    /** The loop of the `countdown` branch: one line and one stream event
        per count, from n down to 1. */
    method Countdown(entry: LogEntry, n: int, now: string) returns (content: string)
      modifies entry
      ensures content == CountdownText(CountdownLines(n))
      ensures entry.View() == Streamed(old(entry.View()), CountdownEvents(n, now))
    {
      var countdownText: seq<string> := [];
      ghost var events: seq<StreamEvent> := [];
      var i := n;
      while i > 0
        invariant if n > 0 then 0 <= i <= n else i == n
        invariant |countdownText| == |events| == n - i
        invariant forall k :: 0 <= k < n - i ==> countdownText[k] == CountdownLine(n - k)
        invariant forall k :: 0 <= k < n - i ==> events[k] == StreamEvent(now, n - k, n - k - 1)
        invariant entry.View() == Streamed(old(entry.View()), events)
      {
        countdownText := countdownText + [CountdownLine(i)];
        logger.LogStreamEvent(entry, i, i - 1, now);
        StreamedTwice(old(entry.View()), events, [StreamEvent(now, i, i - 1)]);
        events := events + [StreamEvent(now, i, i - 1)];
        i := i - 1;
      }
      assert countdownText == CountdownLines(n);
      assert events == CountdownEvents(n, now);
      content := CountdownText(countdownText);
    }

    /** `handle_call_tool`: logs the request, runs the branch for `name`,
        logs success or the error, and always answers with one text item. */
    method CallTool(name: string, arguments: Arguments, env: Env) returns (reply: seq<TextContent>, ghost entry: LogEntry)
      requires Valid()
      modifies this, logger
      ensures Valid() && fresh(entry)
      ensures logger.memoryLogs == BoundedAppend(old(logger.memoryLogs), entry, logger.maxMemoryLogs)
      ensures counter == old(counter) + (if name == "increment_counter" then 1 else 0)
      ensures var o := ToolOutcome(name, arguments, old(counter), |logger.memoryLogs|, env);
              && reply == ToolReply(o)
              && entry.View() == ToolResponded(
                   Streamed(NewRecord(env.now, "TOOL_CALL", "call_tool", Some(name), arguments,
                                      NamedCall("tools/call", name, arguments)),
                            ToolStreamEvents(name, arguments, env.now)),
                   o, env.elapsed)
    {
      var e := logger.LogRequest("TOOL_CALL", "call_tool", Some(name), Some(arguments),
                                 Some(NamedCall("tools/call", name, arguments)), env.now);
      var outcome := RunTool(e, name, arguments, env);
      reply := RespondToTool(e, outcome, env.elapsed);
      entry := e;
    }

    /** How `handle_call_tool` logs the outcome and answers. */
    method RespondToTool(e: LogEntry, outcome: Outcome<string>, elapsed: Duration) returns (reply: seq<TextContent>)
      modifies e
      ensures reply == ToolReply(outcome)
      ensures e.View() == ToolResponded(old(e.View()), outcome, elapsed)
    {
      if outcome.Ok? {
        logger.LogResponse(e, Some(ResultSuccess), None, Some(elapsed));
        reply := [Text(outcome.value)];
      } else {
        logger.LogResponse(e, None, Some(outcome.message), Some(elapsed));
        reply := [Text("Error: " + outcome.message)];
      }
    }

    /** The body of `handle_call_tool` between logging the request and
        logging the response: the branch for `name`, with the countdown's
        stream events added to `entry` and the counter bumped by
        `increment_counter`. */
    method RunTool(entry: LogEntry, name: string, arguments: Arguments, env: Env) returns (outcome: Outcome<string>)
      modifies this, entry
      ensures counter == old(counter) + (if name == "increment_counter" then 1 else 0)
      ensures outcome == ToolOutcome(name, arguments, old(counter), |logger.memoryLogs|, env)
      ensures entry.View() == Streamed(old(entry.View()), ToolStreamEvents(name, arguments, env.now))
    {
      ghost var before := entry.View();
      if name == "add" {
        outcome := AddTool(arguments);
        StreamedNothing(before);
      } else if name == "fail_on_purpose" {
        outcome := FailOnPurpose(arguments);
        StreamedNothing(before);
      } else if name == "countdown" {
        var n := Get(arguments, "n", IntV(5));
        if n.IntV? {
          var content := Countdown(entry, n.i, env.now);
          outcome := Ok(content);
        } else {
          outcome := Err(NotAnInteger(n));
          StreamedNothing(before);
        }
      } else if name == "increment_counter" {
        counter := counter + 1;
        var currentCount := counter;
        outcome := Ok("Counter incremented to: " + IntToString(currentCount));
        StreamedNothing(before);
      } else if name == "get_server_info" {
        var logs := logger.GetLogs(None);
        assert |logs| == |logger.memoryLogs|;
        outcome := Ok(ServerInfoText(counter, |logs|, env));
        StreamedNothing(before);
      } else {
        outcome := Err("Unknown tool: " + name);
        StreamedNothing(before);
      }
    }

    /** `handle_list_resources` */
    method ListResources(env: Env) returns (resources: seq<Resource>, ghost entry: LogEntry)
      requires Valid()
      modifies logger
      ensures Valid() && fresh(entry) && resources == PlaygroundResources()
      ensures logger.memoryLogs == BoundedAppend(old(logger.memoryLogs), entry, logger.maxMemoryLogs)
      ensures entry.View() == Responded(NewRecord(env.now, "RESOURCES", "list_resources", None, map[],
                                                  MethodOnly("resources/list")),
                                        Some(Listing("resources", ResourceUris(resources))), None, Some(env.elapsed))
    {
      var e := logger.LogRequest("RESOURCES", "list_resources", None, None, Some(MethodOnly("resources/list")), env.now);
      resources := PlaygroundResources();
      logger.LogResponse(e, Some(Listing("resources", ResourceUris(resources))), None, Some(env.elapsed));
      entry := e;
    }

    /** `handle_read_resource`: an unknown URI is logged as an error and
        answered with an error text instead of raising. */
    method ReadResource(uri: string, env: Env) returns (content: string, ghost entry: LogEntry)
      requires Valid()
      modifies logger
      ensures Valid() && fresh(entry)
      ensures logger.memoryLogs == BoundedAppend(old(logger.memoryLogs), entry, logger.maxMemoryLogs)
      ensures content == ResourceReply(uri, ResourceOutcome(uri, env))
      ensures entry.View() == ResourceResponded(NewRecord(env.now, "RESOURCE_READ", "read_resource", Some(uri), map[],
                                                          UriRead("resources/read", uri)),
                                                ResourceOutcome(uri, env), env.elapsed)
    {
      var e := logger.LogRequest("RESOURCE_READ", "read_resource", Some(uri), None,
                                 Some(UriRead("resources/read", uri)), env.now);
      var outcome := ResourceOutcome(uri, env);
      if outcome.Ok? {
        content := outcome.value;
        logger.LogResponse(e, Some(ContentLength(|content|)), None, Some(env.elapsed));
      } else {
        logger.LogResponse(e, None, Some(outcome.message), Some(env.elapsed));
        content := "Error reading resource '" + uri + "': " + outcome.message;
      }
      entry := e;
    }

    /** `handle_list_prompts` */
    method ListPrompts(env: Env) returns (prompts: seq<Prompt>, ghost entry: LogEntry)
      requires Valid()
      modifies logger
      ensures Valid() && fresh(entry) && prompts == PlaygroundPrompts()
      ensures logger.memoryLogs == BoundedAppend(old(logger.memoryLogs), entry, logger.maxMemoryLogs)
      ensures entry.View() == Responded(NewRecord(env.now, "PROMPTS", "list_prompts", None, map[],
                                                  MethodOnly("prompts/list")),
                                        Some(Listing("prompts", PromptNames(prompts))), None, Some(env.elapsed))
    {
      var e := logger.LogRequest("PROMPTS", "list_prompts", None, None, Some(MethodOnly("prompts/list")), env.now);
      prompts := PlaygroundPrompts();
      logger.LogResponse(e, Some(Listing("prompts", PromptNames(prompts))), None, Some(env.elapsed));
      entry := e;
    }

    /** `handle_get_prompt`: an unknown prompt is logged as an error and
        then raised, which `Err` stands for here. */
    method GetPrompt(name: string, arguments: Arguments, env: Env)
      returns (result: Outcome<GetPromptResult>, ghost entry: LogEntry)
      requires Valid()
      modifies logger
      ensures Valid() && fresh(entry)
      ensures logger.memoryLogs == BoundedAppend(old(logger.memoryLogs), entry, logger.maxMemoryLogs)
      ensures result == PromptOutcome(name, arguments)
      ensures entry.View() == PromptResponded(NewRecord(env.now, "PROMPT_GET", "get_prompt", Some(name), arguments,
                                                        NamedCall("prompts/get", name, arguments)),
                                              result, env.elapsed)
    {
      var e := logger.LogRequest("PROMPT_GET", "get_prompt", Some(name), Some(arguments),
                                 Some(NamedCall("prompts/get", name, arguments)), env.now);
      result := PromptOutcome(name, arguments);
      if result.Ok? {
        logger.LogResponse(e, Some(PromptGenerated), None, Some(env.elapsed));
      } else {
        logger.LogResponse(e, None, Some(result.message), Some(env.elapsed));
      }
      entry := e;
    }

    /** `get_comprehensive_logs(limit)`: the records of `get_logs(limit)`. */
    function ComprehensiveLogs(limit: Option<int>): (records: seq<EntryRecord>)
      reads this, logger, logger.memoryLogs
      ensures records == RecentLogs(Views(logger.memoryLogs), limit)
    {
      ViewsRecent(logger.memoryLogs, limit);
      Views(logger.GetLogs(limit))
    }
  }
}
