/** mcp_server_advanced.py: the `MCPLogger` with its bounded in-memory log
    and its log table, and the handlers of `AdvancedMCPServer` with the
    two registries that listing fills. */
module Advanced {
  import opened PyValues
  import opened PyCollections
  import opened McpTypes

  const DefaultMaxMemoryLogs: nat := 1000

  /** `asdict(entry)` */
  datatype EntryRecord = EntryRecord(
    timestamp: string,
    requestType: string,
    operation: string,
    name: Option<string>,
    parameters: Arguments,
    requestPayload: RequestPayload,
    responsePayload: Option<ResponsePayload>,
    responseTimeMs: Option<Duration>,
    error: Option<string>,
    success: bool)

  /** The record `log_request` creates: no response yet, `success` at its default. */
  function NewRecord(timestamp: string, requestType: string, operation: string, name: Option<string>,
                     parameters: Arguments, requestPayload: RequestPayload): EntryRecord
  {
    EntryRecord(timestamp, requestType, operation, name, parameters, requestPayload, None, None, None, true)
  }

  /** What `log_response` does to a record: the payload, error and time
      passed in are stored, and `success` is `error is None`. */
  function Responded(r: EntryRecord, payload: Option<ResponsePayload>, error: Option<string>,
                     responseTimeMs: Option<Duration>): (r': EntryRecord)
    ensures r'.responsePayload == payload && r'.error == error && r'.responseTimeMs == responseTimeMs
    ensures r'.success <==> error == None
    ensures r'.(responsePayload := r.responsePayload, error := r.error, success := r.success,
                responseTimeMs := r.responseTimeMs) == r
  {
    r.(responsePayload := payload, error := error, success := error == None, responseTimeMs := responseTimeMs)
  }

  /** The `LogEntry` dataclass; `log_response` fills in the last four fields. */
  class LogEntry {
    const timestamp: string
    const requestType: string
    const operation: string
    const name: Option<string>
    const parameters: Arguments
    const requestPayload: RequestPayload
    var responsePayload: Option<ResponsePayload>
    var responseTimeMs: Option<Duration>
    var error: Option<string>
    var success: bool

    constructor (timestamp: string, requestType: string, operation: string, name: Option<string>,
                 parameters: Arguments, requestPayload: RequestPayload)
      ensures View() == NewRecord(timestamp, requestType, operation, name, parameters, requestPayload)
    {
      this.timestamp := timestamp;
      this.requestType := requestType;
      this.operation := operation;
      this.name := name;
      this.parameters := parameters;
      this.requestPayload := requestPayload;
      responsePayload := None;
      responseTimeMs := None;
      error := None;
      success := true;
    }

    function View(): EntryRecord
      reads this
    {
      EntryRecord(timestamp, requestType, operation, name, parameters, requestPayload,
                  responsePayload, responseTimeMs, error, success)
    }
  }

  function Views(logs: seq<LogEntry>): (r: seq<EntryRecord>)
    reads logs
    ensures |r| == |logs| && forall i :: 0 <= i < |logs| ==> r[i] == logs[i].View()
  {
    seq(|logs|, i requires 0 <= i < |logs| reads logs => logs[i].View())
  }

  /** Picking the recent entries and then reading them gives the records
      picked from the read log. */
  lemma ViewsRecent(logs: seq<LogEntry>, limit: Option<int>)
    ensures Views(RecentLogs(logs, limit)) == RecentLogs(Views(logs), limit)
  {
    var r, v := RecentLogs(logs, limit), RecentLogs(Views(logs), limit);
    if !(limit == None || limit == Some(0)) {
      var k := SliceStart(-limit.value, |logs|);
      assert r == logs[k..] && v == Views(logs)[k..];
    }
  }

  /** Reading the entries of a log after an append gives the records
      before it with the new record appended the same way. */
  lemma ViewsBoundedAppend(logs: seq<LogEntry>, entry: LogEntry, maxlen: nat)
    requires |logs| <= maxlen
    ensures Views(BoundedAppend(logs, entry, maxlen)) == BoundedAppend(Views(logs), entry.View(), maxlen)
  {
    var after, expected := BoundedAppend(logs, entry, maxlen), BoundedAppend(Views(logs), entry.View(), maxlen);
    forall k | 0 <= k < |expected|
      ensures Views(after)[k] == expected[k]
    {
      var off := |logs| + 1 - |expected|;
      assert (Views(logs) + [entry.View()])[off + k] == (logs + [entry])[off + k].View();
    }
  }

  // ---------------------------------------------------------------------
  // The log table

  type Row = seq<string>

  const TableHeaders: seq<string> := ["Timestamp", "Type", "Operation", "Name", "Success", "Duration (ms)"]

  /** `s[:n]` */
  function Prefix(s: string, n: nat): (p: string)
    ensures |p| == Min(n, |s|) && p == s[..|p|]
  {
    if |s| <= n then s else s[..n]
  }

  /** One row of `get_logs_table`. A name or duration that Python finds
      falsy (None, the empty name, a zero duration) is shown as "-". */
  function RowOf(r: EntryRecord): Row {
    [ Prefix(r.timestamp, 19),
      r.requestType,
      r.operation,
      if r.name.Some? && r.name.value != "" then r.name.value else "-",
      if r.success then "\U{2705}" else "\U{274C}",
      if r.responseTimeMs.Some? && r.responseTimeMs.value.hundredths != 0 then FormatMillis(r.responseTimeMs.value) else "-" ]
  }

  function Rows(records: seq<EntryRecord>): (rows: seq<Row>)
    ensures |rows| == |records| && forall k :: 0 <= k < |records| ==> rows[k] == RowOf(records[k])
  {
    seq(|records|, k requires 0 <= k < |records| => RowOf(records[k]))
  }

  /** The table `get_logs_table` returns for the selected records; the
      grid layout is `tabulate`'s and is a parameter here. */
  function LogsTable(records: seq<EntryRecord>, tabulate: (seq<string>, seq<Row>) -> string): string {
    if records == [] then "No logs available" else tabulate(TableHeaders, Rows(records))
  }

  /** What each cell of a row shows. */
  lemma RowCells(r: EntryRecord)
    ensures |RowOf(r)| == 6
    ensures RowOf(r)[0] == r.timestamp[..Min(19, |r.timestamp|)]
    ensures RowOf(r)[1] == r.requestType && RowOf(r)[2] == r.operation
    ensures RowOf(r)[3] == "-" <==> r.name == None || r.name == Some("") || r.name == Some("-")
    ensures RowOf(r)[4] == "\U{2705}" <==> r.success
    ensures RowOf(r)[5] == "-" <==> r.responseTimeMs == None || r.responseTimeMs.value.hundredths == 0
  {
    if r.responseTimeMs.Some? && r.responseTimeMs.value.hundredths != 0 {
      var f := FormatMillis(r.responseTimeMs.value);
      assert |f| >= 4;
    }
  }

  /** With a positive limit, the table shows the newest `min(limit, len)`
      records, one row each, oldest first; an empty log gives the fixed
      message. */
  lemma LogsTableRecent(records: seq<EntryRecord>, limit: int, tabulate: (seq<string>, seq<Row>) -> string)
    requires limit > 0
    ensures records == [] ==> LogsTable(RecentLogs(records, Some(limit)), tabulate) == "No logs available"
    ensures records != [] ==>
              var m := Min(limit, |records|);
              LogsTable(RecentLogs(records, Some(limit)), tabulate)
              == tabulate(TableHeaders, seq(m, k requires 0 <= k < m => RowOf(records[|records| - m + k])))
  {
    var r := RecentLogs(records, Some(limit));
    if records != [] {
      var m := Min(limit, |records|);
      assert |r| == m && r == records[|records| - m..];
      assert Rows(r) == seq(m, k requires 0 <= k < m => RowOf(records[|records| - m + k]));
    }
  }

  // ---------------------------------------------------------------------
  // The logger

  /** `MCPLogger`: `memory_logs` is a `deque(maxlen=max_memory_logs)`. */
  class MCPLogger {
    const maxMemoryLogs: nat
    var memoryLogs: seq<LogEntry>

    ghost predicate Valid()
      reads this
    {
      |memoryLogs| <= maxMemoryLogs
    }

    constructor (maxMemoryLogs: nat)
      ensures Valid() && this.maxMemoryLogs == maxMemoryLogs && memoryLogs == []
    {
      this.maxMemoryLogs := maxMemoryLogs;
      memoryLogs := [];
    }

    /** `log_request`: one new entry at the end, the oldest evicted when full. */
    method LogRequest(requestType: string, operation: string, name: Option<string>,
                      parameters: Option<Arguments>, requestPayload: Option<RequestPayload>, now: string)
      returns (entry: LogEntry)
      requires Valid()
      modifies this
      ensures Valid() && fresh(entry)
      ensures memoryLogs == BoundedAppend(old(memoryLogs), entry, maxMemoryLogs)
      ensures entry.View() == NewRecord(now, requestType, operation, name,
                                        parameters.GetOr(map[]), requestPayload.GetOr(EmptyPayload))
      ensures Views(memoryLogs) == BoundedAppend(old(Views(memoryLogs)), entry.View(), maxMemoryLogs)
    {
      ghost var before := Views(memoryLogs);
      entry := new LogEntry(now, requestType, operation, name,
                            parameters.GetOr(map[]), requestPayload.GetOr(EmptyPayload));
      memoryLogs := BoundedAppend(memoryLogs, entry, maxMemoryLogs);
      assert Views(old(memoryLogs)) == before;
      ViewsBoundedAppend(old(memoryLogs), entry, maxMemoryLogs);
    }

    /** `log_response`: fills in the response of one entry and nothing else. */
    method LogResponse(entry: LogEntry, responsePayload: Option<ResponsePayload>, error: Option<string>,
                       responseTimeMs: Option<Duration>)
      modifies entry
      ensures entry.View() == Responded(old(entry.View()), responsePayload, error, responseTimeMs)
      ensures forall i :: 0 <= i < |memoryLogs| && memoryLogs[i] != entry ==>
                memoryLogs[i].View() == old(memoryLogs[i].View())
    {
      entry.responsePayload := responsePayload;
      entry.error := error;
      entry.success := error == None;
      entry.responseTimeMs := responseTimeMs;
    }

    /** `get_logs(limit)` */
    function GetLogs(limit: Option<int>): (logs: seq<LogEntry>)
      reads this
      ensures |logs| <= |memoryLogs| && logs == memoryLogs[|memoryLogs| - |logs|..]
      ensures limit == None || limit == Some(0) ==> logs == memoryLogs
      ensures limit.Some? && limit.value > 0 ==> |logs| == Min(limit.value, |memoryLogs|)
    {
      RecentLogs(memoryLogs, limit)
    }

    /** `get_logs_table(limit)`: one row per selected entry, in order, or
        "No logs available" when none is selected. */
    method GetLogsTable(limit: Option<int>, tabulate: (seq<string>, seq<Row>) -> string) returns (table: string)
      ensures table == LogsTable(RecentLogs(Views(memoryLogs), limit), tabulate)
    {
      var logs := GetLogs(limit);
      ViewsRecent(memoryLogs, limit);
      if logs == [] {
        return "No logs available";
      }
      var rows := TableRows(logs);
      table := tabulate(TableHeaders, rows);
    }
  }

  /** The loop of `get_logs_table` that builds one row per entry. */
  method TableRows(logs: seq<LogEntry>) returns (rows: seq<Row>)
    ensures rows == Rows(Views(logs))
  {
    ghost var records := Views(logs);
    rows := [];
    var i := 0;
    while i < |logs|
      invariant 0 <= i <= |logs|
      invariant |rows| == i && forall k :: 0 <= k < i ==> rows[k] == RowOf(records[k])
    {
      rows := rows + [RowOf(logs[i].View())];
      i := i + 1;
    }
  }

  /** The clock, the environment and the library code one handler call
      relies on. */
  datatype Env = Env(
    now: string,                                     // datetime.now().isoformat()
    elapsed: Duration,                               // the measured response time
    platform: string,                                // platform.platform()
    pythonVersion: string,                           // platform.python_version()
    workingDirectory: string,                        // os.getcwd()
    tabulate: (seq<string>, seq<Row>) -> string,     // tabulate(rows, headers, tablefmt="grid")
    eval: string -> Outcome<string>)                 // str(eval(expression)), or the exception's text

  // ---------------------------------------------------------------------
  // Tools

  function AdvancedTools(): seq<Tool> {
    [ Tool("get_server_logs", "Display recent server operation logs in a formatted table"),
      Tool("test_tool", "Test any registered tool with sample parameters"),
      Tool("hello-world", "Says hello world - demo tool"),
      Tool("calculate", "Perform basic mathematical calculations"),
      Tool("get_system_info", "Get basic system information") ]
  }

  /** `(t.name, t)` for each tool, the assignments listing performs */
  function ToolItems(tools: seq<Tool>): (items: seq<(string, Tool)>)
    ensures |items| == |tools| && forall i :: 0 <= i < |tools| ==> items[i] == (tools[i].name, tools[i])
  {
    seq(|tools|, i requires 0 <= i < |tools| => (tools[i].name, tools[i]))
  }

  /** The `get_server_logs` branch over the log as it stands during the
      call. `min(limit, len)` and `-limit` raise for a non-int limit. */
  function ServerLogsOutcome(limitArg: Value, records: seq<EntryRecord>,
                             tabulate: (seq<string>, seq<Row>) -> string): Outcome<string>
  {
    match limitArg
    case IntV(limit) =>
      Ok(ServerLogsText(Min(limit, |records|), LogsTable(RecentLogs(records, Some(limit)), tabulate)))
    case StrV(s) =>
      if s != "" then Err("bad operand type for unary -: 'str'")
      else Err("'<' not supported between instances of 'int' and 'str'")
    case NoneV => Err("'<' not supported between instances of 'int' and 'NoneType'")
  }

  /** the summary line and the table in a fenced block */
  function ServerLogsText(count: int, table: string): string {
    "## Server Logs\n\n" + "Showing " + IntToString(count) + " recent log entries" + "\n\n```\n" + table + "\n```"
  }

  /** The `test_tool` branch; `tool_name` defaults to None and the
      parameters to `{}`. */
  function TestToolText(args: Arguments, registry: Dict<Tool>): string {
    var toolName := Get(args, "tool_name", NoneV);
    var params := if "parameters" in args then JsonDumps(args["parameters"]) else "{}";
    if toolName.StrV? && toolName.s in registry.values then
      "Testing tool '" + (toolName.s + "' with parameters: " + params)
    else
      "Tool '" + (ToStr(toolName) + "' not found. Available tools: " + ReprNames(registry.keys))
  }

  /** The `hello-world` branch */
  function HelloText(args: Arguments): string {
    "Hello, " + ToStr(Get(args, "name", StrV("World"))) + "! \U{1F30D}"
  }

  /** `all(c in allowed_chars for c in expression)` */
  function AllAllowed(s: string): (r: bool)
    ensures r <==> forall i :: 0 <= i < |s| ==> s[i] in "0123456789+-*/.() "
  {
    if s == [] then true else s[0] in "0123456789+-*/.() " && AllAllowed(s[1..])
  }

  /** The fixed text `calculate` answers with when the expression holds a
      character outside its whitelist. */
  const InvalidExpression: string := "Invalid expression." + " Only basic math operations allowed."

  /** The `calculate` branch: `expression` defaults to ""; iterating over a
      non-string raises, and so may `eval`; both become a calculation error. */
  function CalculateText(args: Arguments, eval: string -> Outcome<string>): string {
    match Get(args, "expression", StrV(""))
    case StrV(e) =>
      if AllAllowed(e) then
        match eval(e)
        case Ok(v) => e + " = " + v
        case Err(m) => "Calculation error: " + m
      else InvalidExpression
    case v => "Calculation error: '" + TypeName(v) + "' object is not iterable"
  }

  /** The `get_system_info` branch: `json.dumps(info, indent=2)` in a fence */
  function SystemInfoText(env: Env): string {
    "## System Information\n\n```json\n"
    + "{\n"
    + "  \"platform\": " + JsonString(env.platform) + ",\n"
    + "  \"python_version\": " + JsonString(env.pythonVersion) + ",\n"
    + "  \"working_directory\": " + JsonString(env.workingDirectory) + ",\n"
    + "  \"timestamp\": " + JsonString(env.now) + "\n"
    + "}"
    + "\n```"
  }

  /** What the body of `handle_call_tool` returns or raises, given the log
      as it stands during the call and the tool registry. */
  function ToolOutcome(name: string, args: Arguments, records: seq<EntryRecord>, registry: Dict<Tool>, env: Env): Outcome<string> {
    if name == "get_server_logs" then ServerLogsOutcome(Get(args, "limit", IntV(20)), records, env.tabulate)
    else if name == "test_tool" then Ok(TestToolText(args, registry))
    else if name == "hello-world" then Ok(HelloText(args))
    else if name == "calculate" then Ok(CalculateText(args, env.eval))
    else if name == "get_system_info" then Ok(SystemInfoText(env))
    else Ok("Unknown tool: " + name)
  }

  function ToolReply(name: string, o: Outcome<string>): seq<TextContent> {
    [Text(if o.Ok? then o.value else "Error executing tool '" + name + "': " + o.message)]
  }

  function ToolResponded(r: EntryRecord, o: Outcome<string>, elapsed: Duration): EntryRecord {
    if o.Ok? then Responded(r, Some(ResultSuccess), None, Some(elapsed))
    else Responded(r, None, Some(o.message), Some(elapsed))
  }

  lemma AdvancedToolNames()
    ensures ToolNames(AdvancedTools()) == ["get_server_logs", "test_tool", "hello-world", "calculate", "get_system_info"]
  {
    var names := ToolNames(AdvancedTools());
    assert names[0] == "get_server_logs" && names[1] == "test_tool" && names[2] == "hello-world";
    assert names[3] == "calculate" && names[4] == "get_system_info";
  }

  /** Only `get_server_logs` with a limit that is not an int raises; every
      other call, an unknown tool name included, is logged as a success. */
  lemma ToolRaisesOnlyForBadLimit(name: string, args: Arguments, records: seq<EntryRecord>, registry: Dict<Tool>, env: Env)
    ensures ToolOutcome(name, args, records, registry, env).Err?
            <==> name == "get_server_logs" && !Get(args, "limit", IntV(20)).IntV?
    ensures name !in ToolNames(AdvancedTools()) ==>
              ToolOutcome(name, args, records, registry, env) == Ok("Unknown tool: " + name)
  {
    AdvancedToolNames();
  }

  /** The summary count and the number of rows shown agree for a positive
      limit; for a zero limit the table shows the whole log while the
      summary reports 0, and for a negative limit the summary is negative. */
  lemma {:induction false} ServerLogsSummary(limit: int, records: seq<EntryRecord>, tabulate: (seq<string>, seq<Row>) -> string)
    ensures limit > 0 ==>
              ServerLogsOutcome(IntV(limit), records, tabulate)
              == Ok(ServerLogsText(|RecentLogs(records, Some(limit))|, LogsTable(RecentLogs(records, Some(limit)), tabulate)))
    ensures limit == 0 ==>
              ServerLogsOutcome(IntV(limit), records, tabulate) == Ok(ServerLogsText(0, LogsTable(records, tabulate)))
    ensures limit < 0 ==>
              ServerLogsOutcome(IntV(limit), records, tabulate)
              == Ok(ServerLogsText(limit, LogsTable(records[Min(-limit, |records|)..], tabulate)))
  {
    if limit < 0 {
      assert RecentLogs(records, Some(limit)) == records[Min(-limit, |records|)..];
    }
  }

  /** `test_tool` reports "found" exactly for a str `tool_name` that is a
      registered name, and otherwise lists the registered names. */
  lemma TestToolFoundIff(args: Arguments, registry: Dict<Tool>)
    ensures var toolName := Get(args, "tool_name", NoneV);
            HasPrefix(TestToolText(args, registry), "Testing tool '")
            <==> toolName.StrV? && toolName.s in registry.values
    ensures var toolName := Get(args, "tool_name", NoneV);
            !(toolName.StrV? && toolName.s in registry.values) ==>
              TestToolText(args, registry)
              == "Tool '" + (ToStr(toolName) + "' not found. Available tools: " + ReprNames(registry.keys))
  {
    var toolName := Get(args, "tool_name", NoneV);
    var t := TestToolText(args, registry);
    if !(toolName.StrV? && toolName.s in registry.values) {
      assert t[1] == 'o' != "Testing tool '"[1];
    }
  }

  /** A missing name is greeted as "World". */
  lemma HelloDefault(args: Arguments)
    requires "name" !in args
    ensures HelloText(args) == "Hello, World! \U{1F30D}"
  {
    assert "Hello, " + "World" + "! \U{1F30D}" == "Hello, World! \U{1F30D}";
  }

  /** `calculate` answers exactly the fixed refusal when the expression is
      a str holding a character outside the whitelist. */
  lemma {:induction false} CalculateRefusesIff(args: Arguments, eval: string -> Outcome<string>)
    ensures var x := Get(args, "expression", StrV(""));
            CalculateText(args, eval) == InvalidExpression
            <==> x.StrV? && exists i :: 0 <= i < |x.s| && x.s[i] !in "0123456789+-*/.() "
  {
    var x := Get(args, "expression", StrV(""));
    var t := CalculateText(args, eval);
    assert InvalidExpression[0] == 'I';
    if x.StrV? && AllAllowed(x.s) {
      match eval(x.s)
      case Ok(v) =>
        assert t == x.s + " = " + v;
        if |x.s| > 0 {
          assert t[0] == x.s[0];
          assert x.s[0] in "0123456789+-*/.() ";
        } else {
          assert t == " = " + v;
        }
        assert t[0] != 'I';
      case Err(m) =>
        assert t == "Calculation error: " + m;
        assert t[0] != 'I';
    } else if !x.StrV? {
      assert t == "Calculation error: '" + TypeName(x) + "' object is not iterable";
      assert t[0] != 'I';
    }
  }

  /** The evaluator is consulted only for a whitelisted expression: when
      the expression is refused, any two evaluators give the same text. */
  lemma CalculateEvaluatesOnlyAllowed(args: Arguments, eval1: string -> Outcome<string>, eval2: string -> Outcome<string>)
    requires var x := Get(args, "expression", StrV(""));
             !(x.StrV? && AllAllowed(x.s))
    ensures CalculateText(args, eval1) == CalculateText(args, eval2)
  {
  }

  // ---------------------------------------------------------------------
  // Resources

  function AdvancedResources(): seq<Resource> {
    [ Resource("demo://server-info", "Server Information",
               "Basic information about this MCP server", "application/json"),
      Resource("demo://logs", "Server Logs", "Recent server operation logs", "text/plain") ]
  }

  /** `(r.uri, r)` for each resource */
  function ResourceItems(resources: seq<Resource>): (items: seq<(string, Resource)>)
    ensures |items| == |resources| && forall i :: 0 <= i < |resources| ==> items[i] == (resources[i].uri, resources[i])
  {
    seq(|resources|, i requires 0 <= i < |resources| => (resources[i].uri, resources[i]))
  }

  /** `json.dumps(info, indent=2)` for `demo://server-info` */
  function ServerInfoJson(toolsRegistered: nat, resourcesRegistered: nat, logsInMemory: nat, now: string): string {
    "{\n"
    + "  \"server_name\": \"Advanced MCP Server\",\n"
    + "  \"version\": \"1.0.0\",\n"
    + "  \"tools_registered\": " + IntToString(toolsRegistered) + ",\n"
    + "  \"resources_registered\": " + IntToString(resourcesRegistered) + ",\n"
    + "  \"uptime\": " + JsonString(now) + ",\n"
    + "  \"logs_in_memory\": " + IntToString(logsInMemory) + "\n"
    + "}"
  }

  /** What `handle_read_resource` returns, given the registry sizes and the
      log as it stands during the call. No URI raises. */
  function ResourceContent(uri: string, toolsRegistered: nat, resourcesRegistered: nat,
                           records: seq<EntryRecord>, env: Env): string {
    if uri == "demo://server-info" then ServerInfoJson(toolsRegistered, resourcesRegistered, |records|, env.now)
    else if uri == "demo://logs" then LogsTable(RecentLogs(records, Some(50)), env.tabulate)
    else "Resource not found: " + uri
  }

  /** An unlisted URI is answered, not raised, and the answer names it. */
  lemma UnknownResourceContent(uri: string, t: nat, r: nat, records: seq<EntryRecord>, env: Env)
    requires uri !in ResourceUris(AdvancedResources())
    ensures ResourceContent(uri, t, r, records, env) == "Resource not found: " + uri
  {
    var uris := ResourceUris(AdvancedResources());
    assert uris[0] == "demo://server-info" && uris[1] == "demo://logs";
  }

  /** `demo://logs` shows at most the 50 newest records. */
  lemma LogsResourceRecent(records: seq<EntryRecord>, env: Env)
    requires records != []
    ensures ResourceContent("demo://logs", 0, 0, records, env)
            == env.tabulate(TableHeaders, Rows(records[|records| - Min(50, |records|)..]))
  {
    var r := RecentLogs(records, Some(50));
    assert |r| == Min(50, |records|) && r == records[|records| - |r|..];
  }

  // ---------------------------------------------------------------------
  // Registries

  /** Listing the tools twice leaves the tool registry as listing them once does. */
  lemma ToolListingIdempotent(d: Dict<Tool>)
    ensures var items := ToolItems(AdvancedTools());
            PutAll(PutAll(d, items), items) == PutAll(d, items)
  {
    PutAllIdempotent(d, ToolItems(AdvancedTools()));
  }

  /** Listing the resources twice leaves the resource registry as listing them once does. */
  lemma ResourceListingIdempotent(d: Dict<Resource>)
    ensures var items := ResourceItems(AdvancedResources());
            PutAll(PutAll(d, items), items) == PutAll(d, items)
  {
    PutAllIdempotent(d, ResourceItems(AdvancedResources()));
  }

  /** The first listing fills the empty tool registry with the tool names
      in the order they are listed, so `list(registered_tools.keys())`
      gives that order. */
  lemma ToolRegistryOrder()
    ensures PutAll(EmptyDict<Tool>(), ToolItems(AdvancedTools())).keys == ToolNames(AdvancedTools())
  {
    var tools := AdvancedTools();
    var items := ToolItems(tools);
    AdvancedToolNames();
    assert forall a :: 0 <= a < |items| ==> items[a].0 == ToolNames(tools)[a];
    PutAllFreshKeys(EmptyDict<Tool>(), items);
    assert ItemKeys(items) == ToolNames(tools);
  }

  /** The first listing fills the empty resource registry with the URIs in
      the order they are listed. */
  lemma ResourceRegistryOrder()
    ensures PutAll(EmptyDict<Resource>(), ResourceItems(AdvancedResources())).keys
         == ResourceUris(AdvancedResources())
  {
    var resources := AdvancedResources();
    var items := ResourceItems(resources);
    assert items[0].0 == "demo://server-info" && items[1].0 == "demo://logs";
    PutAllFreshKeys(EmptyDict<Resource>(), items);
    assert ItemKeys(items) == ResourceUris(resources);
  }

  /** Once the tools have been listed, `test_tool` with an unknown name
      lists the five tool names in the order they were listed. */
  lemma TestToolAfterListing(args: Arguments)
    requires var toolName := Get(args, "tool_name", NoneV);
             !(toolName.StrV? && toolName.s in ToolNames(AdvancedTools()))
    ensures TestToolText(args, PutAll(EmptyDict<Tool>(), ToolItems(AdvancedTools())))
         == "Tool '" + (ToStr(Get(args, "tool_name", NoneV)) + "' not found. Available tools: "
                        + ReprNames(["get_server_logs", "test_tool", "hello-world", "calculate", "get_system_info"]))
  {
    var registry := PutAll(EmptyDict<Tool>(), ToolItems(AdvancedTools()));
    ToolRegistryOrder();
    AdvancedToolNames();
    PutAllValues(EmptyDict<Tool>(), ToolItems(AdvancedTools()));
    var toolName := Get(args, "tool_name", NoneV);
    var key := if toolName.StrV? then toolName.s else "";
    ItemsMapDomain(ToolItems(AdvancedTools()), key);
    assert ItemKeys(ToolItems(AdvancedTools())) == ToolNames(AdvancedTools());
    TestToolFoundIff(args, registry);
  }

  /** After listing, each listed tool is registered under its own name. */
  lemma {:induction false} ToolsRegisteredByName(d: Dict<Tool>, i: nat)
    requires i < |AdvancedTools()|
    ensures var tools := AdvancedTools();
            tools[i].name in PutAll(d, ToolItems(tools)).values
            && PutAll(d, ToolItems(tools)).values[tools[i].name] == tools[i]
  {
    var tools := AdvancedTools();
    var items := ToolItems(tools);
    AdvancedToolNames();
    assert forall a, b :: 0 <= a < b < |items| ==> items[a].0 != items[b].0 by {
      assert forall a :: 0 <= a < |items| ==> items[a].0 == ToolNames(tools)[a];
    }
    PutAllDistinct(d, items, i);
  }

  /** After listing, each listed resource is registered under its URI. */
  lemma {:induction false} ResourcesRegisteredByUri(d: Dict<Resource>, i: nat)
    requires i < |AdvancedResources()|
    ensures var resources := AdvancedResources();
            resources[i].uri in PutAll(d, ResourceItems(resources)).values
            && PutAll(d, ResourceItems(resources)).values[resources[i].uri] == resources[i]
  {
    var resources := AdvancedResources();
    var items := ResourceItems(resources);
    assert items[0].0 == "demo://server-info" && items[1].0 == "demo://logs";
    PutAllDistinct(d, items, i);
  }

  // ---------------------------------------------------------------------
  // The server

  /** `AdvancedMCPServer`: its logger and the two registries. */
  class AdvancedServer {
    const logger: MCPLogger
    var registeredTools: Dict<Tool>
    var registeredResources: Dict<Resource>

    ghost predicate Valid()
      reads this, logger
    {
      logger.Valid() && RegistriesValid()
    }

    /** Each registry is a well-formed dict. */
    ghost predicate RegistriesValid()
      reads this
    {
      registeredTools.Valid() && registeredResources.Valid()
    }

    constructor ()
      ensures Valid() && fresh(logger)
      ensures logger.memoryLogs == [] && logger.maxMemoryLogs == DefaultMaxMemoryLogs
      ensures registeredTools == EmptyDict() && registeredResources == EmptyDict()
    {
      logger := new MCPLogger(DefaultMaxMemoryLogs);
      registeredTools := EmptyDict();
      registeredResources := EmptyDict();
    }

    /** `for tool in tools: self.registered_tools[tool.name] = tool` */
    method RegisterTools(tools: seq<Tool>)
      requires registeredTools.Valid()
      modifies this
      ensures registeredTools.Valid() && registeredTools == PutAll(old(registeredTools), ToolItems(tools))
      ensures registeredResources == old(registeredResources)
    {
      ghost var items := ToolItems(tools);
      var i := 0;
      while i < |tools|
        invariant 0 <= i <= |tools|
        invariant registeredTools == PutAll(old(registeredTools), items[..i])
        invariant registeredTools.Valid() && registeredResources == old(registeredResources)
      {
        assert items[..i + 1][..i] == items[..i];
        registeredTools := registeredTools.Put(tools[i].name, tools[i]);
        i := i + 1;
      }
      assert items[..|tools|] == items;
    }

    /** `for resource in resources: self.registered_resources[resource.uri] = resource` */
    method RegisterResources(resources: seq<Resource>)
      requires registeredResources.Valid()
      modifies this
      ensures registeredResources.Valid() && registeredResources == PutAll(old(registeredResources), ResourceItems(resources))
      ensures registeredTools == old(registeredTools)
    {
      ghost var items := ResourceItems(resources);
      var i := 0;
      while i < |resources|
        invariant 0 <= i <= |resources|
        invariant registeredResources == PutAll(old(registeredResources), items[..i])
        invariant registeredResources.Valid() && registeredTools == old(registeredTools)
      {
        assert items[..i + 1][..i] == items[..i];
        registeredResources := registeredResources.Put(resources[i].uri, resources[i]);
        i := i + 1;
      }
      assert items[..|resources|] == items;
    }

    /** `handle_list_tools`: registers each tool under its name. */
    method ListTools(env: Env) returns (tools: seq<Tool>, ghost entry: LogEntry)
      requires Valid()
      modifies this, logger
      ensures Valid() && fresh(entry) && tools == AdvancedTools()
      ensures registeredTools == PutAll(old(registeredTools), ToolItems(tools))
      ensures registeredResources == old(registeredResources)
      ensures logger.memoryLogs == BoundedAppend(old(logger.memoryLogs), entry, logger.maxMemoryLogs)
      ensures entry.View() == Responded(NewRecord(env.now, "TOOLS", "list_tools", None, map[], MethodOnly("tools/list")),
                                        Some(Listing("tools", ToolNames(tools))), None, Some(env.elapsed))
    {
      var e := logger.LogRequest("TOOLS", "list_tools", None, None, Some(MethodOnly("tools/list")), env.now);
      tools := AdvancedTools();
      RegisterTools(tools);
      logger.LogResponse(e, Some(Listing("tools", ToolNames(tools))), None, Some(env.elapsed));
      entry := e;
    }

    /** `handle_list_resources`: registers each resource under its URI. */
    method ListResources(env: Env) returns (resources: seq<Resource>, ghost entry: LogEntry)
      requires Valid()
      modifies this, logger
      ensures Valid() && fresh(entry) && resources == AdvancedResources()
      ensures registeredResources == PutAll(old(registeredResources), ResourceItems(resources))
      ensures registeredTools == old(registeredTools)
      ensures logger.memoryLogs == BoundedAppend(old(logger.memoryLogs), entry, logger.maxMemoryLogs)
      ensures entry.View() == Responded(NewRecord(env.now, "RESOURCES", "list_resources", None, map[],
                                                  MethodOnly("resources/list")),
                                        Some(Listing("resources", ResourceUris(resources))), None, Some(env.elapsed))
    {
      var e := logger.LogRequest("RESOURCES", "list_resources", None, None, Some(MethodOnly("resources/list")), env.now);
      resources := AdvancedResources();
      RegisterResources(resources);
      logger.LogResponse(e, Some(Listing("resources", ResourceUris(resources))), None, Some(env.elapsed));
      entry := e;
    }

    /** The `get_server_logs` branch, run against the current log. */
    method ServerLogs(limitArg: Value, tabulate: (seq<string>, seq<Row>) -> string) returns (o: Outcome<string>)
      ensures o == ServerLogsOutcome(limitArg, Views(logger.memoryLogs), tabulate)
    {
      match limitArg
      case IntV(limit) =>
        var logsTable := logger.GetLogsTable(Some(limit), tabulate);
        var count := |logger.GetLogs(None)|;
        o := Ok(ServerLogsText(Min(limit, count), logsTable));
      case StrV(s) =>
        if s != "" {
          o := Err("bad operand type for unary -: 'str'");
        } else {
          o := Err("'<' not supported between instances of 'int' and 'str'");
        }
      case NoneV =>
        o := Err("'<' not supported between instances of 'int' and 'NoneType'");
    }

    /** `handle_call_tool`: logs the request, runs the branch for `name`
        against the log that already holds this request, and logs the
        outcome; an exception becomes an error text. */
    method CallTool(name: string, arguments: Arguments, env: Env) returns (reply: seq<TextContent>, ghost entry: LogEntry)
      requires Valid()
      modifies logger
      ensures Valid() && fresh(entry)
      ensures logger.memoryLogs == BoundedAppend(old(logger.memoryLogs), entry, logger.maxMemoryLogs)
      ensures var request := NewRecord(env.now, "TOOL_CALL", "call_tool", Some(name), arguments,
                                       NamedCall("tools/call", name, arguments));
              var o := ToolOutcome(name, arguments, BoundedAppend(old(Views(logger.memoryLogs)), request, logger.maxMemoryLogs),
                                   registeredTools, env);
              reply == ToolReply(name, o) && entry.View() == ToolResponded(request, o, env.elapsed)
    {
      var e := logger.LogRequest("TOOL_CALL", "call_tool", Some(name), Some(arguments),
                                 Some(NamedCall("tools/call", name, arguments)), env.now);
      var outcome := RunTool(name, arguments, env);
      reply := RespondToTool(e, name, outcome, env.elapsed);
      entry := e;
    }

    /** The body of `handle_call_tool` between logging the request and
        logging the outcome, run against the current log and registry. */
    method RunTool(name: string, arguments: Arguments, env: Env) returns (outcome: Outcome<string>)
      ensures outcome == ToolOutcome(name, arguments, Views(logger.memoryLogs), registeredTools, env)
    {
      if name == "get_server_logs" {
        outcome := ServerLogs(Get(arguments, "limit", IntV(20)), env.tabulate);
      } else if name == "test_tool" {
        outcome := Ok(TestToolText(arguments, registeredTools));
      } else if name == "hello-world" {
        outcome := Ok(HelloText(arguments));
      } else if name == "calculate" {
        outcome := Ok(CalculateText(arguments, env.eval));
      } else if name == "get_system_info" {
        outcome := Ok(SystemInfoText(env));
      } else {
        outcome := Ok("Unknown tool: " + name);
      }
    }

    /** How `handle_call_tool` logs the outcome and answers. */
    method RespondToTool(e: LogEntry, name: string, outcome: Outcome<string>, elapsed: Duration)
      returns (reply: seq<TextContent>)
      modifies e
      ensures reply == ToolReply(name, outcome)
      ensures e.View() == ToolResponded(old(e.View()), outcome, elapsed)
    {
      if outcome.Ok? {
        logger.LogResponse(e, Some(ResultSuccess), None, Some(elapsed));
        reply := [Text(outcome.value)];
      } else {
        logger.LogResponse(e, None, Some(outcome.message), Some(elapsed));
        reply := [Text("Error executing tool '" + name + "': " + outcome.message)];
      }
    }

    /** The body of `handle_read_resource`, run against the current log. */
    method ResourceBody(uri: string, env: Env) returns (content: string)
      ensures content == ResourceContent(uri, |registeredTools.keys|, |registeredResources.keys|,
                                         Views(logger.memoryLogs), env)
    {
      if uri == "demo://server-info" {
        content := ServerInfoJson(|registeredTools.keys|, |registeredResources.keys|,
                                  |logger.GetLogs(None)|, env.now);
      } else if uri == "demo://logs" {
        content := logger.GetLogsTable(Some(50), env.tabulate);
      } else {
        content := "Resource not found: " + uri;
      }
    }

    /** `handle_read_resource`: every URI is answered and logged with the
        length of the content. */
    method ReadResource(uri: string, env: Env) returns (content: string, ghost entry: LogEntry)
      requires Valid()
      modifies logger
      ensures Valid() && fresh(entry)
      ensures logger.memoryLogs == BoundedAppend(old(logger.memoryLogs), entry, logger.maxMemoryLogs)
      ensures var request := NewRecord(env.now, "RESOURCE_READ", "read_resource", Some(uri), map[],
                                       UriRead("resources/read", uri));
              && content == ResourceContent(uri, |registeredTools.keys|, |registeredResources.keys|,
                                            BoundedAppend(old(Views(logger.memoryLogs)), request, logger.maxMemoryLogs), env)
              && entry.View() == Responded(request, Some(ContentLength(|content|)), None, Some(env.elapsed))
    {
      var e := logger.LogRequest("RESOURCE_READ", "read_resource", Some(uri), None,
                                 Some(UriRead("resources/read", uri)), env.now);
      content := ResourceBody(uri, env);
      logger.LogResponse(e, Some(ContentLength(|content|)), None, Some(env.elapsed));
      entry := e;
    }
  }
}
