# MCP demo servers: bounded request logs and handler dispatch

This project models the core of two demonstration servers for the Model
Context Protocol (MCP) and proves properties of that model:

- `mcp_playground_server.py`, the playground server. `ComprehensiveLogger`
  keeps the newest 2000 `LogEntry` records in a bounded deque. It fills in
  each record's response later and appends stream events to it.
  `MCPPlaygroundServer` answers tool calls (`add`, `fail_on_purpose`,
  `countdown`, `increment_counter`, `get_server_info`), resource reads and
  prompt requests. It keeps a `counter` and logs every request and its
  outcome.
- `mcp_server_advanced.py`, the advanced server. `MCPLogger` keeps the
  newest 1000 records and renders them as a table. `AdvancedMCPServer`
  fills a tool registry and a resource registry each time the client lists
  them. Its tools (`get_server_logs`, `test_tool`, `hello-world`,
  `calculate`, `get_system_info`) and its two resources read the log and
  the registries.

Modules:

- `PyValues` (python_values.dfy) holds the Python semantics the handlers
  rely on. This covers the argument values, `dict.get` with a default,
  `str()`, `+` with CPython's TypeError messages, `json.dumps` of scalars
  with `ensure_ascii`, `str.join` and `repr` of a list of names.
- `PyCollections` (python_collections.dfy) holds the containers. This
  covers `deque.append` under a `maxlen`, `logs[-limit:]` under
  `if limit:`, and an insertion-ordered `dict`.
- `McpTypes` (mcp_types.dfy) holds the MCP library types as plain
  datatypes, and the payload dictionaries the handlers log.
- `Playground` (playground.dfy) and `Advanced` (advanced.dfy) model the
  two servers.

How the model is built:

- A logger and a server are each a `class`. The log is a field of type
  `seq<LogEntry>`. A `LogEntry` is a class too, because the handlers keep
  changing an entry after it is already in the log.
- `LogEntry.View()` reads an entry as a value (`asdict`).
- Every handler is a method whose `ensures` state three things:
  - the log after the call is the old log with one fresh entry appended
    by `BoundedAppend`;
  - that entry's final value;
  - the reply, in terms of pure functions of the arguments and of the
    state that the handler saw.
- The pure functions (`ToolOutcome`, `ResourceOutcome`, `PromptOutcome`,
  `ServerLogsOutcome`, `TestToolText`, `CalculateText`, ...) follow the
  branches of the source.
- The lemmas state the promised properties about those functions.
- A Python exception is an `Err(message)` outcome carrying the text
  `str(e)` would give.
- The clock, the measured duration, uptime, the environment, `eval` and
  `tabulate` cannot be computed here. They arrive as fields of an `Env`
  value passed to each handler. One call reads the clock once, so an
  entry and all of its stream events share one timestamp.

## Model

| member | source | states |
|---|---|---|
| PyValues.Get | mcp_playground_server.py:319-320 | definition of `arguments.get(key, default)`: the stored value when the key is present, the default otherwise |
| PyValues.NatToString | mcp_playground_server.py:345 | the decimal text of a natural number is non-empty and made of digits only |
| PyValues.IntToString | mcp_playground_server.py:345 | `str(i)` is non-empty and starts with `-` exactly when `i` is negative |
| PyValues.ParseNatToString | mcp_playground_server.py:345 | reading back the decimal text of a number gives the number |
| PyValues.IntToStringInjective | mcp_playground_server.py:345 | two different ints never print as the same text |
| PyValues.Plus | mcp_playground_server.py:321 | `a + b` succeeds exactly for two ints (their sum) or two strs (their concatenation); otherwise it fails (the CPython TypeError message is in the body) |
| PyValues.TypeName | mcp_playground_server.py:321 | definition of `type(v).__name__` for the three argument kinds, as the TypeError messages print it |
| PyValues.ToStr | mcp_playground_server.py:322 | definition of `str(v)` as an f-string interpolates it: the decimal text of an int (see IntToString), a str itself, `None` |
| PyValues.ReprNames | mcp_server_advanced.py:292-294 | definition of `repr` of a list of plain names, each in single quotes; used for the available-tools list of `test_tool` |
| PyValues.JsonEscapeChar | mcp_playground_server.py:365 | `json.dumps` writes each character as printable ASCII, and a printable character other than a quote or backslash as itself |
| PyValues.JsonEscape | mcp_playground_server.py:365 | an escaped string body is printable ASCII |
| PyValues.JsonString | mcp_playground_server.py:365 | `json.dumps` of a str is printable ASCII enclosed in double quotes |
| PyValues.JsonDumps | mcp_server_advanced.py:290 | `json.dumps` of a scalar argument is printable ASCII |
| PyValues.Join | mcp_playground_server.py:339 | `sep.join` of no strings is empty, and otherwise starts with the first string |
| PyCollections.BoundedAppend | mcp_playground_server.py:117-118 | appending to a `deque(maxlen)` gives a log of length `min(len+1, maxlen)`, never above `maxlen` (which entries it keeps is stated by the two lemmas below) |
| PyCollections.BoundedAppendWithRoom | mcp_playground_server.py:117-118 | with room left, the append keeps every entry and adds the new one last |
| PyCollections.BoundedAppendFull | mcp_playground_server.py:73-74 | on a full log, the append drops exactly the oldest entry and keeps the rest in order; with `maxlen` 0 nothing is kept |
| PyCollections.SliceStart | mcp_playground_server.py:186 | the start index of `s[start:]` for a negative and a non-negative start, clamped to the list |
| PyCollections.RecentLogs | mcp_playground_server.py:181-187 | `get_logs` returns a suffix of the log: all of it for a None or 0 limit, `min(limit, len)` entries for a positive one, and all but the first `-limit` for a negative one |
| PyCollections.RecentLogsPositive | mcp_playground_server.py:185-186 | for a positive limit, result entry k is log entry `len - min(limit, len) + k`, i.e. the newest entries oldest first |
| PyCollections.RecentLogsMap | mcp_playground_server.py:545-548 | converting the entries before or after selecting them gives the same list, for a conversion that reads no state; the entry objects are read through `View()`, so each server restates it as its own `ViewsRecent` |
| PyCollections.Dict.Put | mcp_server_advanced.py:249 | `d[k] = v` maps `k` to `v`; an existing key keeps its place in the key order and a new key goes last; the dict invariant is kept |
| PyCollections.EmptyDict | mcp_server_advanced.py:158-159 | a fresh registry `{}` has no keys |
| PyCollections.PutAll | mcp_server_advanced.py:248-249 | a run of assignments keeps a registry well formed |
| PyCollections.PutAllValues | mcp_server_advanced.py:248-249 | after a run of assignments each assigned key holds its last assigned value and every other key is unchanged |
| PyCollections.ItemsMapKeys | mcp_server_advanced.py:248-249 | every assigned key is present after the run |
| PyCollections.ItemsMapDistinct | mcp_server_advanced.py:248-249 | when no key is assigned twice, each key holds exactly the value assigned to it |
| PyCollections.PutAllDistinct | mcp_server_advanced.py:248-249 | the same, for assignments made into an existing registry |
| PyCollections.PutAllKnownKeys | mcp_server_advanced.py:248-249 | reassigning keys that are already present leaves the key order of the dict unchanged |
| PyCollections.ItemsMapDomain | mcp_server_advanced.py:248-249 | only keys that were assigned end up in the mapping |
| PyCollections.PutAllFreshKeys | mcp_server_advanced.py:248-249 | assigning distinct new keys appends them to the key order in the order they were assigned |
| PyCollections.PutAllContains | mcp_server_advanced.py:248-249 | each assigned key is in the registry afterwards |
| PyCollections.PutAllIdempotent | mcp_server_advanced.py:248-249 | running the same assignments twice leaves the registry as running them once |
| McpTypes.FormatMillis | mcp_server_advanced.py:146 | `f"{ms:.2f}"` is digits with a point before the last two; the value is stated by McpTypes.FormatMillisValue |
| McpTypes.FormatMillisValue | mcp_server_advanced.py:146 | the digits before the point read back as the whole milliseconds and the two after it as the hundredths |
| McpTypes.ToolNames | mcp_playground_server.py:299 | definition of `[t.name for t in tools]`; the names each server logs are fixed by Playground.PlaygroundToolNames and Advanced.AdvancedToolNames |
| McpTypes.ResourceUris | mcp_playground_server.py:415 | definition of `[r.uri for r in resources]`; the URIs the playground logs are fixed by Playground.PlaygroundResourceUris |
| McpTypes.PromptNames | mcp_playground_server.py:497 | definition of `[p.name for p in prompts]` |
| Playground.Responded | mcp_playground_server.py:141-144 | `log_response` stores the payload, error and time passed in, sets `success` exactly when there is no error, and changes no other field |
| Playground.NewRecord | mcp_playground_server.py:104-113 | definition of the record `log_request` builds: the request fields, the already defaulted parameters and payload, the dataclass defaults and no stream events |
| Playground.Streamed | mcp_playground_server.py:163-169 | definition of a run of `log_stream_event` calls on a record; properties in Playground.StreamedNothing and Playground.StreamedTwice |
| Playground.StreamedNothing | mcp_playground_server.py:163-169 | a tool that logs no stream events leaves its record unchanged |
| Playground.StreamedTwice | mcp_playground_server.py:163-169 | logging one run of stream events after another is logging both runs in order |
| Playground.Views | mcp_playground_server.py:548 | definition of `[asdict(log) for log in logs]`; how it combines with `get_logs` is Playground.ViewsRecent |
| Playground.ViewsRecent | mcp_playground_server.py:181-187 | selecting entries with `get_logs(limit)` and then reading them gives the records selected from the whole log read as records |
| Playground.LogEntry.constructor | mcp_playground_server.py:107-115 | a new entry has no response, no error, `success` true, not streaming, no stream events |
| Playground.ComprehensiveLogger.constructor | mcp_playground_server.py:73-74 | the log starts empty with the given bound |
| Playground.ComprehensiveLogger.LogRequest | mcp_playground_server.py:104-118 | appends exactly one fresh entry through the bounded append and returns it; a missing `parameters` or `request_payload` becomes empty (`or {}`); the log stays within its bound |
| Playground.ComprehensiveLogger.LogResponse | mcp_playground_server.py:138-144 | the entry becomes `Responded(old entry, ...)`; every other entry of the log is unchanged |
| Playground.ComprehensiveLogger.LogStreamEvent | mcp_playground_server.py:163-169 | the entry becomes streaming and gains exactly one event at the end; earlier events and other entries are unchanged |
| Playground.ComprehensiveLogger.GetLogs | mcp_playground_server.py:181-187 | the whole log for a None or 0 limit; for a positive limit the newest `min(limit, len)` entries; always a suffix of the log |
| Playground.CountdownCounts | mcp_playground_server.py:333 | `range(n, 0, -1)` has `max(n, 0)` elements and element k is `n - k` |
| Playground.NotAnInteger | mcp_playground_server.py:328-333 | definition of the TypeError text `range` raises for a non-int `n` |
| Playground.CountdownLines | mcp_playground_server.py:331-334 | definition of the `countdown_text` list; its k-th line is stated by Playground.CountdownLineAndEvent |
| Playground.CountdownEvents | mcp_playground_server.py:336 | definition of the stream events of the loop; stated by Playground.CountdownLineAndEvent and Playground.CountdownNonPositive |
| Playground.CountdownText | mcp_playground_server.py:339 | definition of the joined countdown text; stated by Playground.CountdownTextStart and Playground.CountdownNonPositive |
| Playground.CountdownOutcome | mcp_playground_server.py:328-339 | definition of the `countdown` branch, with the TypeError `range` raises for a non-int `n`; the default is stated by Playground.CountdownDefault |
| Playground.AddTool | mcp_playground_server.py:318-322 | definition of the `add` branch; properties in Playground.AddDefaults, Playground.AddRaisesIffMixed and Playground.AddTextStart |
| Playground.FailOnPurpose | mcp_playground_server.py:324-326 | definition of the `fail_on_purpose` branch: it raises with `message`, by default "Intentional test error"; the reply is stated by Playground.ToolErrorsBecomeText |
| Playground.ServerInfoText | mcp_playground_server.py:365 | definition of the `get_server_info` text: the heading, a literal backslash-n, then the JSON; its first character is used by Playground.OkTextNotError |
| Playground.ServerInfoJson | mcp_playground_server.py:347-364 | definition of `json.dumps(info, indent=2)` for the server-info dict, key order as written |
| Playground.ToolOutcome | mcp_playground_server.py:318-368 | definition of the dispatch of `handle_call_tool`; properties in Playground.ToolErrorsBecomeText, Playground.OkTextNotError, Playground.UnknownToolReply and Playground.CounterReportIdentifiesCounter |
| Playground.ToolStreamEvents | mcp_playground_server.py:328-336 | definition of the stream events a tool call logs: the countdown events for an int `n`, none otherwise |
| Playground.ToolReply | mcp_playground_server.py:374-380 | definition of the tool reply: the content, or `Error: <message>`; property in Playground.ToolErrorsBecomeText |
| Playground.ToolResponded | mcp_playground_server.py:370-379 | definition of how the call entry is completed: `{"result": "success"}` or the error, with the time |
| Playground.CountdownStrictlyDecreasing | mcp_playground_server.py:333-334 | the countdown values strictly decrease and stay at least 1 |
| Playground.CountdownLineAndEvent | mcp_playground_server.py:333-336 | there are `max(n, 0)` lines and as many stream events; line k reads `Countdown: n-k` and event k has count `n-k` and remaining `n-k-1` |
| Playground.CountdownNonPositive | mcp_playground_server.py:332-339 | for n <= 0 there are no lines and no events, and the text is only the closing line |
| Playground.CountdownDefault | mcp_playground_server.py:329-339 | a missing `n` counts down from 5: five events, from `Countdown: 5` to `Countdown: 1` |
| Playground.CountdownTextStart | mcp_playground_server.py:339 | for `n > 0` the countdown text begins with its first line `Countdown: n`; for `n <= 0` it begins with the backslash of the closing line |
| Playground.AddDefaults | mcp_playground_server.py:318-322 | for every argument map, a missing `a` or `b` counts as 0: both missing report `Adding 0 + 0 = 0`, and one missing with the other an int `x` reports `x` as the sum |
| Playground.AddRaisesIffMixed | mcp_playground_server.py:318-322 | `add` raises exactly when its operands are not both ints or both strs |
| Playground.AddTextStart | mcp_playground_server.py:322 | a successful `add` text begins with `A` |
| Playground.CounterReportIdentifiesCounter | mcp_playground_server.py:341-345 | the `increment_counter` report determines the counter: different counters give different reports |
| Playground.OkTextNotError | mcp_playground_server.py:317-365 | every successful tool text is non-empty and does not start with `E` |
| Playground.ToolErrorsBecomeText | mcp_playground_server.py:370-380 | a tool call always answers with one text item, and that text starts with `Error: ` exactly when the branch raised |
| Playground.ReplyMarksErrors | mcp_playground_server.py:370-380 | when no successful text starts with `E`, the single reply text starts with `Error: ` exactly for a raised exception |
| Playground.UnknownToolReply | mcp_playground_server.py:367-380 | an unlisted tool name is answered with `Error: Unknown tool: <name>` |
| Playground.PlaygroundToolNames | mcp_playground_server.py:236-296 | the listed tool names are the five handled names, in order |
| Playground.ResourceKnownIffListed | mcp_playground_server.py:433-469 | a resource read succeeds exactly for a listed URI; any other URI is answered `Error reading resource '<uri>': Unknown resource URI: <uri>` |
| Playground.PlaygroundResourceUris | mcp_playground_server.py:392-413 | the listed URIs are the three handled ones, in order |
| Playground.ResourceOutcome | mcp_playground_server.py:434-457 | definition of the branches of `handle_read_resource`; property in Playground.ResourceKnownIffListed |
| Playground.ResourceReply | mcp_playground_server.py:462-469 | definition of the resource reply: the content, or `Error reading resource '<uri>': <message>` |
| Playground.ResourceResponded | mcp_playground_server.py:459-468 | definition of how the read entry is completed: `{"content_length": len(content)}` or the error, with the time |
| Playground.GreetPrompt | mcp_playground_server.py:516-537 | only `prompt_greet` succeeds; a missing name gives the single user message `Write a friendly greeting for World.`; any other name raises `Unknown prompt: <name>` |
| Playground.PromptOutcome | mcp_playground_server.py:516-537 | definition of the branches of `handle_get_prompt`; property in Playground.GreetPrompt |
| Playground.PromptResponded | mcp_playground_server.py:530-543 | definition of how the prompt entry is completed: `{"prompt_generated": True}` or the error, with the time |
| Playground.PlaygroundServer.constructor | mcp_playground_server.py:206-216 | the counter starts at 0 and the log empty with bound 2000 |
| Playground.PlaygroundServer.ListTools | mcp_playground_server.py:229-302 | returns the five tools; logs one entry whose response lists the tool names |
| Playground.PlaygroundServer.Countdown | mcp_playground_server.py:328-339 | the loop builds the countdown text of `n` and appends exactly the countdown events of `n` to the entry |
| Playground.PlaygroundServer.CallTool | mcp_playground_server.py:309-380 | reply is `ToolReply(ToolOutcome(...))` for the counter before the call and the log size including this request; the counter rises by 1 only for `increment_counter`; one entry is appended, carrying the countdown events and then success or the error |
| Playground.PlaygroundServer.RunTool | mcp_playground_server.py:318-368 | the branch for `name` yields `ToolOutcome` for the counter before the call and the current log size; only `increment_counter` bumps the counter; only `countdown` with an int `n` adds stream events to the entry |
| Playground.PlaygroundServer.RespondToTool | mcp_playground_server.py:370-380 | the entry records `{"result": "success"}` or the error with the response time, and the reply is the content or `Error: <message>` |
| Playground.PlaygroundServer.ListResources | mcp_playground_server.py:386-418 | returns the three resources; logs one entry whose response lists their URIs |
| Playground.PlaygroundServer.ReadResource | mcp_playground_server.py:425-469 | the content is the resource or the error text; the entry records the content length on success and the message on error |
| Playground.PlaygroundServer.ListPrompts | mcp_playground_server.py:475-500 | returns the one prompt; logs one entry whose response lists its name |
| Playground.PlaygroundServer.GetPrompt | mcp_playground_server.py:507-543 | the result is `PromptOutcome`; the entry records `prompt_generated` or the error, which is then re-raised |
| Playground.PlaygroundServer.ComprehensiveLogs | mcp_playground_server.py:545-548 | the records returned are the whole log read as records, narrowed as `get_logs(limit)` narrows it: all of them for None or 0, the newest `min(limit, len)` for a positive limit, oldest first |
| Advanced.Responded | mcp_server_advanced.py:101-104 | the payload, error and time passed in are stored, `success` is set exactly when there is no error, and no other field changes |
| Advanced.NewRecord | mcp_server_advanced.py:71-81 | definition of the record `log_request` builds: the request fields, the already defaulted parameters and payload, and the dataclass defaults |
| Advanced.Views | mcp_server_advanced.py:139 | definition of reading each entry as a record; how it combines with `get_logs` and with an append is Advanced.ViewsRecent and Advanced.ViewsBoundedAppend |
| Advanced.ViewsRecent | mcp_server_advanced.py:122-128 | selecting entries and then reading them equals selecting from the read records |
| Advanced.ViewsBoundedAppend | mcp_server_advanced.py:83-84 | the records after an append are the old records with the new record appended the same way |
| Advanced.Prefix | mcp_server_advanced.py:141 | `s[:n]` is the first `min(n, len)` characters |
| Advanced.Rows | mcp_server_advanced.py:137-147 | definition of the row list `get_logs_table` builds; the cells are stated by Advanced.RowCells and the loop by Advanced.TableRows |
| Advanced.RowOf | mcp_server_advanced.py:139-147 | definition of one table row; its cells are stated by Advanced.RowCells |
| Advanced.LogsTable | mcp_server_advanced.py:130-149 | definition of the table text; what it shows for a limit is stated by Advanced.LogsTableRecent |
| Advanced.RowCells | mcp_server_advanced.py:139-146 | a row has six cells: the timestamp cut to 19 characters, type, operation, `-` for a missing or empty name, a check mark exactly for success, `-` exactly for a missing or zero duration |
| Advanced.LogsTableRecent | mcp_server_advanced.py:130-149 | with a positive limit the table of `get_logs(limit)` is `tabulate` of one row for each of the newest `min(limit, len)` records, oldest first; an empty log gives `No logs available` |
| Advanced.LogEntry.constructor | mcp_server_advanced.py:74-81 | a new entry has no response, no error and `success` true |
| Advanced.MCPLogger.constructor | mcp_server_advanced.py:56-57 | the log starts empty with the given bound |
| Advanced.MCPLogger.LogRequest | mcp_server_advanced.py:71-84 | appends one fresh entry through the bounded append, with `parameters or {}` and `request_payload or {}`; the records read afterwards are the old records with the new one appended |
| Advanced.MCPLogger.LogResponse | mcp_server_advanced.py:98-104 | the entry becomes `Responded(old entry, ...)`; every other entry is unchanged |
| Advanced.MCPLogger.GetLogs | mcp_server_advanced.py:122-128 | the whole log for a None or 0 limit, otherwise the newest `min(limit, len)` entries for a positive limit; always a suffix |
| Advanced.MCPLogger.GetLogsTable | mcp_server_advanced.py:130-149 | the loop yields `LogsTable` of the records `get_logs(limit)` selects |
| Advanced.TableRows | mcp_server_advanced.py:138-147 | the loop builds exactly one row per entry, in log order, each `RowOf` the entry's record |
| Advanced.ToolItems | mcp_server_advanced.py:248-249 | definition of the `registered_tools[tool.name] = tool` assignments; their effect is stated by Advanced.ToolsRegisteredByName and Advanced.ToolRegistryOrder |
| Advanced.AllAllowed | mcp_server_advanced.py:305-306 | true exactly when every character of the expression is in `0123456789+-*/.() ` |
| Advanced.ServerLogsOutcome | mcp_server_advanced.py:275-282 | definition of the `get_server_logs` branch; properties in Advanced.ToolRaisesOnlyForBadLimit and Advanced.ServerLogsSummary |
| Advanced.ServerLogsText | mcp_server_advanced.py:278-281 | definition of the `get_server_logs` text: heading, `Showing <count> recent log entries`, then the table in a code fence; property in Advanced.ServerLogsSummary |
| Advanced.TestToolText | mcp_server_advanced.py:284-294 | definition of the `test_tool` branch; properties in Advanced.TestToolFoundIff and Advanced.TestToolAfterListing |
| Advanced.HelloText | mcp_server_advanced.py:296-299 | definition of the `hello-world` branch; property in Advanced.HelloDefault |
| Advanced.CalculateText | mcp_server_advanced.py:301-312 | definition of the `calculate` branch; properties in Advanced.CalculateRefusesIff and Advanced.CalculateEvaluatesOnlyAllowed |
| Advanced.SystemInfoText | mcp_server_advanced.py:314-324 | definition of the `get_system_info` text around `json.dumps(info, indent=2)`; the readings are `Env` fields |
| Advanced.ToolOutcome | mcp_server_advanced.py:273-327 | definition of the dispatch of `handle_call_tool`; properties in Advanced.ToolRaisesOnlyForBadLimit |
| Advanced.ToolReply | mcp_server_advanced.py:332-337 | definition of the tool reply: the content, or `Error executing tool '<name>': <message>` |
| Advanced.ToolResponded | mcp_server_advanced.py:329-336 | definition of how the call entry is completed: `{"result": "success"}` or the error, with the time |
| Advanced.AdvancedToolNames | mcp_server_advanced.py:172-245 | the listed tool names are the five handled names, in order |
| Advanced.ToolRaisesOnlyForBadLimit | mcp_server_advanced.py:272-337 | a tool call raises exactly for `get_server_logs` with a limit that is not an int; an unlisted name returns `Unknown tool: <name>` as a success |
| Advanced.ServerLogsSummary | mcp_server_advanced.py:275-281 | for a positive limit the summary count equals the number of rows shown; for 0 it says 0 while the table shows the whole log; for a negative limit it prints the negative limit while dropping the oldest entries |
| Advanced.TestToolFoundIff | mcp_server_advanced.py:284-294 | `test_tool` reports "Testing tool" exactly for a str `tool_name` that is registered; otherwise it reports "not found" with the registered names in insertion order |
| Advanced.HelloDefault | mcp_server_advanced.py:296-299 | a missing name is greeted as `World` |
| Advanced.CalculateRefusesIff | mcp_server_advanced.py:301-313 | `calculate` answers exactly `Invalid expression. Only basic math operations allowed.` when the expression is a str holding a character outside the whitelist |
| Advanced.CalculateEvaluatesOnlyAllowed | mcp_server_advanced.py:305-310 | when the expression is refused, the evaluator's behaviour cannot change the answer |
| Advanced.ResourceItems | mcp_server_advanced.py:369-370 | definition of the `registered_resources[resource.uri] = resource` assignments; their effect is stated by Advanced.ResourcesRegisteredByUri and Advanced.ResourceRegistryOrder |
| Advanced.UnknownResourceContent | mcp_server_advanced.py:407-408 | an unlisted URI is answered `Resource not found: <uri>` |
| Advanced.LogsResourceRecent | mcp_server_advanced.py:404-405 | `demo://logs` tabulates the newest `min(50, len)` records |
| Advanced.ServerInfoJson | mcp_server_advanced.py:394-402 | definition of `json.dumps(info, indent=2)` for `demo://server-info`, key order as written |
| Advanced.ResourceContent | mcp_server_advanced.py:393-408 | definition of the branches of `handle_read_resource`; properties in Advanced.UnknownResourceContent and Advanced.LogsResourceRecent |
| Advanced.ToolListingIdempotent | mcp_server_advanced.py:248-249 | listing the tools a second time leaves the tool registry as the first listing left it |
| Advanced.ResourceListingIdempotent | mcp_server_advanced.py:369-370 | listing the resources a second time leaves the resource registry as the first listing left it |
| Advanced.ToolRegistryOrder | mcp_server_advanced.py:247-249 | the first listing fills the empty tool registry with the five tool names in listing order |
| Advanced.ResourceRegistryOrder | mcp_server_advanced.py:368-370 | the first listing fills the empty resource registry with the two URIs in listing order |
| Advanced.TestToolAfterListing | mcp_server_advanced.py:284-294 | after the first listing, `test_tool` with an unknown name lists exactly `['get_server_logs', 'test_tool', 'hello-world', 'calculate', 'get_system_info']` |
| Advanced.ToolsRegisteredByName | mcp_server_advanced.py:248-249 | after listing, each listed tool is registered under its own name |
| Advanced.ResourcesRegisteredByUri | mcp_server_advanced.py:369-370 | after listing, each listed resource is registered under its URI |
| Advanced.AdvancedServer.constructor | mcp_server_advanced.py:155-159 | both registries start empty and the log empty with bound 1000 |
| Advanced.AdvancedServer.RegisterTools | mcp_server_advanced.py:248-249 | the loop leaves the tool registry as `PutAll` of the listed tools; the resource registry is unchanged |
| Advanced.AdvancedServer.RegisterResources | mcp_server_advanced.py:369-370 | the loop leaves the resource registry as `PutAll` of the listed resources; the tool registry is unchanged |
| Advanced.AdvancedServer.ListTools | mcp_server_advanced.py:170-254 | returns the five tools, registers them by name, and logs one entry listing their names |
| Advanced.AdvancedServer.ListResources | mcp_server_advanced.py:347-375 | returns the two resources, registers them by URI, and logs one entry listing their URIs |
| Advanced.AdvancedServer.ServerLogs | mcp_server_advanced.py:275-281 | the `get_server_logs` branch gives `ServerLogsOutcome` of the current records |
| Advanced.AdvancedServer.CallTool | mcp_server_advanced.py:261-337 | reply is `ToolReply(ToolOutcome(...))`, where the log is read with this request already appended; the registries are unchanged; the entry records success or the error |
| Advanced.AdvancedServer.RunTool | mcp_server_advanced.py:273-327 | the branch for `name` yields `ToolOutcome` of the current log records and tool registry, and changes nothing |
| Advanced.AdvancedServer.RespondToTool | mcp_server_advanced.py:329-337 | the entry records `{"result": "success"}` or the error with the response time, and the reply is the content or `Error executing tool '<name>': <message>` |
| Advanced.AdvancedServer.ResourceBody | mcp_server_advanced.py:392-408 | the content is `ResourceContent` of the registry sizes and the current records |
| Advanced.AdvancedServer.ReadResource | mcp_server_advanced.py:382-413 | content is `ResourceContent`, with the log read after this request was appended; the entry records the content length as a success |

## Left out

- Async plumbing, the stdio transport, decorator registration, `run`, `main` and `display_startup_info`: these are foreign library calls and I/O. The MCP library types appear as plain datatypes, and `Tool` does not carry its `inputSchema`, which nothing reads.
- `threading.Lock` and `counter_lock`: calls run one after another, so the locked sections are plain updates.
- `print`, the `logging` handlers, colorama codes, `log_callbacks` and `export_logs`: console, file and callback side effects.
- Clock readings (`datetime.now`, `time.time`) and uptime are fields of `Env`. One handler call reads the clock once, so a countdown's stream events share the entry's timestamp, where the source reads the clock per event.
- Durations are natural numbers of hundredths of a millisecond. Float arithmetic and the rounding of `:.2f` are not carried, and a nonzero duration below one hundredth counts as zero in the table.
- `asyncio.sleep` in the countdown loop: only a delay.
- `eval` in `calculate` is a parameter. It returns the `str()` of the result or the text of the exception it raised. Only the whitelist decision is modelled.
- `get_system_info` reads `platform` and `os`; those readings are fields of `Env`. The JSON layout around them is modelled.
- The whole body of `data://big_text` is a field of `Env`: the `Generated at` header, which reads the clock, the `Size` line, the repeated Lorem-ipsum text and the closing marker. The base64 PNG literal is a field of `Env` too.
- The `tabulate` grid layout is a parameter. The headers and rows passed to it are modelled.
- Argument values are int, str and None. Python's bool (a subclass of int), float, list and dict arguments are not modelled, nor the `str()` and `json.dumps` of them.
- ReprNames: registered names are quoted with single quotes, as `repr` writes a name with no quote, backslash or unprintable character in it. Other names are not escaped the way `repr` would escape them.
- The `except` branches of the list handlers and of the advanced `handle_read_resource` cannot be reached in the model, because nothing in those bodies raises there.
- A `ComprehensiveLogger` or an `MCPLogger` built with a negative `max_memory_logs` (a ValueError in `deque`) is excluded by the bound being a `nat`.
- Default arguments of the log readers are not modelled: callers pass the limit. `get_comprehensive_logs()` means `ComprehensiveLogs(Some(100))` (mcp_playground_server.py:545) and `get_logs_table()` means a limit of `Some(20)` (mcp_server_advanced.py:130).
