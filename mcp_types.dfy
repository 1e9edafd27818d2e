/** The MCP library types the servers construct, as plain values, and the
    payload dictionaries they record in their logs. */
module McpTypes {
  import opened PyValues

  /** `types.TextContent(type="text", text=...)` */
  datatype TextContent = TextContent(kind: string, text: string)

  function Text(s: string): TextContent {
    TextContent("text", s)
  }

  /** `Tool(name, description, inputSchema)`; the JSON schema is a constant
      that nothing in the servers reads, so it is not carried. */
  datatype Tool = Tool(name: string, description: string)

  datatype Resource = Resource(uri: string, name: string, description: string, mimeType: string)

  datatype PromptArgument = PromptArgument(name: string, description: string, required: bool)

  datatype Prompt = Prompt(name: string, description: string, arguments: seq<PromptArgument>)

  datatype Role = User | Assistant

  datatype PromptMessage = PromptMessage(role: Role, content: TextContent)

  datatype GetPromptResult = GetPromptResult(description: string, messages: seq<PromptMessage>)

  /** The `request_payload` dictionaries the handlers pass to `log_request`;
      `EmptyPayload` is the `{}` that a missing payload becomes. */
  datatype RequestPayload =
    | EmptyPayload
    | MethodOnly(rpcMethod: string)                                     // {"method": m}
    | NamedCall(rpcMethod: string, name: string, arguments: Arguments)  // {"method": m, "params": {"name": .., "arguments": ..}}
    | UriRead(rpcMethod: string, uri: string)                           // {"method": m, "params": {"uri": ..}}

  /** The `response_payload` dictionaries the handlers pass to `log_response`. */
  datatype ResponsePayload =
    | Listing(key: string, names: seq<string>)  // {"tools": [...]}, {"resources": [...]}, {"prompts": [...]}
    | ResultSuccess                             // {"result": "success"}
    | ContentLength(length: nat)                // {"content_length": n}
    | PromptGenerated                           // {"prompt_generated": True}

  /** A response time, in hundredths of a millisecond (the precision the
      log table prints). */
  datatype Duration = Duration(hundredths: nat)

  /** `f"{ms:.2f}"` */
  function FormatMillis(d: Duration): (r: string)
    ensures |r| >= 4 && r[|r| - 3] == '.'
    ensures forall i :: 0 <= i < |r| && i != |r| - 3 ==> '0' <= r[i] <= '9'
  {
    var frac := d.hundredths % 100;
    NatToString(d.hundredths / 100) + "." + [DigitChar(frac / 10), DigitChar(frac % 10)]
  }

  /** The digits before the point read back as the whole milliseconds and
      the two after it as the hundredths. */
  lemma FormatMillisValue(d: Duration)
    ensures var r := FormatMillis(d);
            ParseNat(r[..|r| - 3]) == d.hundredths / 100
            && ParseNat(r[|r| - 2..]) == d.hundredths % 100
  {
    var r := FormatMillis(d);
    assert r[..|r| - 3] == NatToString(d.hundredths / 100);
    ParseNatToString(d.hundredths / 100);
    var t := r[|r| - 2..];
    assert t[..1][..0] == [];
    assert ParseNat(t[..1]) == t[0] as int - '0' as int;
  }

  /** `[t.name for t in tools]` */
  function ToolNames(tools: seq<Tool>): (r: seq<string>)
    ensures |r| == |tools| && forall i :: 0 <= i < |tools| ==> r[i] == tools[i].name
  {
    seq(|tools|, i requires 0 <= i < |tools| => tools[i].name)
  }

  /** `[r.uri for r in resources]` */
  function ResourceUris(resources: seq<Resource>): (r: seq<string>)
    ensures |r| == |resources| && forall i :: 0 <= i < |resources| ==> r[i] == resources[i].uri
  {
    seq(|resources|, i requires 0 <= i < |resources| => resources[i].uri)
  }

  /** `[p.name for p in prompts]` */
  function PromptNames(prompts: seq<Prompt>): (r: seq<string>)
    ensures |r| == |prompts| && forall i :: 0 <= i < |prompts| ==> r[i] == prompts[i].name
  {
    seq(|prompts|, i requires 0 <= i < |prompts| => prompts[i].name)
  }

  predicate HasPrefix(s: string, p: string) {
    |p| <= |s| && s[..|p|] == p
  }
}
