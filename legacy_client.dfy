/** `MCPClient.process_query` of client.py, the earlier chat-completions client: the tools are
    listed once, the finish reason is checked before any tool call is read, and the tool result
    goes back as a user message correlated by the COMPLETION's id. */
module LegacyClient {
  import opened Python
  import opened Json
  import opened Mcp
  import opened ChatApi

  /** `process_query` returns `None` on every path that does not raise. */
  datatype Outcome = Done | Raised(error: PyError)

  /** `{"role": "user", "content": [{"type": "tool_result", "tool_use_id": useId, "content": encoded}]}`. */
  function ToolResultMessage(useId: string, encoded: string): (e: ChatEntry)
    ensures e.Dict? && e.value.JObject? && e.value.fields.Keys == {"role", "content"}
    ensures HasStr(e.value, "role", "user") && ToolUseIds(e) == [useId]
    ensures e.value.fields["content"].JArray? && |e.value.fields["content"].items| == 1
    ensures var item := e.value.fields["content"].items[0];
      item.JObject? && item.fields.Keys == {"type", "tool_use_id", "content"} &&
      HasStr(item, "type", "tool_result") && HasStr(item, "tool_use_id", useId) && HasStr(item, "content", encoded)
  {
    var items := [JObject(map["type" := JStr("tool_result"), "tool_use_id" := JStr(useId), "content" := JStr(encoded)])];
    assert items[1..] == [] && UseIdsOf(items[1..]) == [];
    assert UseIdsOf(items) == [useId];
    Dict(JObject(map["role" := JStr("user"), "content" := JArray(items)]))
  }

  /** The `tool_use_id`s a user message carries, in order. */
  function ToolUseIds(e: ChatEntry): seq<string> {
    if e.Dict? && e.value.JObject? && "content" in e.value.fields && e.value.fields["content"].JArray? then
      UseIdsOf(e.value.fields["content"].items)
    else []
  }

  /** The `tool_use_id`s of a list of content items, in order. */
  function UseIdsOf(items: seq<JValue>): seq<string> {
    if items == [] then []
    else
      var first := if items[0].JObject? && "tool_use_id" in items[0].fields && items[0].fields["tool_use_id"].JStr?
                   then [items[0].fields["tool_use_id"].s] else [];
      first + UseIdsOf(items[1..])
  }

  /** The transcript a query starts from. */
  function Seed(query: string): seq<ChatEntry> {
    [DeveloperMessage(query)]
  }

  /** The single `list_tools` reply and the descriptors built from it, used for both calls. */
  function Available(world: ChatWorld): seq<JValue> {
    ChatDescriptors(world.listTools(0))
  }

  /** The model's reply to the seeded transcript. */
  function FirstResponse(world: ChatWorld, query: string): ChatCompletion {
    world.complete(Seed(query), Available(world))
  }

  /** The model asked for a tool and sent a tool call. */
  predicate ToolPath(r: ChatCompletion) {
    |r.choices| > 0 && r.choices[0].finishReason == TOOL_CALLS && HasToolCall(r)
  }

  /** Everything a run of `process_query` leaves behind: how it ended, its three local lists
      (`messages`, `final_text`, `assistant_message_content`) and the trace of outward calls. */
  datatype Run = Run(outcome: Outcome, messages: seq<ChatEntry>, finalText: seq<string>,
                     assistantContent: seq<ChatCompletion>, trace: seq<Event<ChatEntry>>)

  /** A run of `process_query`: the finish reason is checked before `tool_calls[0]` is read,
      and the second completion is not inspected. */
  function QueryRun(world: ChatWorld, query: string, encode: seq<ContentItem> -> string): Run {
    var first := [ListTools, Submit(Seed(query), Available(world))];
    var r := FirstResponse(world, query);
    if |r.choices| == 0 then Run(Raised(IndexError), Seed(query), [], [], first)
    else if r.choices[0].finishReason != TOOL_CALLS then Run(Done, Seed(query), [], [], first)
    else match FirstToolCall(r)
      case Raise(e) => Run(Raised(e), Seed(query), [], [], first)
      case Ok(call) =>
        var messages := Seed(query) + [ToolResultMessage(r.id, encode(world.callTool(call.fn.name).content))];
        Run(Done, messages, ["[Calling tool " + call.fn.name], [r],
            first + [CallTool(call.fn.name), Submit(messages, Available(world))])
  }

  /** `process_query`. */
  method ProcessQuery(world: ChatWorld, query: string, encode: seq<ContentItem> -> string)
    returns (outcome: Outcome, messages: seq<ChatEntry>, finalText: seq<string>,
             assistantContent: seq<ChatCompletion>, trace: seq<Event<ChatEntry>>)
    ensures Run(outcome, messages, finalText, assistantContent, trace) == QueryRun(world, query, encode)
  {
    messages := [DeveloperMessage(query)];
    var tools := world.listTools(0);
    var available := ChatDescriptors(tools);
    var response := world.complete(messages, available);
    trace := [ListTools, Submit(messages, available)];
    finalText := [];
    assistantContent := [];
    outcome := Done;
    var content := response;
    if |content.choices| == 0 {
      outcome := Raised(IndexError);
      return;
    }
    if content.choices[0].finishReason != TOOL_CALLS {
      return;
    }
    var toolCall := FirstToolCall(content);
    if toolCall.Raise? {
      outcome := Raised(toolCall.error);
      return;
    }
    var toolName := toolCall.value.fn.name;
    var result := world.callTool(toolName);
    trace := trace + [CallTool(toolName)];
    finalText := finalText + ["[Calling tool " + toolName];
    assistantContent := assistantContent + [content];
    messages := messages + [ToolResultMessage(content.id, encode(result.content))];
    response := world.complete(messages, available);
    trace := trace + [Submit(messages, available)];
  }

  // ---- Properties of a run ----

  /** Every run starts with the one `list_tools` and one submission of the seeded transcript. */
  lemma QueryStart(world: ChatWorld, query: string, encode: seq<ContentItem> -> string)
    ensures var run := QueryRun(world, query, encode);
      |run.trace| >= 2 && run.trace[..2] == [ListTools, Submit(Seed(query), Available(world))] &&
      |run.messages| >= 1 && run.messages[0] == DeveloperMessage(query)
  {
  }

  /** Off the tool path nothing is appended anywhere: an empty choice list raises at
      `choices[0]`, a finish reason other than `"tool_calls"` returns normally, and a tool
      request without tool calls raises at `tool_calls[0]`. */
  lemma QueryOffToolPath(world: ChatWorld, query: string, encode: seq<ContentItem> -> string)
    requires !ToolPath(FirstResponse(world, query))
    ensures var r := FirstResponse(world, query);
      var run := QueryRun(world, query, encode);
      run.messages == Seed(query) && run.finalText == [] && run.assistantContent == [] &&
      run.trace == [ListTools, Submit(Seed(query), Available(world))] &&
      (|r.choices| == 0 ==> run.outcome == Raised(IndexError)) &&
      (|r.choices| > 0 && r.choices[0].finishReason != TOOL_CALLS ==> run.outcome == Done) &&
      (|r.choices| > 0 && r.choices[0].finishReason == TOOL_CALLS ==> run.outcome == Raised(FirstToolCall(r).error))
  {
  }

  /** On the tool path: one `call_tool` with the first tool call's name, one `final_text`
      entry naming it, the first completion kept, one user message carrying the completion's
      id and the encoded result, and a second submission with the same descriptors. */
  lemma QueryToolPath(world: ChatWorld, query: string, encode: seq<ContentItem> -> string)
    requires ToolPath(FirstResponse(world, query))
    ensures var r := FirstResponse(world, query);
      var name := FirstToolCall(r).value.fn.name;
      var run := QueryRun(world, query, encode);
      run.outcome == Done &&
      run.finalText == ["[Calling tool " + name] &&
      run.assistantContent == [r] &&
      run.messages == Seed(query) + [ToolResultMessage(r.id, encode(world.callTool(name).content))] &&
      ToolUseIds(run.messages[1]) == [r.id] &&
      run.trace == [ListTools, Submit(Seed(query), Available(world)), CallTool(name), Submit(run.messages, Available(world))]
  {
  }

  /** Both submissions of this client send the descriptors of its one `list_tools` reply. */
  lemma QuerySameDescriptors(world: ChatWorld, query: string, encode: seq<ContentItem> -> string)
    ensures var run := QueryRun(world, query, encode);
      forall i :: 0 <= i < |run.trace| && run.trace[i].Submit? ==> run.trace[i].tools == Available(world)
  {
    if ToolPath(FirstResponse(world, query)) {
      QueryToolPath(world, query, encode);
    } else {
      QueryOffToolPath(world, query, encode);
    }
  }

  /** The tools are listed exactly once, `call_tool` runs exactly on the tool path, and there
      is one submission more than there are tool calls. */
  lemma QueryCounts(world: ChatWorld, query: string, encode: seq<ContentItem> -> string)
    ensures var run := QueryRun(world, query, encode);
      Count(run.trace, Listing) == 1 &&
      Count(run.trace, Calling) == (if ToolPath(FirstResponse(world, query)) then 1 else 0) &&
      Count(run.trace, Submitting) == 1 + Count(run.trace, Calling)
  {
    var run := QueryRun(world, query, encode);
    var first := [ListTools, Submit(Seed(query), Available(world))];
    forall k: Kind ensures Count(first, k) == Tally(first[0], k) + Tally(first[1], k) {
      CountPair(first[0], first[1], k);
    }
    if ToolPath(FirstResponse(world, query)) {
      QueryToolPath(world, query, encode);
      var rest := run.trace[2..];
      assert run.trace == first + rest;
      forall k: Kind ensures Count(run.trace, k) == Count(first, k) + Tally(rest[0], k) + Tally(rest[1], k) {
        CountConcat(first, rest, k);
        CountPair(rest[0], rest[1], k);
      }
    } else {
      QueryOffToolPath(world, query, encode);
    }
  }

  /** No assistant message is ever appended, and every submitted transcript is a prefix of
      the final one. */
  lemma QueryInvariants(world: ChatWorld, query: string, encode: seq<ContentItem> -> string)
    ensures var run := QueryRun(world, query, encode);
      SubmitsArePrefixes(run.trace, run.messages) &&
      forall i :: 0 <= i < |run.messages| ==> !run.messages[i].Assistant?
  {
  }

  /** The model asks for `get_position` in a completion whose id differs from the tool call's
      id: the appended `tool_use_id` is the completion's id, not the tool call's. */
  method MismatchScenario() returns (messages: seq<ChatEntry>)
    ensures |messages| == 2 && ToolUseIds(messages[1]) == ["chatcmpl-1"]
    ensures ToolUseIds(messages[1]) != ["call_1"]
  {
    var ask := ChatCompletion("chatcmpl-1", [Choice(TOOL_CALLS, ChatMessage(None,
      Some([ToolCall("call_1", FunctionCall("get_position", "{}"))])))]);
    var world := ChatWorld(
      n => [Tool("get_position", Some("Get ISS geolocation."), JObject(map[]))],
      (m: seq<ChatEntry>, d: seq<JValue>) => ask,
      name => CallToolResult([TextContent("position")]));
    assert FirstResponse(world, "Where is the ISS?") == ask;
    assert ToolPath(ask);
    var outcome, finalText, assistantContent, trace;
    outcome, messages, finalText, assistantContent, trace := ProcessQuery(world, "Where is the ISS?", items => "[]");
    QueryToolPath(world, "Where is the ISS?", items => "[]");
    assert "chatcmpl-1"[1] != "call_1"[1];
  }
}
