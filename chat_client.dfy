/** `MCPClient.send_request` and `MCPClient.process_query` of mcp-client.py: one query,
    answered with at most one tool-call round over the chat-completions API. */
module ChatClient {
  import opened Python
  import opened Json
  import opened Mcp
  import opened ChatApi

  /** How a `process_query` call ends: nothing shown, the printed second answer, or an
      exception. */
  datatype Outcome = NoAnswer | Answered(content: Option<string>) | Raised(error: PyError)

  /** `{"role": "tool", "tool_call_id": callId, "content": content}`. */
  function ToolMessage(callId: string, content: string): (e: ChatEntry)
    ensures e.Dict? && e.value.JObject? && e.value.fields.Keys == {"role", "tool_call_id", "content"}
    ensures HasStr(e.value, "role", "tool") && HasStr(e.value, "content", content)
    ensures RepliesTo(e, callId)
  {
    Dict(JObject(map["role" := JStr("tool"), "tool_call_id" := JStr(callId), "content" := JStr(content)]))
  }

  /** The entry is a tool-role message answering the call `id`. */
  predicate RepliesTo(e: ChatEntry, id: string) {
    e.Dict? && HasStr(e.value, "role", "tool") && HasStr(e.value, "tool_call_id", id)
  }

  /** The entry is an assistant message that requested the call `id`. */
  predicate Requests(e: ChatEntry, id: string) {
    e.Assistant? && e.message.toolCalls.Some? &&
    exists k :: 0 <= k < |e.message.toolCalls.value| && e.message.toolCalls.value[k].id == id
  }

  /** Every tool-role message answers a call requested by an earlier assistant message. */
  ghost predicate Correlated(messages: seq<ChatEntry>) {
    forall j, id :: 0 <= j < |messages| && RepliesTo(messages[j], id) ==>
      exists i :: 0 <= i < j && Requests(messages[i], id)
  }

  /** The transcript a query starts from. */
  function Seed(query: string): seq<ChatEntry> {
    [DeveloperMessage(query)]
  }

  /** The model's reply to the seeded transcript (the first `list_tools` reply is number 0). */
  function FirstResponse(world: ChatWorld, query: string): ChatCompletion {
    world.complete(Seed(query), ChatDescriptors(world.listTools(0)))
  }

  /** The first response asks for a tool: its first choice has a tool call and finished
      with `"tool_calls"`. */
  predicate ToolPath(r: ChatCompletion) {
    HasToolCall(r) && r.choices[0].finishReason == TOOL_CALLS
  }

  /** What is printed after the second submission: `choices[0].message.content`. */
  function FinalAnswer(r: ChatCompletion): (o: Outcome)
    ensures o.Raised? <==> |r.choices| == 0
    ensures o.Raised? ==> o.error == IndexError
    ensures o.Answered? ==> o.content == r.choices[0].message.content
    ensures !o.NoAnswer?
  {
    if |r.choices| == 0 then Raised(IndexError) else Answered(r.choices[0].message.content)
  }

  /** Everything a run of `process_query` leaves behind: how it ended, the final transcript,
      and the trace of outward calls. */
  datatype Run = Run(outcome: Outcome, messages: seq<ChatEntry>, trace: seq<Event<ChatEntry>>)

  /** The tool round, entered after the first submission with the model's `message` and its
      first tool call `call`. */
  function ToolRoundRun(world: ChatWorld, seed: seq<ChatEntry>, message: ChatMessage, call: ToolCall): Run {
    var withCall := seed + [Assistant(message)];
    var coordinate := FirstText(world.callTool(call.fn.name));
    if coordinate.Raise? then Run(Raised(coordinate.error), withCall, [CallTool(call.fn.name)])
    else
      var messages := withCall + [ToolMessage(call.id, coordinate.value)];
      var tools := ChatDescriptors(world.listTools(1));
      Run(FinalAnswer(world.complete(messages, tools)), messages, [CallTool(call.fn.name), ListTools, Submit(messages, tools)])
  }

  /** A run of `process_query` as written: `tool_calls[0]` is read before the finish reason. */
  function QueryRun(world: ChatWorld, query: string): Run {
    var first := [ListTools, Submit(Seed(query), ChatDescriptors(world.listTools(0)))];
    var r := FirstResponse(world, query);
    match FirstToolCall(r)
    case Raise(e) => Run(Raised(e), Seed(query), first)
    case Ok(call) =>
      if r.choices[0].finishReason == TOOL_CALLS then
        var round := ToolRoundRun(world, Seed(query), r.choices[0].message, call);
        Run(round.outcome, round.messages, first + round.trace)
      else Run(NoAnswer, Seed(query), first)
  }

  /** A run of `process_query` with the finish reason checked first. */
  function QueryRunChecked(world: ChatWorld, query: string): Run {
    var first := [ListTools, Submit(Seed(query), ChatDescriptors(world.listTools(0)))];
    var r := FirstResponse(world, query);
    if |r.choices| == 0 then Run(Raised(IndexError), Seed(query), first)
    else if r.choices[0].finishReason != TOOL_CALLS then Run(NoAnswer, Seed(query), first)
    else match FirstToolCall(r)
      case Raise(e) => Run(Raised(e), Seed(query), first)
      case Ok(call) =>
        var round := ToolRoundRun(world, Seed(query), r.choices[0].message, call);
        Run(round.outcome, round.messages, first + round.trace)
  }

  /** `send_request`: a fresh `list_tools` (the `listed`-th of this query), then one model
      submission of the transcript with the descriptors built from that reply. */
  method SendRequest(world: ChatWorld, listed: nat, messages: seq<ChatEntry>)
    returns (response: ChatCompletion, events: seq<Event<ChatEntry>>)
    ensures events == [ListTools, Submit(messages, ChatDescriptors(world.listTools(listed)))]
    ensures response == world.complete(messages, ChatDescriptors(world.listTools(listed)))
  {
    var tools := world.listTools(listed);
    var available := ChatDescriptors(tools);
    response := world.complete(messages, available);
    events := [ListTools, Submit(messages, available)];
  }

  /** The tool round of `process_query`: append the model's message, call the tool by name,
      append the tool result correlated by the call's id, and submit once more. */
  method ToolRound(world: ChatWorld, seed: seq<ChatEntry>, message: ChatMessage, call: ToolCall)
    returns (outcome: Outcome, messages: seq<ChatEntry>, events: seq<Event<ChatEntry>>)
    ensures Run(outcome, messages, events) == ToolRoundRun(world, seed, message, call)
  {
    messages := seed;
    messages := messages + [Assistant(message)];
    var toolResult := world.callTool(call.fn.name);
    events := [CallTool(call.fn.name)];
    var coordinate := FirstText(toolResult);
    if coordinate.Raise? {
      outcome := Raised(coordinate.error);
      return;
    }
    messages := messages + [ToolMessage(call.id, coordinate.value)];
    var response, more := SendRequest(world, 1, messages);
    events := events + more;
    outcome := FinalAnswer(response);
  }

  /** `process_query` as written (mcp-client.py). */
  method ProcessQuery(world: ChatWorld, query: string)
    returns (outcome: Outcome, messages: seq<ChatEntry>, trace: seq<Event<ChatEntry>>)
    ensures Run(outcome, messages, trace) == QueryRun(world, query)
  {
    messages := [DeveloperMessage(query)];
    var response;
    response, trace := SendRequest(world, 0, messages);
    var toolCall := FirstToolCall(response);
    if toolCall.Raise? {
      outcome := Raised(toolCall.error);
      return;
    }
    if response.choices[0].finishReason == TOOL_CALLS {
      var more;
      outcome, messages, more := ToolRound(world, messages, response.choices[0].message, toolCall.value);
      trace := trace + more;
    } else {
      outcome := NoAnswer;
    }
  }

  /** `process_query` with the evidently intended order: the finish reason is checked first
      and `tool_calls[0]` is read only when the model asked for a tool. */
  method ProcessQueryChecked(world: ChatWorld, query: string)
    returns (outcome: Outcome, messages: seq<ChatEntry>, trace: seq<Event<ChatEntry>>)
    ensures Run(outcome, messages, trace) == QueryRunChecked(world, query)
  {
    messages := [DeveloperMessage(query)];
    var response;
    response, trace := SendRequest(world, 0, messages);
    if |response.choices| == 0 {
      outcome := Raised(IndexError);
      return;
    }
    if response.choices[0].finishReason != TOOL_CALLS {
      outcome := NoAnswer;
      return;
    }
    var toolCall := FirstToolCall(response);
    if toolCall.Raise? {
      outcome := Raised(toolCall.error);
      return;
    }
    var more;
    outcome, messages, more := ToolRound(world, messages, response.choices[0].message, toolCall.value);
    trace := trace + more;
  }

  // ---- Properties of a run ----

  /** Every run starts with one `list_tools` and one submission of the seeded transcript, and
      its transcript starts with the developer message carrying the query. */
  lemma QueryStart(world: ChatWorld, query: string)
    ensures var run := QueryRun(world, query);
      |run.trace| >= 2 && run.trace[..2] == [ListTools, Submit(Seed(query), ChatDescriptors(world.listTools(0)))] &&
      |run.messages| >= 1 && run.messages[0] == DeveloperMessage(query)
  {
  }

  /** Without a first tool call the read of `tool_calls[0]` raises, whatever the finish reason:
      one submission, no tool call, transcript unchanged. */
  lemma QueryWithoutToolCall(world: ChatWorld, query: string)
    requires !HasToolCall(FirstResponse(world, query))
    ensures QueryRun(world, query) ==
      Run(Raised(FirstToolCall(FirstResponse(world, query)).error), Seed(query),
          [ListTools, Submit(Seed(query), ChatDescriptors(world.listTools(0)))])
  {
  }

  /** A tool call the model did not ask for (finish reason other than `"tool_calls"`): one
      submission, no tool call, transcript unchanged, nothing shown. */
  lemma QueryNotAsked(world: ChatWorld, query: string)
    requires HasToolCall(FirstResponse(world, query)) && !ToolPath(FirstResponse(world, query))
    ensures QueryRun(world, query) ==
      Run(NoAnswer, Seed(query), [ListTools, Submit(Seed(query), ChatDescriptors(world.listTools(0)))])
  {
  }

  /** On the tool path: one `call_tool` with the first tool call's name; the transcript grows
      by the assistant message and then the tool message carrying that call's id and the first
      content item's text; then a fresh `list_tools` and the second submission, whose first
      choice's content is the answer. */
  lemma QueryToolPath(world: ChatWorld, query: string)
    requires ToolPath(FirstResponse(world, query))
    ensures var r := FirstResponse(world, query);
      var call := FirstToolCall(r).value;
      var run := QueryRun(world, query);
      var coordinate := FirstText(world.callTool(call.fn.name));
      |run.trace| >= 3 && run.trace[2] == CallTool(call.fn.name) &&
      |run.messages| >= 2 && run.messages[..2] == Seed(query) + [Assistant(r.choices[0].message)] &&
      (coordinate.Raise? ==> run.outcome == Raised(coordinate.error) && |run.messages| == 2 && |run.trace| == 3) &&
      (coordinate.Ok? ==>
        run.messages == Seed(query) + [Assistant(r.choices[0].message), ToolMessage(call.id, coordinate.value)] &&
        run.trace[2..] == [CallTool(call.fn.name), ListTools, Submit(run.messages, ChatDescriptors(world.listTools(1)))] &&
        run.outcome == FinalAnswer(world.complete(run.messages, ChatDescriptors(world.listTools(1)))))
  {
  }

  /** The tool round on its own calls the tool once, and lists and submits once each exactly
      when its transcript has grown by two entries. */
  lemma RoundCounts(world: ChatWorld, seed: seq<ChatEntry>, message: ChatMessage, call: ToolCall)
    ensures var round := ToolRoundRun(world, seed, message, call);
      Count(round.trace, Calling) == 1 &&
      Count(round.trace, Listing) == (if |round.messages| == |seed| + 2 then 1 else 0) &&
      Count(round.trace, Submitting) == Count(round.trace, Listing)
  {
    var round := ToolRoundRun(world, seed, message, call);
    if |round.trace| == 1 {
      forall k: Kind ensures Count(round.trace, k) == Tally(round.trace[0], k) {
        CountOne(round.trace[0], k);
      }
    } else {
      forall k: Kind ensures Count(round.trace, k) == Tally(round.trace[0], k) + Tally(round.trace[1], k) + Tally(round.trace[2], k) {
        CountTriple(round.trace[0], round.trace[1], round.trace[2], k);
      }
    }
  }

  /** The single-round bound: `call_tool` runs exactly when the model asked for a tool, at
      most once, and there are one or two submissions, two exactly when the transcript has
      grown to three entries. */
  lemma QueryCounts(world: ChatWorld, query: string)
    ensures var run := QueryRun(world, query);
      Count(run.trace, Calling) == (if ToolPath(FirstResponse(world, query)) then 1 else 0) &&
      1 <= Count(run.trace, Submitting) <= 2 &&
      (Count(run.trace, Submitting) == 2 <==> |run.messages| == 3) &&
      Count(run.trace, Listing) == Count(run.trace, Submitting)
  {
    var r := FirstResponse(world, query);
    var run := QueryRun(world, query);
    var first := [ListTools, Submit(Seed(query), ChatDescriptors(world.listTools(0)))];
    forall k: Kind ensures Count(first, k) == Tally(first[0], k) + Tally(first[1], k) {
      CountPair(first[0], first[1], k);
    }
    if ToolPath(r) {
      var round := ToolRoundRun(world, Seed(query), r.choices[0].message, FirstToolCall(r).value);
      RoundCounts(world, Seed(query), r.choices[0].message, FirstToolCall(r).value);
      assert run.trace == first + round.trace;
      forall k: Kind ensures Count(run.trace, k) == Count(first, k) + Count(round.trace, k) {
        CountConcat(first, round.trace, k);
      }
    }
  }

  /** The conversation invariants: each submission follows a fresh `list_tools`, and each
      submitted transcript is a prefix of the final one. */
  lemma QueryInvariants(world: ChatWorld, query: string)
    ensures var run := QueryRun(world, query);
      ListedBeforeEachSubmit(run.trace) && SubmitsArePrefixes(run.trace, run.messages)
  {
    var r := FirstResponse(world, query);
    var first := [ListTools, Submit(Seed(query), ChatDescriptors(world.listTools(0)))];
    assert ListedBeforeEachSubmit(first) && SubmitsArePrefixes(first, Seed(query));
    if ToolPath(r) {
      var call := FirstToolCall(r).value;
      var round := ToolRoundRun(world, Seed(query), r.choices[0].message, call);
      RoundInvariants(world, Seed(query), r.choices[0].message, call);
      ListedConcat(first, round.trace);
      PrefixesConcat(first, Seed(query), round.trace, round.messages);
    }
  }

  /** Every reply to a tool call in the final transcript answers a call requested earlier
      in it. */
  lemma QueryCorrelated(world: ChatWorld, query: string)
    ensures Correlated(QueryRun(world, query).messages)
  {
    var r := FirstResponse(world, query);
    if ToolPath(r) {
      var call := FirstToolCall(r).value;
      var round := ToolRoundRun(world, Seed(query), r.choices[0].message, call);
      RoundInvariants(world, Seed(query), r.choices[0].message, call);
      TranscriptCorrelated(round.messages, query, r.choices[0].message, call.id);
    } else {
      assert Correlated(Seed(query));
    }
  }

  /** The tool round on its own: it starts with the tool call, each of its submissions
      follows a `list_tools`, submits its final transcript, and only extends the seed. */
  lemma RoundInvariants(world: ChatWorld, seed: seq<ChatEntry>, message: ChatMessage, call: ToolCall)
    ensures var round := ToolRoundRun(world, seed, message, call);
      |round.trace| > 0 && !round.trace[0].Submit? &&
      ListedBeforeEachSubmit(round.trace) && SubmitsArePrefixes(round.trace, round.messages) &&
      seed <= round.messages &&
      (round.messages == seed + [Assistant(message)] ||
       exists c :: round.messages == seed + [Assistant(message), ToolMessage(call.id, c)])
  {
  }

  /** The transcripts a run can end with on the tool path are correlated. */
  lemma TranscriptCorrelated(messages: seq<ChatEntry>, query: string, message: ChatMessage, id: string)
    requires message.toolCalls.Some? && |message.toolCalls.value| > 0 && message.toolCalls.value[0].id == id
    requires messages == Seed(query) + [Assistant(message)] ||
             exists c :: messages == Seed(query) + [Assistant(message), ToolMessage(id, c)]
    ensures Correlated(messages)
  {
    assert Requests(messages[1], id);
  }

  /** The two orders differ exactly on a direct answer without tool calls: there the code as
      written raises at `tool_calls[0]`, and the checked order ends with nothing shown. */
  lemma CheckedDiffersOnDirectAnswer(world: ChatWorld, query: string)
    ensures var r := FirstResponse(world, query);
      var direct := |r.choices| > 0 && r.choices[0].finishReason != TOOL_CALLS && !HasToolCall(r);
      (QueryRunChecked(world, query) != QueryRun(world, query) <==> direct) &&
      (direct ==> QueryRun(world, query).outcome.Raised? && QueryRunChecked(world, query).outcome == NoAnswer)
  {
  }

  /** With the finish reason checked first, a reply that does not ask for a tool always ends
      normally after one submission, with or without tool calls; only a tool request without
      a tool call raises at `tool_calls[0]`. */
  lemma CheckedEndsOnDirectAnswer(world: ChatWorld, query: string)
    ensures var r := FirstResponse(world, query);
      var run := QueryRunChecked(world, query);
      (|r.choices| > 0 && r.choices[0].finishReason != TOOL_CALLS ==>
        run == Run(NoAnswer, Seed(query), [ListTools, Submit(Seed(query), ChatDescriptors(world.listTools(0)))])) &&
      (run.outcome == Raised(TypeError) ==> r.choices[0].finishReason == TOOL_CALLS && !HasToolCall(r))
  {
  }

  /** A model that answers directly (finish reason `"stop"`, no tool calls): as written the
      query raises `TypeError`; with the check first it ends normally. */
  method DirectAnswerScenario() returns (asWritten: Outcome, checked: Outcome)
    ensures asWritten == Raised(TypeError)
    ensures checked == NoAnswer
  {
    var direct := ChatCompletion("chatcmpl-1", [Choice("stop", ChatMessage(Some("The ISS is over the Pacific."), None))]);
    var world := ChatWorld(
      n => [Tool("get_position", Some("Get ISS geolocation."), JObject(map[]))],
      (m: seq<ChatEntry>, d: seq<JValue>) => direct,
      name => CallToolResult([TextContent("unused")]));
    assert FirstResponse(world, "Where is the ISS?") == direct;
    var m, t;
    asWritten, m, t := ProcessQuery(world, "Where is the ISS?");
    checked, m, t := ProcessQueryChecked(world, "Where is the ISS?");
  }

  /** The end-to-end scenario: the model first asks for `get_position`, the stub tool answers
      with a position, and the model's second reply is the printed answer. */
  method IssScenario() returns (outcome: Outcome, messages: seq<ChatEntry>, trace: seq<Event<ChatEntry>>)
    ensures |trace| == 5 && trace[2] == CallTool("get_position")
    ensures |messages| == 3 && messages[2] == ToolMessage("call_1", "{\"latitude\": \"10.0\", \"longitude\": \"20.0\"}")
    ensures outcome == Answered(Some("Near Lagos."))
  {
    var query := "What's the current geolocation of the ISS?";
    var ask := ChatCompletion("chatcmpl-1", [Choice(TOOL_CALLS, ChatMessage(None,
      Some([ToolCall("call_1", FunctionCall("get_position", "{}"))])))]);
    var answer := ChatCompletion("chatcmpl-2", [Choice("stop", ChatMessage(Some("Near Lagos."), None))]);
    var world := ChatWorld(
      n => [Tool("get_position", Some("Get ISS geolocation."), JObject(map[]))],
      (m: seq<ChatEntry>, d: seq<JValue>) => if |m| == 1 then ask else answer,
      name => CallToolResult([TextContent("{\"latitude\": \"10.0\", \"longitude\": \"20.0\"}")]));
    assert FirstResponse(world, query) == ask;
    outcome, messages, trace := ProcessQuery(world, query);
  }
}
