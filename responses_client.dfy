/** `MCPClient.send_request` and `MCPClient.process_query` of mcp-client-responses.py: one
    query, answered with at most one function-call round over the responses API. */
module ResponsesClient {
  import opened Python
  import opened Json
  import opened Mcp
  import opened ResponsesApi

  /** How a `process_query` call ends: nothing shown, the printed `output_text` of the second
      response, or an exception. */
  datatype Outcome = NoAnswer | Answered(text: string) | Raised(error: PyError)

  /** `{"type": "function_call_output", "call_id": callId, "output": output}`. */
  function CallOutput(callId: string, output: string): (e: InputEntry)
    ensures e.Dict? && e.value.JObject? && e.value.fields.Keys == {"type", "call_id", "output"}
    ensures HasStr(e.value, "output", output) && Answers(e, callId)
  {
    Dict(JObject(map["type" := JStr("function_call_output"), "call_id" := JStr(callId), "output" := JStr(output)]))
  }

  /** The entry is a function-call output for the call `id`. */
  predicate Answers(e: InputEntry, id: string) {
    e.Dict? && HasStr(e.value, "type", "function_call_output") && HasStr(e.value, "call_id", id)
  }

  /** The entry is a function-call item with call id `id`. */
  predicate Calls(e: InputEntry, id: string) {
    e.Item? && e.item.FunctionToolCall? && e.item.callId == id
  }

  /** Every function-call output answers a function-call item earlier in the input. */
  ghost predicate Correlated(messages: seq<InputEntry>) {
    forall j, id :: 0 <= j < |messages| && Answers(messages[j], id) ==>
      exists i :: 0 <= i < j && Calls(messages[i], id)
  }

  /** The input a query starts from. */
  function Seed(query: string): seq<InputEntry> {
    [DeveloperMessage(query)]
  }

  /** The model's reply to the seeded input (the first `list_tools` reply is number 0). */
  function FirstResponse(world: ResponsesWorld, query: string): Response {
    world.create(Seed(query), FlatDescriptors(world.listTools(0)))
  }

  /** The first output item is a function call. */
  predicate CallPath(r: Response) {
    |r.output| > 0 && ItemType(r.output[0]) == "function_call"
  }

  /** Everything a run of `process_query` leaves behind: how it ended, the final input list,
      and the trace of outward calls. */
  datatype Run = Run(outcome: Outcome, messages: seq<InputEntry>, trace: seq<Event<InputEntry>>)

  /** The function-call round, entered after the first submission with the first output item
      `call`. */
  function CallRoundRun(world: ResponsesWorld, seed: seq<InputEntry>, call: OutputItem): Run
    requires call.FunctionToolCall?
  {
    var withCall := seed + [Item(call)];
    var coordinate := FirstText(world.callTool(call.name));
    if coordinate.Raise? then Run(Raised(coordinate.error), withCall, [CallTool(call.name)])
    else
      var messages := withCall + [CallOutput(call.callId, coordinate.value)];
      var tools := FlatDescriptors(world.listTools(1));
      Run(Answered(world.create(messages, tools).outputText), messages, [CallTool(call.name), ListTools, Submit(messages, tools)])
  }

  /** A run of `process_query`: only `output[0]` is inspected. */
  function QueryRun(world: ResponsesWorld, query: string): Run {
    var first := [ListTools, Submit(Seed(query), FlatDescriptors(world.listTools(0)))];
    var r := FirstResponse(world, query);
    match FirstOutput(r)
    case Raise(e) => Run(Raised(e), Seed(query), first)
    case Ok(item) =>
      if ItemType(item) == "function_call" then
        var round := CallRoundRun(world, Seed(query), item);
        Run(round.outcome, round.messages, first + round.trace)
      else Run(NoAnswer, Seed(query), first)
  }

  /** `send_request`: a fresh `list_tools` (the `listed`-th of this query), then one
      submission of the input with the flat descriptors built from that reply. */
  method SendRequest(world: ResponsesWorld, listed: nat, messages: seq<InputEntry>)
    returns (response: Response, events: seq<Event<InputEntry>>)
    ensures events == [ListTools, Submit(messages, FlatDescriptors(world.listTools(listed)))]
    ensures response == world.create(messages, FlatDescriptors(world.listTools(listed)))
  {
    var tools := world.listTools(listed);
    var available := FlatDescriptors(tools);
    response := world.create(messages, available);
    events := [ListTools, Submit(messages, available)];
  }

  /** The function-call round: append the item, call the tool by its name, append the output
      correlated by its call id, submit again. */
  method CallRound(world: ResponsesWorld, seed: seq<InputEntry>, call: OutputItem)
    returns (outcome: Outcome, messages: seq<InputEntry>, events: seq<Event<InputEntry>>)
    requires call.FunctionToolCall?
    ensures Run(outcome, messages, events) == CallRoundRun(world, seed, call)
  {
    messages := seed;
    messages := messages + [Item(call)];
    var toolResult := world.callTool(call.name);
    events := [CallTool(call.name)];
    var coordinate := FirstText(toolResult);
    if coordinate.Raise? {
      outcome := Raised(coordinate.error);
      return;
    }
    messages := messages + [CallOutput(call.callId, coordinate.value)];
    var response, more := SendRequest(world, 1, messages);
    events := events + more;
    outcome := Answered(response.outputText);
  }

  /** `process_query`. */
  method ProcessQuery(world: ResponsesWorld, query: string)
    returns (outcome: Outcome, messages: seq<InputEntry>, trace: seq<Event<InputEntry>>)
    ensures Run(outcome, messages, trace) == QueryRun(world, query)
  {
    messages := [DeveloperMessage(query)];
    var response;
    response, trace := SendRequest(world, 0, messages);
    var toolCall := FirstOutput(response);
    if toolCall.Raise? {
      outcome := Raised(toolCall.error);
      return;
    }
    if ItemType(toolCall.value) == "function_call" {
      var more;
      outcome, messages, more := CallRound(world, messages, toolCall.value);
      trace := trace + more;
    } else {
      outcome := NoAnswer;
    }
  }

  // ---- Properties of a run ----

  /** Every run starts with one `list_tools` and one submission of the seeded input, and its
      input starts with the developer message carrying the query. */
  lemma QueryStart(world: ResponsesWorld, query: string)
    ensures var run := QueryRun(world, query);
      |run.trace| >= 2 && run.trace[..2] == [ListTools, Submit(Seed(query), FlatDescriptors(world.listTools(0)))] &&
      |run.messages| >= 1 && run.messages[0] == DeveloperMessage(query)
  {
  }

  /** An empty output list raises at `output[0]`; a first item of another type ends the query
      with nothing shown. Either way: one submission and the input unchanged. */
  lemma QueryWithoutCall(world: ResponsesWorld, query: string)
    requires !CallPath(FirstResponse(world, query))
    ensures QueryRun(world, query) ==
      Run(if |FirstResponse(world, query).output| == 0 then Raised(IndexError) else NoAnswer, Seed(query),
          [ListTools, Submit(Seed(query), FlatDescriptors(world.listTools(0)))])
  {
  }

  /** On the function-call path: one `call_tool` with the item's name; the input grows by the
      item itself and then by its output, keyed by the item's call id; then a fresh
      `list_tools` and the second submission, whose `output_text` is the answer. */
  lemma QueryCallPath(world: ResponsesWorld, query: string)
    requires CallPath(FirstResponse(world, query))
    ensures var call := FirstResponse(world, query).output[0];
      var run := QueryRun(world, query);
      var coordinate := FirstText(world.callTool(call.name));
      call.FunctionToolCall? &&
      |run.trace| >= 3 && run.trace[2] == CallTool(call.name) &&
      |run.messages| >= 2 && run.messages[..2] == Seed(query) + [Item(call)] &&
      (coordinate.Raise? ==> run.outcome == Raised(coordinate.error) && |run.messages| == 2 && |run.trace| == 3) &&
      (coordinate.Ok? ==>
        run.messages == Seed(query) + [Item(call), CallOutput(call.callId, coordinate.value)] &&
        run.trace[2..] == [CallTool(call.name), ListTools, Submit(run.messages, FlatDescriptors(world.listTools(1)))] &&
        run.outcome == Answered(world.create(run.messages, FlatDescriptors(world.listTools(1))).outputText))
  {
  }

  /** The function-call round on its own calls the tool once, and lists and submits once each exactly
      when its transcript has grown by two entries. */
  lemma RoundCounts(world: ResponsesWorld, seed: seq<InputEntry>, call: OutputItem)
    requires call.FunctionToolCall?
    ensures var round := CallRoundRun(world, seed, call);
      Count(round.trace, Calling) == 1 &&
      Count(round.trace, Listing) == (if |round.messages| == |seed| + 2 then 1 else 0) &&
      Count(round.trace, Submitting) == Count(round.trace, Listing)
  {
    var round := CallRoundRun(world, seed, call);
    if |round.trace| == 1 {
      forall k: Kind ensures Count(round.trace, k) == Tally(round.trace[0], k) {
        CountOne(round.trace[0], k);
      }
    } else {
      forall k: Kind ensures Count(round.trace, k) == Tally(round.trace[0], k) + Tally(round.trace[1], k) + Tally(round.trace[2], k) {
        CountTriple(round.trace[0], round.trace[1], round.trace[2], k);
      }
    }
  }

  /** The single-round bound: `call_tool` runs exactly when `output[0]` is a function call,
      at most once, and there are one or two submissions, two exactly when the input has grown
      to three entries. */
  lemma QueryCounts(world: ResponsesWorld, query: string)
    ensures var run := QueryRun(world, query);
      Count(run.trace, Calling) == (if CallPath(FirstResponse(world, query)) then 1 else 0) &&
      1 <= Count(run.trace, Submitting) <= 2 &&
      (Count(run.trace, Submitting) == 2 <==> |run.messages| == 3) &&
      Count(run.trace, Listing) == Count(run.trace, Submitting)
  {
    var r := FirstResponse(world, query);
    var run := QueryRun(world, query);
    var first := [ListTools, Submit(Seed(query), FlatDescriptors(world.listTools(0)))];
    forall k: Kind ensures Count(first, k) == Tally(first[0], k) + Tally(first[1], k) {
      CountPair(first[0], first[1], k);
    }
    if CallPath(r) {
      var round := CallRoundRun(world, Seed(query), r.output[0]);
      RoundCounts(world, Seed(query), r.output[0]);
      assert run.trace == first + round.trace;
      forall k: Kind ensures Count(run.trace, k) == Count(first, k) + Count(round.trace, k) {
        CountConcat(first, round.trace, k);
      }
    }
  }

  /** The conversation invariants: each submission follows a fresh `list_tools`, and each
      submitted transcript is a prefix of the final one. */
  lemma QueryInvariants(world: ResponsesWorld, query: string)
    ensures var run := QueryRun(world, query);
      ListedBeforeEachSubmit(run.trace) && SubmitsArePrefixes(run.trace, run.messages)
  {
    var r := FirstResponse(world, query);
    var first := [ListTools, Submit(Seed(query), FlatDescriptors(world.listTools(0)))];
    assert ListedBeforeEachSubmit(first) && SubmitsArePrefixes(first, Seed(query));
    if CallPath(r) {
      var call := r.output[0];
      var round := CallRoundRun(world, Seed(query), call);
      RoundInvariants(world, Seed(query), call);
      ListedConcat(first, round.trace);
      PrefixesConcat(first, Seed(query), round.trace, round.messages);
    }
  }

  /** Every reply to a tool call in the final transcript answers a call requested earlier
      in it. */
  lemma QueryCorrelated(world: ResponsesWorld, query: string)
    ensures Correlated(QueryRun(world, query).messages)
  {
    var r := FirstResponse(world, query);
    if CallPath(r) {
      var call := r.output[0];
      var round := CallRoundRun(world, Seed(query), call);
      RoundInvariants(world, Seed(query), call);
      TranscriptCorrelated(round.messages, query, call);
    } else {
      assert Correlated(Seed(query));
    }
  }

  /** The function-call round on its own: it starts with the tool call, each of its
      submissions follows a `list_tools`, submits its final input, and only extends the seed. */
  lemma RoundInvariants(world: ResponsesWorld, seed: seq<InputEntry>, call: OutputItem)
    requires call.FunctionToolCall?
    ensures var round := CallRoundRun(world, seed, call);
      |round.trace| > 0 && !round.trace[0].Submit? &&
      ListedBeforeEachSubmit(round.trace) && SubmitsArePrefixes(round.trace, round.messages) &&
      seed <= round.messages &&
      (round.messages == seed + [Item(call)] ||
       exists c :: round.messages == seed + [Item(call), CallOutput(call.callId, c)])
  {
  }

  /** The inputs `process_query` can end with are correlated. */
  lemma TranscriptCorrelated(messages: seq<InputEntry>, query: string, call: OutputItem)
    requires call.FunctionToolCall?
    requires messages == Seed(query) + [Item(call)] ||
             exists c :: messages == Seed(query) + [Item(call), CallOutput(call.callId, c)]
    ensures Correlated(messages)
  {
    assert Calls(messages[1], call.callId);
  }

  /** The end-to-end scenario: a reasoning item first in the output is not a function call,
      so the query ends after one submission even though the model wants the tool. */
  method ReasoningFirstScenario() returns (outcome: Outcome, messages: seq<InputEntry>, trace: seq<Event<InputEntry>>)
    ensures outcome == NoAnswer && |messages| == 1 && |trace| == 2
  {
    var query := "What's the current geolocation of the ISS?";
    var first := Response([Reasoning(""), FunctionToolCall("call_1", "get_position", "{}")], "");
    var world := ResponsesWorld(
      n => [Tool("get_position", Some("Get ISS geolocation."), JObject(map[]))],
      (m: seq<InputEntry>, d: seq<JValue>) => first,
      name => CallToolResult([TextContent("unused")]));
    assert FirstResponse(world, query) == first;
    outcome, messages, trace := ProcessQuery(world, query);
  }
}
