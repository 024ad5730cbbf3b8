/** The chat-completions shape of the model API, as used by mcp-client.py and client.py:
    the response objects the clients read, the transcript entries they send, the function
    descriptors they build from the advertised tools, and the outside world they talk to. */
module ChatApi {
  import opened Python
  import opened Json
  import opened Mcp

  datatype FunctionCall = FunctionCall(name: string, arguments: string)

  /** One entry of `message.tool_calls`; `fn` is its `function` attribute. */
  datatype ToolCall = ToolCall(id: string, fn: FunctionCall)

  /** `choice.message`; `tool_calls` is `None` when the model asked for no tool. */
  datatype ChatMessage = ChatMessage(content: Option<string>, toolCalls: Option<seq<ToolCall>>)

  datatype Choice = Choice(finishReason: string, message: ChatMessage)

  /** What `chat.completions.create` returns. */
  datatype ChatCompletion = ChatCompletion(id: string, choices: seq<Choice>)

  /** A transcript entry: either a dict literal the client builds, or a message object the
      model returned and the client appends as it is. */
  datatype ChatEntry = Dict(value: JValue) | Assistant(message: ChatMessage)

  /** The developer message as a transcript entry. */
  function DeveloperMessage(query: string): ChatEntry {
    Dict(DeveloperDict(query))
  }

  /** Everything outside the client: the `n`-th `list_tools` reply, the model (a function of
      the submitted transcript and descriptors) and the tool server's `call_tool`. */
  datatype ChatWorld = ChatWorld(
    listTools: nat -> seq<Tool>,
    complete: (seq<ChatEntry>, seq<JValue>) -> ChatCompletion,
    callTool: string -> CallToolResult)

  /** The finish reason by which the model signals a tool-call request. */
  const TOOL_CALLS := "tool_calls"

  /** The model's first choice carries at least one tool call. */
  predicate HasToolCall(r: ChatCompletion) {
    |r.choices| > 0 && r.choices[0].message.toolCalls.Some? && |r.choices[0].message.toolCalls.value| > 0
  }

  /** `response.choices[0].message.tool_calls[0]`, with the exceptions Python raises on the way. */
  function FirstToolCall(r: ChatCompletion): (c: Result<ToolCall>)
    ensures c.Ok? <==> HasToolCall(r)
    ensures c.Ok? ==> c.value == r.choices[0].message.toolCalls.value[0]
    ensures |r.choices| == 0 ==> c == Raise(IndexError)
    ensures |r.choices| > 0 && r.choices[0].message.toolCalls.None? ==> c == Raise(TypeError)
    ensures |r.choices| > 0 && r.choices[0].message.toolCalls == Some([]) ==> c == Raise(IndexError)
  {
    if |r.choices| == 0 then Raise(IndexError)
    else match r.choices[0].message.toolCalls
      case None => Raise(TypeError)
      case Some(calls) => if |calls| == 0 then Raise(IndexError) else Ok(calls[0])
  }

  /** The name and description of a tool: what a descriptor is meant to carry. */
  datatype Signature = Signature(name: string, description: Option<string>)

  /** `{"type": "function", "function": {"name": ..., "description": ...}}`: the nested
      chat-completions descriptor. No parameter schema is included. */
  function ChatDescriptor(t: Tool): (d: JValue)
    ensures d.JObject? && d.fields.Keys == {"type", "function"}
    ensures d.fields["type"] == JStr("function")
    ensures d.fields["function"].JObject? && d.fields["function"].fields.Keys == {"name", "description"}
    ensures ReadDescriptor(d) == Some(Signature(t.name, t.description))
  {
    JObject(map[
      "type" := JStr("function"),
      "function" := JObject(map["name" := JStr(t.name), "description" := DescriptionValue(t.description)])])
  }

  /** What a model reads back from a nested descriptor: the function's name and description,
      or `None` when the descriptor does not have that shape. */
  function ReadDescriptor(d: JValue): Option<Signature> {
    if d.JObject? && "function" in d.fields && d.fields["function"].JObject? then
      var f := d.fields["function"].fields;
      if "name" in f && f["name"].JStr? && "description" in f then
        match f["description"]
        case JStr(s) => Some(Signature(f["name"].s, Some(s)))
        case JNull => Some(Signature(f["name"].s, None))
        case _ => None
      else None
    else None
  }

  /** The list comprehension over `response.tools`: one descriptor per tool, in order. */
  function ChatDescriptors(ts: seq<Tool>): (ds: seq<JValue>)
    ensures |ds| == |ts|
  {
    if ts == [] then [] else [ChatDescriptor(ts[0])] + ChatDescriptors(ts[1..])
  }

  /** The `i`-th descriptor is built from the `i`-th tool. */
  lemma {:induction false} ChatDescriptorsAt(ts: seq<Tool>, i: nat)
    requires i < |ts|
    ensures ChatDescriptors(ts)[i] == ChatDescriptor(ts[i])
  {
    if i > 0 {
      ChatDescriptorsAt(ts[1..], i - 1);
    }
  }

  /** The descriptor list reads back as the tools' names and descriptions, in the same order;
      so two tools have equal names exactly when their descriptors do. */
  lemma ChatDescriptorsReadBack(ts: seq<Tool>)
    ensures forall i :: 0 <= i < |ts| ==>
      ReadDescriptor(ChatDescriptors(ts)[i]) == Some(Signature(ts[i].name, ts[i].description))
    ensures forall i, j :: 0 <= i < |ts| && 0 <= j < |ts| ==>
      (ts[i].name == ts[j].name <==>
       ReadDescriptor(ChatDescriptors(ts)[i]).value.name == ReadDescriptor(ChatDescriptors(ts)[j]).value.name)
  {
  }
}
