/** The "responses" shape of the model API, as used by mcp-client-responses.py: output items,
    the input entries the client sends, the flat function descriptors, and the outside world. */
module ResponsesApi {
  import opened Python
  import opened Json
  import opened Mcp

  /** One item of `response.output`. */
  datatype OutputItem =
    | FunctionToolCall(callId: string, name: string, arguments: string)
    | OutputMessage(text: string)
    | Reasoning(summary: string)

  /** The `type` attribute of an output item. */
  function ItemType(item: OutputItem): string {
    match item
    case FunctionToolCall(_, _, _) => "function_call"
    case OutputMessage(_) => "message"
    case Reasoning(_) => "reasoning"
  }

  /** What `responses.create` returns; `outputText` is the `output_text` property. */
  datatype Response = Response(output: seq<OutputItem>, outputText: string)

  /** An input entry: a dict literal the client builds, or an output item of an earlier
      response that the client appends as it is. */
  datatype InputEntry = Dict(value: JValue) | Item(item: OutputItem)

  /** The developer message as an input entry. */
  function DeveloperMessage(query: string): InputEntry {
    Dict(DeveloperDict(query))
  }

  /** Everything outside the client: the `n`-th `list_tools` reply, the model and `call_tool`. */
  datatype ResponsesWorld = ResponsesWorld(
    listTools: nat -> seq<Tool>,
    create: (seq<InputEntry>, seq<JValue>) -> Response,
    callTool: string -> CallToolResult)

  /** `response.output[0]`: raises on an empty output list. */
  function FirstOutput(r: Response): (item: Result<OutputItem>)
    ensures item.Ok? <==> |r.output| > 0
    ensures item.Ok? ==> item.value == r.output[0]
    ensures item.Raise? ==> item.error == IndexError
  {
    if |r.output| == 0 then Raise(IndexError) else Ok(r.output[0])
  }

  /** `{"type": "function", "name": ..., "description": ...}`: the flat descriptor, with no
      parameter schema and no nested `function` object. */
  function FlatDescriptor(t: Tool): (d: JValue)
    ensures d.JObject? && d.fields.Keys == {"type", "name", "description"}
    ensures d.fields["type"] == JStr("function")
    ensures ReadFlatDescriptor(d) == Some((t.name, t.description))
  {
    JObject(map["type" := JStr("function"), "name" := JStr(t.name), "description" := DescriptionValue(t.description)])
  }

  /** What a model reads back from a flat descriptor: the name and description. */
  function ReadFlatDescriptor(d: JValue): Option<(string, Option<string>)> {
    if d.JObject? && "name" in d.fields && d.fields["name"].JStr? && "description" in d.fields then
      match d.fields["description"]
      case JStr(s) => Some((d.fields["name"].s, Some(s)))
      case JNull => Some((d.fields["name"].s, None))
      case _ => None
    else None
  }

  /** The list comprehension over `response.tools`: one flat descriptor per tool, in order. */
  function FlatDescriptors(ts: seq<Tool>): (ds: seq<JValue>)
    ensures |ds| == |ts|
  {
    if ts == [] then [] else [FlatDescriptor(ts[0])] + FlatDescriptors(ts[1..])
  }

  /** The `i`-th descriptor is built from the `i`-th tool. */
  lemma {:induction false} FlatDescriptorsAt(ts: seq<Tool>, i: nat)
    requires i < |ts|
    ensures FlatDescriptors(ts)[i] == FlatDescriptor(ts[i])
  {
    if i > 0 {
      FlatDescriptorsAt(ts[1..], i - 1);
    }
  }

  /** The descriptor list reads back as the tools' names and descriptions, in the same order,
      so two tools have equal names exactly when their descriptors do. */
  lemma FlatDescriptorsReadBack(ts: seq<Tool>)
    ensures forall i :: 0 <= i < |ts| ==>
      ReadFlatDescriptor(FlatDescriptors(ts)[i]) == Some((ts[i].name, ts[i].description))
    ensures forall i, j :: 0 <= i < |ts| && 0 <= j < |ts| ==>
      (ts[i].name == ts[j].name <==>
       ReadFlatDescriptor(FlatDescriptors(ts)[i]).value.0 == ReadFlatDescriptor(FlatDescriptors(ts)[j]).value.0)
  {
  }
}
