/** The parts of the Model Context Protocol session that the clients see (the advertised
    tools, the content of a tool result), the developer message every client opens with,
    and a recorded trace of the calls a client makes to the tool server and to the model. */
module Mcp {
  import opened Python
  import opened Json

  /** One entry of `list_tools().tools`. The description is optional in the protocol. */
  datatype Tool = Tool(name: string, description: Option<string>, inputSchema: JValue)

  /** One item of `CallToolResult.content`. Only text items have a `text` attribute. */
  datatype ContentItem =
    | TextContent(text: string)
    | ImageContent(data: string, mimeType: string)

  /** What `session.call_tool(name)` returns. */
  datatype CallToolResult = CallToolResult(content: seq<ContentItem>)

  /** `{"role": "developer", "content": query}`: the message every client's transcript
      starts with. */
  function DeveloperDict(query: string): (v: JValue)
    ensures v.JObject? && v.fields.Keys == {"role", "content"}
    ensures HasStr(v, "role", "developer") && HasStr(v, "content", query)
  {
    JObject(map["role" := JStr("developer"), "content" := JStr(query)])
  }

  /** `description` as it is copied into a dict: `None` becomes JSON null. */
  function DescriptionValue(d: Option<string>): JValue {
    match d
    case None => JNull
    case Some(s) => JStr(s)
  }

  /** `result.content[0].text`: raises on an empty content list, or when the first item
      is not a text item. */
  function FirstText(result: CallToolResult): (r: Result<string>)
    ensures r.Ok? <==> |result.content| > 0 && result.content[0].TextContent?
    ensures r.Ok? ==> r.value == result.content[0].text
    ensures |result.content| == 0 ==> r == Raise(IndexError)
    ensures |result.content| > 0 && !result.content[0].TextContent? ==> r == Raise(AttributeError("text"))
  {
    if |result.content| == 0 then Raise(IndexError)
    else match result.content[0]
      case TextContent(t) => Ok(t)
      case ImageContent(_, _) => Raise(AttributeError("text"))
  }

  /** One outward call of a client, recorded in the order it is made. `M` is the type of the
      transcript entries of the model API in use; a submission records the transcript and the
      function descriptors exactly as they were at the moment of the call. */
  datatype Event<M> =
    | ListTools
    | CallTool(name: string)
    | Submit(transcript: seq<M>, tools: seq<JValue>)

  /** `Count(t, k)` is the number of events of kind `k` in trace `t`. */
  datatype Kind = Listing | Calling | Submitting

  function KindOf<M>(e: Event<M>): Kind {
    match e
    case ListTools => Listing
    case CallTool(_) => Calling
    case Submit(_, _) => Submitting
  }

  /** 1 when the event is of kind `k`, else 0. */
  function Tally<M>(e: Event<M>, k: Kind): nat {
    if KindOf(e) == k then 1 else 0
  }

  function Count<M>(t: seq<Event<M>>, k: Kind): (n: nat)
    ensures n <= |t|
  {
    if t == [] then 0 else Tally(t[0], k) + Count(t[1..], k)
  }

  /** Counting distributes over joining traces. */
  lemma {:induction false} CountConcat<M>(a: seq<Event<M>>, b: seq<Event<M>>, k: Kind)
    ensures Count(a + b, k) == Count(a, k) + Count(b, k)
  {
    if a == [] {
      assert a + b == b;
    } else {
      CountConcat(a[1..], b, k);
      assert (a + b)[1..] == a[1..] + b;
    }
  }

  /** A one-event trace counts that event once, under its own kind. */
  lemma CountOne<M>(e: Event<M>, k: Kind)
    ensures Count([e], k) == Tally(e, k)
  {
    assert [e][1..] == [];
  }

  /** The counts of a two-event trace, by `CountConcat`. */
  lemma CountPair<M>(e1: Event<M>, e2: Event<M>, k: Kind)
    ensures Count([e1, e2], k) == Tally(e1, k) + Tally(e2, k)
  {
    assert [e1, e2] == [e1] + [e2];
    CountConcat([e1], [e2], k);
    CountOne(e1, k);
    CountOne(e2, k);
  }

  /** The counts of a three-event trace, by `CountConcat`. */
  lemma CountTriple<M>(e1: Event<M>, e2: Event<M>, e3: Event<M>, k: Kind)
    ensures Count([e1, e2, e3], k) == Tally(e1, k) + Tally(e2, k) + Tally(e3, k)
  {
    assert [e1, e2, e3] == [e1] + [e2, e3];
    CountConcat([e1], [e2, e3], k);
    CountOne(e1, k);
    CountPair(e2, e3, k);
  }

  /** Every submission in the trace is immediately preceded by a fresh `list_tools`. */
  ghost predicate ListedBeforeEachSubmit<M>(t: seq<Event<M>>) {
    forall i :: 0 <= i < |t| && t[i].Submit? ==> 0 < i && t[i - 1] == ListTools
  }

  /** Joining two traces keeps "listed before each submit" when the second does not start
      with a submission. */
  lemma ListedConcat<M>(a: seq<Event<M>>, b: seq<Event<M>>)
    requires ListedBeforeEachSubmit(a) && ListedBeforeEachSubmit(b)
    requires |b| > 0 ==> !b[0].Submit?
    ensures ListedBeforeEachSubmit(a + b)
  {
  }

  /** Every transcript the trace submits is a prefix of `final`: the conversation only grows. */
  ghost predicate SubmitsArePrefixes<M>(t: seq<Event<M>>, final: seq<M>) {
    forall i :: 0 <= i < |t| && t[i].Submit? ==> t[i].transcript <= final
  }

  /** Joining two traces keeps "submissions are prefixes" once the first trace's final
      transcript has grown into the second's. */
  lemma PrefixesConcat<M>(a: seq<Event<M>>, mid: seq<M>, b: seq<Event<M>>, final: seq<M>)
    requires SubmitsArePrefixes(a, mid) && mid <= final && SubmitsArePrefixes(b, final)
    ensures SubmitsArePrefixes(a + b, final)
  {
  }
}
