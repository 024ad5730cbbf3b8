# ISS position over MCP: a Dafny model

The repository pairs a small Model Context Protocol (MCP) tool server with three OpenAI
clients. The server offers one tool, `get_position`, which fetches the International Space
Station's current position from the open-notify API. Each client takes one natural-language
query and does the following:

- lists the server's tools and turns them into function descriptors for the model;
- submits the query;
- when the model asks for a tool, calls it once, appends the result to the conversation, and
  submits the conversation a second time.

The clients are:

- `mcp-client.py`: the chat-completions client. It uses nested descriptors and answers with
  a `tool` message correlated by the tool call's id.
- `mcp-client-responses.py`: the responses client. It uses flat descriptors and inspects only
  `output[0]`, answering with a `function_call_output` item correlated by `call_id`.
- `client.py`: the earlier chat-completions client. It lists the tools once, checks the
  finish reason first, and sends the tool result back as a `user` message whose
  `tool_use_id` is the completion's id.

Modules:

- `Python` (python.dfy): the `Option` and `Result` types, and the exceptions that the code's
  indexing can raise.
- `Json` (json.dfy): the dict literals the clients build, plus Python truthiness and
  `dict.get`.
- `Mcp` (mcp.dfy): the tools, the tool results, and the trace of outward calls a client
  makes, with its counting and invariant predicates.
- `ChatApi` (chat_api.dfy) and `ResponsesApi` (responses_api.dfy): the response shapes of
  the two model APIs, the descriptor mappings, and the "world" each client talks to.
- `ChatClient`, `ResponsesClient` and `LegacyClient`: the three `process_query`
  implementations.
- `IssServer` (iss_server.dfy): the tool's URL, `get_position` and `format_response`.

How the model is built:

- Each client's outward calls are fields of a world value:
  - the `n`-th `list_tools` reply of a query;
  - the model, as a function of the submitted transcript and descriptors;
  - `call_tool`, as a function of the tool name.
- A query is a `method` whose loop-free body follows the source statement by statement.
  It returns the final transcript and the trace of outward calls, and it is proved equal to
  a specification function (`QueryRun`).
- Lemmas about `QueryRun` state what a query does on each path, how many calls of each kind
  it makes, and the invariants of the conversation.
- A Python exception is a `Raised` outcome, never a precondition.

## Model

| member | source | states |
|---|---|---|
| Mcp.FirstText | mcp-client.py:93 | `content[0].text` succeeds exactly on a non-empty result whose first item is text, and yields that text; an empty result raises IndexError, a non-text first item AttributeError |
| Mcp.DeveloperDict | mcp-client.py:70-75 | the message every transcript starts with is a dict with exactly `role` = "developer" and `content` = the query |
| Mcp.CountConcat | mcp-client.py:48-104 | the number of calls of a kind in two joined traces is the sum of their counts |
| Mcp.CountOne | mcp-client.py:48-104 | a one-call trace counts that call once, under its own kind |
| Mcp.CountPair | mcp-client.py:48-66 | a two-call trace (one `send_request`) counts each of its calls once |
| Mcp.CountTriple | mcp-client.py:91-103 | a three-call trace (a tool round) counts each of its calls once |
| Mcp.ListedConcat | mcp-client.py:49 | appending a trace that does not start with a submission keeps every submission right after a fresh `list_tools` |
| Mcp.PrefixesConcat | mcp-client.py:83-103 | appending a trace keeps every submitted transcript a prefix of the final one, since the transcript only grows |
| ChatApi.FirstToolCall | mcp-client.py:77 | `choices[0].message.tool_calls[0]` succeeds exactly when the first choice has a tool call, and yields the first one; no choices or an empty list raise IndexError, `None` raises TypeError |
| ChatApi.ChatDescriptor | mcp-client.py:50-56 | a descriptor has exactly the keys `type` (the string "function") and `function` (with exactly `name` and `description`), and reads back as the tool's name and description |
| ChatApi.ChatDescriptors | mcp-client.py:50-56 | one descriptor per advertised tool |
| ChatApi.ChatDescriptorsAt | mcp-client.py:50-56 | the `i`-th descriptor is built from the `i`-th tool, so order is kept |
| ChatApi.ChatDescriptorsReadBack | mcp-client.py:50-56 | every descriptor reads back as its tool's name and description; two descriptors have equal names exactly when their tools do |
| ResponsesApi.FirstOutput | mcp-client-responses.py:77 | `output[0]` raises IndexError on an empty output list and otherwise yields the first item |
| ResponsesApi.FlatDescriptor | mcp-client-responses.py:53-57 | a flat descriptor has exactly the keys `type`, `name` and `description`, and reads back as the tool's name and description |
| ResponsesApi.FlatDescriptors | mcp-client-responses.py:53-57 | one flat descriptor per advertised tool |
| ResponsesApi.FlatDescriptorsAt | mcp-client-responses.py:53-57 | the `i`-th flat descriptor is built from the `i`-th tool |
| ResponsesApi.FlatDescriptorsReadBack | mcp-client-responses.py:53-57 | every flat descriptor reads back as its tool's name and description; names are equal exactly when the tools' names are |
| ChatClient.ToolMessage | mcp-client.py:96-100 | the tool message has exactly the keys `role` = "tool", `tool_call_id` and `content`, and replies to the given call id |
| ChatClient.FinalAnswer | mcp-client.py:104 | the printed answer is the first choice's content; no choices raise IndexError |
| ChatClient.SendRequest | mcp-client.py:48-66 | one fresh `list_tools` then one submission of the transcript, with the descriptors of that reply; the reply is the model's answer to exactly that input |
| ChatClient.ToolRound | mcp-client.py:83-104 | the tool round computes exactly `ToolRoundRun`: append the model's message, call the named tool, append the tool message, list again, submit again |
| ChatClient.ProcessQuery | mcp-client.py:68-104 | the query, as written, computes exactly `QueryRun`: outcome, final transcript and call trace |
| ChatClient.ProcessQueryChecked | mcp-client.py:77-80 | the corrected order, the finish reason read before `tool_calls[0]`, computes exactly `QueryRunChecked` |
| ChatClient.QueryStart | mcp-client.py:70-76 | every run begins with `list_tools` and the submission of the developer message alone |
| ChatClient.QueryWithoutToolCall | mcp-client.py:77 | without a first tool call the run raises at `tool_calls[0]` whatever the finish reason, with one submission and the transcript unchanged |
| ChatClient.QueryNotAsked | mcp-client.py:80 | a tool call whose finish reason is not "tool_calls" is ignored: one submission, transcript unchanged, nothing printed |
| ChatClient.QueryToolPath | mcp-client.py:80-104 | on the tool path: the third call is `call_tool` with the first tool call's name; the transcript is the seed, the model's message and the tool message keyed by that call's id with the first text content; then `list_tools` and a second submission whose first choice is the answer; a failing text read raises with no second submission |
| ChatClient.QueryCounts | mcp-client.py:68-104 | `call_tool` runs once exactly on the tool path and never otherwise; one or two submissions, two exactly when the transcript has three entries; as many `list_tools` as submissions |
| ChatClient.RoundCounts | mcp-client.py:91-103 | the tool round calls the tool once, and lists and submits once each exactly when the transcript has grown by two entries |
| ChatClient.QueryInvariants | mcp-client.py:76-103 | each submission follows a fresh `list_tools`, and each submitted transcript is a prefix of the final one |
| ChatClient.QueryCorrelated | mcp-client.py:83-100 | every tool message in the final transcript replies to a tool call requested by an earlier assistant message |
| ChatClient.RoundInvariants | mcp-client.py:83-103 | the tool round starts with the tool call, lists before it submits, submits its own final transcript and only extends the seed |
| ChatClient.TranscriptCorrelated | mcp-client.py:83-100 | the transcripts a tool round ends with are correlated: the tool message's id is the id of the first tool call of the assistant message before it |
| ChatClient.CheckedDiffersOnDirectAnswer | mcp-client.py:77-80 | the as-written and corrected runs differ exactly on a direct answer without tool calls; there the as-written run raises and the corrected one ends with nothing printed |
| ChatClient.CheckedEndsOnDirectAnswer | mcp-client.py:77-80 | in the corrected order a reply that does not ask for a tool always ends normally after one submission, and TypeError can arise only from a tool request without tool calls |
| ChatClient.DirectAnswerScenario | mcp-client.py:77 | a model answering with finish reason "stop" and no tool calls makes the as-written query raise TypeError, while the corrected one ends normally |
| ChatClient.IssScenario | mcp-client.py:68-104 | the end-to-end ISS question: five calls with `call_tool("get_position")` third, a three-entry transcript ending in the tool message for "call_1", and the second reply's content as the answer |
| ResponsesClient.CallOutput | mcp-client-responses.py:90-94 | the output entry has exactly the keys `type` = "function_call_output", `call_id` and `output`, and answers the given call id |
| ResponsesClient.SendRequest | mcp-client-responses.py:50-66 | one fresh `list_tools` then one submission of the input, with the flat descriptors of that reply |
| ResponsesClient.CallRound | mcp-client-responses.py:81-98 | the function-call round computes exactly `CallRoundRun`: append the item, call the named tool, append its output, list again, submit again |
| ResponsesClient.ProcessQuery | mcp-client-responses.py:68-98 | the query computes exactly `QueryRun`: outcome, final input and call trace |
| ResponsesClient.QueryStart | mcp-client-responses.py:70-76 | every run begins with `list_tools` and the submission of the developer message alone |
| ResponsesClient.QueryWithoutCall | mcp-client-responses.py:77-80 | when `output[0]` is not a function call, the run raises IndexError on an empty output and otherwise ends with nothing printed; either way one submission and the input unchanged |
| ResponsesClient.QueryCallPath | mcp-client-responses.py:80-98 | on the function-call path: the third call is `call_tool` with the item's name; the input is the seed, the item itself and its output keyed by its `call_id`; then `list_tools` and a second submission whose `output_text` is the answer |
| ResponsesClient.QueryCounts | mcp-client-responses.py:68-98 | `call_tool` runs once exactly when `output[0]` is a function call; one or two submissions, two exactly when the input has three entries; as many `list_tools` as submissions |
| ResponsesClient.RoundCounts | mcp-client-responses.py:85-97 | the function-call round calls the tool once, and lists and submits once each exactly when the input has grown by two entries |
| ResponsesClient.QueryInvariants | mcp-client-responses.py:76-97 | each submission follows a fresh `list_tools`, and each submitted input is a prefix of the final one |
| ResponsesClient.QueryCorrelated | mcp-client-responses.py:83-94 | every function-call output in the final input answers a function-call item earlier in it |
| ResponsesClient.RoundInvariants | mcp-client-responses.py:81-97 | the round starts with the tool call, lists before it submits, submits its own final input and only extends the seed |
| ResponsesClient.TranscriptCorrelated | mcp-client-responses.py:83-94 | the inputs a round ends with are correlated by `call_id` |
| ResponsesClient.ReasoningFirstScenario | mcp-client-responses.py:77-80 | a reasoning item placed before the function call ends the query after one submission, with nothing printed |
| LegacyClient.ToolResultMessage | client.py:96-105 | the tool result is a `user` message with exactly the keys `role` and `content`; `content` is a list of exactly one item, which has exactly the keys `type` = "tool_result", `tool_use_id` = the given id and `content` = the encoded result |
| LegacyClient.ProcessQuery | client.py:42-113 | the query computes exactly `QueryRun`: outcome, transcript, `final_text`, `assistant_message_content` and call trace |
| LegacyClient.QueryStart | client.py:44-68 | every run begins with the single `list_tools` and the submission of the developer message alone |
| LegacyClient.QueryOffToolPath | client.py:72-79 | off the tool path nothing is appended anywhere; no choices raise IndexError, another finish reason returns normally, and a tool request without tool calls raises at `tool_calls[0]` |
| LegacyClient.QueryToolPath | client.py:78-113 | on the tool path: one `final_text` entry "[Calling tool " + name; the first completion kept; one user message carrying the completion's id and the encoded result; the trace is list, submit, call, submit |
| LegacyClient.QueryCounts | client.py:52-113 | the tools are listed exactly once; `call_tool` runs exactly on the tool path; submissions are one more than tool calls |
| LegacyClient.QuerySameDescriptors | client.py:52-113 | every submission sends the descriptors built from the one `list_tools` reply |
| LegacyClient.QueryInvariants | client.py:78-113 | no assistant message is ever appended, and every submitted transcript is a prefix of the final one |
| LegacyClient.MismatchScenario | client.py:96-105 | the `tool_use_id` sent back is the completion's id "chatcmpl-1", not the tool call's id "call_1" |
| IssServer.ResourceUrl | mcp-server-iss.py:35 | the URL is the base, one slash and the resource, in that order |
| IssServer.ResourceUrlInjective | mcp-server-iss.py:35 | one base gives equal URLs only for equal resources |
| IssServer.PositionUrl | mcp-server-iss.py:7-35 | the URL built at line 35 is exactly "http://api.open-notify.org/iss-now.json" |
| IssServer.GetPosition | mcp-server-iss.py:28-44 | the result is a classification of the fetch of `PositionUrl()`: failed or falsy data gives the no-data text; a dict whose "message" is falsy gives "Malformed response"; `data["message"]` raises KeyError on a dict without it and TypeError on any other truthy value; otherwise the data is returned unchanged; each of these holds in both directions |
| IssServer.GetPositionReadsOnlyItsUrl | mcp-server-iss.py:35-36 | two fetches that agree on `PositionUrl()` give the same result, so no other URL is consulted |
| IssServer.FormatResponse | mcp-server-iss.py:19-26 | the text is produced exactly when the value and its `iss_position` are dicts; any failure is the AttributeError of `.get` |
| IssServer.Lines | mcp-server-iss.py:21-26 | splitting on line breaks yields at least one line, none containing a break |
| IssServer.JoinLines | mcp-server-iss.py:21-26 | joining the split lines gives the text back |
| IssServer.LinesSingle | mcp-server-iss.py:21-26 | a text without a break is a single line |
| IssServer.LinesBreak | mcp-server-iss.py:21-26 | a break after a text without one splits that text off as the first line |
| IssServer.LinesJoin | mcp-server-iss.py:21-26 | splitting joined break-free lines gives the lines back |
| IssServer.FormatResponseLines | mcp-server-iss.py:19-26 | with break-free values, the text is exactly an empty line, the Timestamp, Message, Latitude and Longitude lines in that order, each indented by eight spaces, and a last line of indentation |

## Left out

- The MCP transport and session lifecycle (`connect_to_server`, `cleanup`, `main`, the stdio
  subprocess) and the server's FastMCP registration and `mcp.run`. These are library calls.
  The model starts from an established session.
- The OpenAI and MCP calls are functions of their inputs (the world value), not network
  requests. This means the model's answer depends only on what is submitted. These
  functions always return, so the model cannot express an exception raised by
  `chat.completions.create`, `responses.create`, `session.list_tools` or
  `session.call_tool`; in all three clients such an exception would leave `process_query`
  uncaught. Each
  `list_tools` reply is indexed by how many times this query has listed.
- `make_iss_request` (the HTTP GET, `raise_for_status`, `.json()`, the 30-second timeout)
  is left out. `IssServer.GetPosition` takes it as a parameter `fetch`: a function from the
  URL to `None` for any failure, or to the decoded JSON value.
- `IssServer.FormatResponse`: Python's `str()` of each value is a parameter `show`, not a
  rendering of Python's value syntax.
- JSON numbers are integers only; floats are not modelled.
- `LegacyClient.ProcessQuery`: `json.dumps(repr(result.content))` is a parameter `encode`,
  not a rendering of Python's `repr`.
- `print` output, `async` scheduling and the `sys.argv` / `OPENAI_API_KEY` checks in `main`
  are left out. The answer that is printed is the outcome.
- Response shapes are limited to the fields the code reads:
  - `isError` on tool results is left out;
  - tool-call arguments are carried but never read;
  - a model reply that lacks an attribute the code reads cannot be expressed.
- A duplicate-tool-name check and a protocol-violation error for an unmatched tool reply are
  not in the code, so they are not modelled. The code is followed; it neither rejects
  duplicate names nor validates correlation at run time. `QueryCorrelated` proves the
  correlation the two newer clients maintain.
- The commented-out assistant-message code in `mcp-client.py` and `client.py` is not part of
  this model.

## Findings

| source | as written | input that shows it | evidently intended | confidence | as-written member | corrected member |
|---|---|---|---|---|---|---|
| mcp-client.py:77-80 | `response.choices[0].message.tool_calls[0]` is evaluated before the finish reason is checked | a first reply with finish reason "stop" and `tool_calls` = `None` (a direct answer): the subscript raises TypeError | read the tool call only when the finish reason is "tool_calls", as client.py does, so a direct answer ends normally | not executed | ChatClient.DirectAnswerScenario | ChatClient.ProcessQueryChecked |
