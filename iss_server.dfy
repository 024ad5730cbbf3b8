/** The ISS tool server of mcp-server-iss.py: the request URL, the classification of the
    fetched data that `get_position` returns, and the unused `format_response`. */
module IssServer {
  import opened Python
  import opened Json

  const API_BASE := "http://api.open-notify.org"

  /** The two fixed failure strings `get_position` can return. */
  const NO_DATA := "Unable to fetch data or no data found."
  const MALFORMED := "Malformed response"

  /** `f"{base}/{resource}"`. */
  function ResourceUrl(base: string, resource: string): (url: string)
    ensures |url| == |base| + 1 + |resource|
    ensures url[..|base|] == base && url[|base|] == '/' && url[|base| + 1..] == resource
  {
    base + "/" + resource
  }

  /** Two resources of one base give the same URL only when they are the same resource. */
  lemma ResourceUrlInjective(base: string, r1: string, r2: string)
    requires ResourceUrl(base, r1) == ResourceUrl(base, r2)
    ensures r1 == r2
  {
  }

  /** The URL `get_position` fetches. */
  function PositionUrl(): (url: string)
    ensures url == "http://api.open-notify.org/iss-now.json"
  {
    ResourceUrl(API_BASE, "iss-now.json")
  }

  /** What `get_position` hands back to the protocol layer: a text, or the fetched dict itself. */
  datatype ToolReturn = Text(s: string) | Data(value: JValue)

  /** `get_position`, given the fetch (`make_iss_request`, which yields `None` when the request
      fails). It fetches `PositionUrl()`. Falsy data gives the no-data text; a dict whose
      `"message"` is falsy gives the malformed text; indexing `"message"` raises on a dict
      without it and on any other truthy value; otherwise the data comes back unchanged. */
  function GetPosition(fetch: string -> Option<JValue>): (r: Result<ToolReturn>)
    ensures var fetched := fetch(PositionUrl());
      r == Ok(Text(NO_DATA)) <==> fetched.None? || !Truthy(fetched.value)
    ensures var fetched := fetch(PositionUrl());
      r == Ok(Text(MALFORMED)) <==>
        fetched.Some? && Truthy(fetched.value) && fetched.value.JObject? &&
        "message" in fetched.value.fields && !Truthy(fetched.value.fields["message"])
    ensures var fetched := fetch(PositionUrl());
      r.Raise? <==>
        fetched.Some? && Truthy(fetched.value) && !(fetched.value.JObject? && "message" in fetched.value.fields)
    ensures var fetched := fetch(PositionUrl());
      r.Raise? ==> r.error == (if fetched.value.JObject? then KeyError("message") else TypeError)
    ensures var fetched := fetch(PositionUrl());
      r.Ok? && r.value.Data? <==>
        fetched.Some? && fetched.value.JObject? && "message" in fetched.value.fields && Truthy(fetched.value.fields["message"])
    ensures var fetched := fetch(PositionUrl());
      r.Ok? && r.value.Data? ==> r.value.value == fetched.value
  {
    var fetched := fetch(PositionUrl());
    if fetched.None? || !Truthy(fetched.value) then Ok(Text(NO_DATA))
    else
      var data := fetched.value;
      if !data.JObject? then Raise(TypeError)
      else if "message" !in data.fields then Raise(KeyError("message"))
      else if !Truthy(data.fields["message"]) then Ok(Text(MALFORMED))
      else Ok(Data(data))
  }

  /** `get_position` reads nothing but the reply to its one URL: two fetches that agree there
      give the same result. */
  lemma GetPositionReadsOnlyItsUrl(f1: string -> Option<JValue>, f2: string -> Option<JValue>)
    requires f1(PositionUrl()) == f2(PositionUrl())
    ensures GetPosition(f1) == GetPosition(f2)
  {
  }

  /** The eight spaces that open each line of the formatted text. */
  const INDENT := "        "

  /** `format_response`: the timestamp, message, latitude and longitude on four labelled lines.
      `show` stands for Python's `str()` of a value, as an f-string applies it. `.get` raises
      unless `json` and its `iss_position` are dicts. */
  function FormatResponse(json: JValue, show: JValue -> string): (r: Result<string>)
    ensures r.Ok? <==> json.JObject? && Get(json.fields, "iss_position").JObject?
    ensures r.Raise? ==> r.error == AttributeError("get")
  {
    if !json.JObject? then Raise(AttributeError("get"))
    else
      var position := Get(json.fields, "iss_position");
      if !position.JObject? then Raise(AttributeError("get"))
      else Ok(Join([
        "",
        INDENT + "Timestamp: " + show(Get(json.fields, "timestamp")),
        INDENT + "Message: " + show(Get(json.fields, "message")),
        INDENT + "Latitude: " + show(Get(position.fields, "latitude")),
        INDENT + "Longitude: " + show(Get(position.fields, "longitude")),
        INDENT]))
  }

  /** `s.split("\n")`: the lines of `s`, none of which contains a line break. */
  function Lines(s: string): (ls: seq<string>)
    ensures |ls| >= 1
    ensures forall i :: 0 <= i < |ls| ==> '\n' !in ls[i]
  {
    if s == [] then [""]
    else
      var rest := Lines(s[1..]);
      if s[0] == '\n' then [""] + rest else [[s[0]] + rest[0]] + rest[1..]
  }

  /** `"\n".join(ls)`. */
  function Join(ls: seq<string>): string
    requires |ls| >= 1
  {
    if |ls| == 1 then ls[0] else ls[0] + "\n" + Join(ls[1..])
  }

  /** Splitting into lines and joining them back gives the text unchanged. */
  lemma {:induction false} JoinLines(s: string)
    ensures Join(Lines(s)) == s
  {
    if s != [] {
      var rest := Lines(s[1..]);
      JoinLines(s[1..]);
      if s[0] != '\n' {
        if |rest| > 1 {
          assert ([[s[0]] + rest[0]] + rest[1..])[1..] == rest[1..];
        }
      } else {
        assert ([""] + rest)[1..] == rest;
      }
    }
  }

  /** A text without a line break is one line. */
  lemma {:induction false} LinesSingle(a: string)
    requires '\n' !in a
    ensures Lines(a) == [a]
  {
    if a != [] {
      LinesSingle(a[1..]);
      assert a[0] != '\n' by { assert a[0] in a; }
      assert [a[0]] + a[1..] == a;
    }
  }

  /** A line break after a text without one splits off that text as the first line. */
  lemma {:induction false} LinesBreak(a: string, b: string)
    requires '\n' !in a
    ensures Lines(a + "\n" + b) == [a] + Lines(b)
  {
    if a == [] {
      assert a + "\n" + b == "\n" + b;
      assert ("\n" + b)[1..] == b;
    } else {
      var s := a + "\n" + b;
      assert s[0] == a[0] && s[1..] == a[1..] + "\n" + b;
      assert a[0] != '\n' by { assert a[0] in a; }
      LinesBreak(a[1..], b);
      var rest := Lines(s[1..]);
      assert rest == [a[1..]] + Lines(b);
      assert Lines(s) == [[a[0]] + rest[0]] + rest[1..];
      assert [a[0]] + a[1..] == a;
    }
  }

  /** When the four shown values hold no line break, the formatted text is exactly an empty
      line, the Timestamp, Message, Latitude and Longitude lines in that order, and a last line
      of indentation. */
  lemma FormatResponseLines(json: JValue, show: JValue -> string)
    requires json.JObject? && Get(json.fields, "iss_position").JObject?
    requires '\n' !in show(Get(json.fields, "timestamp")) && '\n' !in show(Get(json.fields, "message"))
    requires '\n' !in show(Get(Get(json.fields, "iss_position").fields, "latitude"))
    requires '\n' !in show(Get(Get(json.fields, "iss_position").fields, "longitude"))
    ensures Lines(FormatResponse(json, show).value) == [
      "",
      INDENT + "Timestamp: " + show(Get(json.fields, "timestamp")),
      INDENT + "Message: " + show(Get(json.fields, "message")),
      INDENT + "Latitude: " + show(Get(Get(json.fields, "iss_position").fields, "latitude")),
      INDENT + "Longitude: " + show(Get(Get(json.fields, "iss_position").fields, "longitude")),
      INDENT]
  {
    var position := Get(json.fields, "iss_position");
    var l1 := INDENT + "Timestamp: " + show(Get(json.fields, "timestamp"));
    var l2 := INDENT + "Message: " + show(Get(json.fields, "message"));
    var l3 := INDENT + "Latitude: " + show(Get(position.fields, "latitude"));
    var l4 := INDENT + "Longitude: " + show(Get(position.fields, "longitude"));
    NoBreakConcat(INDENT + "Timestamp: ", show(Get(json.fields, "timestamp")));
    NoBreakConcat(INDENT + "Message: ", show(Get(json.fields, "message")));
    NoBreakConcat(INDENT + "Latitude: ", show(Get(position.fields, "latitude")));
    NoBreakConcat(INDENT + "Longitude: ", show(Get(position.fields, "longitude")));
    LinesJoin(["", l1, l2, l3, l4, INDENT]);
  }

  /** Joining lines that hold no line break and splitting the result gives the lines back. */
  lemma {:induction false} LinesJoin(ls: seq<string>)
    requires |ls| >= 1
    requires forall i :: 0 <= i < |ls| ==> '\n' !in ls[i]
    ensures Lines(Join(ls)) == ls
  {
    if |ls| == 1 {
      LinesSingle(ls[0]);
    } else {
      LinesJoin(ls[1..]);
      LinesBreak(ls[0], Join(ls[1..]));
    }
  }

  /** Concatenating two texts without a line break gives a text without one. */
  lemma NoBreakConcat(a: string, b: string)
    requires '\n' !in a && '\n' !in b
    ensures '\n' !in a + b
  {
  }
}
