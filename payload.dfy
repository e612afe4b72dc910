/** What `get_forecast` and `get_alerts` make of a `call_tool` result: the
    argument maps they send, and the text shown for the reply. Rendering with
    `str(...)` and `json.dumps(..., indent=2)` is abstract: the reply keeps the
    JSON value that would be rendered. */
module Payload {
  import opened JsonValues
  import opened Rpc
  import opened Session

  /** The string a tool wrapper returns.
      - `ErrorText(e)`: `f"Error: {e}"` for an unsuccessful result;
      - `EntryText(t)`: the `text` of the first `content` entry, returned as is;
      - `DataText(d)`: `str(d)` of the whole payload, when that entry has no `text`;
      - `Dump(h, d)`: the heading followed by `json.dumps(d, indent=2)`;
      - `Crashed(tool, e)`: `f"Error calling {tool}: {e}"` for an exception. */
  datatype Reply =
    | ErrorText(detail: Json)
    | EntryText(text: Json)
    | DataText(data: Json)
    | Dump(heading: string, data: Json)
    | Crashed(tool: string, error: PyError)

  const ForecastTool := "get_forecast"
  const AlertsTool := "get_alerts"
  const ForecastHeading := "**Weather Forecast**\n\n"

  const AlertsPrefix := "\U{1F6A8} **Weather Alerts for "
  const AlertsSuffix := "**\n\n"

  /** The alerts fallback heading: the siren and title, the state, and the
      closing bold marker with a blank line. */
  function AlertsHeading(state: string): (h: string)
    ensures |h| == |AlertsPrefix| + |state| + |AlertsSuffix|
    ensures h[..|AlertsPrefix|] == AlertsPrefix
    ensures h[|AlertsPrefix|..|AlertsPrefix| + |state|] == state
    ensures h[|AlertsPrefix| + |state|..] == AlertsSuffix
  {
    var h := AlertsPrefix + state + AlertsSuffix;
    assert h[..|AlertsPrefix|] == AlertsPrefix;
    assert h[|AlertsPrefix|..|AlertsPrefix| + |state|] == state;
    assert h[|AlertsPrefix| + |state|..] == AlertsSuffix;
    h
  }

  /** The arguments of a forecast call: the two coordinates, under the keys
      latitude and longitude. */
  function CoordinateArguments(latitude: real, longitude: real): (r: map<string, Json>)
    ensures r.Keys == {"latitude", "longitude"}
    ensures r["latitude"] == JFloat(latitude) && r["longitude"] == JFloat(longitude)
  {
    map["latitude" := JFloat(latitude), "longitude" := JFloat(longitude)]
  }

  /** The arguments of an alerts call: the state under the key state, and the
      ID token under authToken only when it is truthy (present and non-empty). */
  function AlertsArguments(state: string, idToken: Option<string>): (r: map<string, Json>)
    ensures r.Keys <= {"state", "authToken"}
    ensures "state" in r && r["state"] == JString(state)
    ensures "authToken" in r <==> idToken.Some? && idToken.value != ""
    ensures "authToken" in r ==> r["authToken"] == JString(idToken.value)
  {
    var args := map["state" := JString(state)];
    if idToken.Some? && idToken.value != "" then args["authToken" := JString(idToken.value)] else args
  }

  /** The error text of an unsuccessful result, read from its `error` key with
      a fallback text. Both unsuccessful shapes carry an `error` key, so the
      fallback is never used. */
  function ErrorOf(res: CallResult): (e: Json)
    requires !res.Success?
    ensures res.Failure? ==> e == res.error
    ensures res.NotConnected? ==> e == JString(NotConnectedMessage)
  {
    match res
    case Failure(e) => e
    case NotConnected => JString(NotConnectedMessage)
  }

  /** The body of both wrappers after the call: a result without `success`
      is reported; otherwise the payload is probed for a non-empty `content`
      list whose first entry's `text` is returned; failing that the whole
      payload is dumped under `heading`. An exception raised while probing is
      caught and reported with the tool's name. */
  function InterpretPayload(res: CallResult, tool: string, heading: string): (r: Reply)
    ensures r.ErrorText? <==> !res.Success?
    ensures !res.Success? ==> r.detail == ErrorOf(res)
    ensures r.Crashed? ==> r.tool == tool
    ensures res.Success? && res.data.JObject? ==>
      var fields := res.data.fields;
      && ("content" !in fields || !fields["content"].JArray? || fields["content"].items == [] ==>
            r == Dump(heading, res.data))
      && ("content" in fields && fields["content"].JArray? && fields["content"].items != [] ==>
            var entry := fields["content"].items[0];
            && (entry.JObject? && "text" in entry.fields ==> r == EntryText(entry.fields["text"]))
            && (entry.JObject? && "text" !in entry.fields ==> r == DataText(res.data))
            && (!entry.JObject? ==> r == Crashed(tool, NoAttribute(entry, "get"))))
    ensures res.Success? && res.data.JArray? ==>
      && (JString("content") in res.data.items ==>
            r == Crashed(tool, PyError("TypeError", "list indices must be integers or slices, not str")))
      && (JString("content") !in res.data.items ==> r == Dump(heading, res.data))
    ensures res.Success? && res.data.JString? ==>
      && (IsSubstring("content", res.data.s) ==>
            r == Crashed(tool, PyError("TypeError", "string indices must be integers, not 'str'")))
      && (!IsSubstring("content", res.data.s) ==> r == Dump(heading, res.data))
    ensures res.Success? && !(res.data.JObject? || res.data.JArray? || res.data.JString?) ==>
      r == Crashed(tool, PyError("TypeError", "argument of type '" + TypeName(res.data) + "' is not iterable"))
  {
    match res
    case NotConnected => ErrorText(ErrorOf(res))
    case Failure(_) => ErrorText(ErrorOf(res))
    case Success(data) =>
      match Contains("content", data)
      case Err(e) => Crashed(tool, e)
      case Ok(hasContent) =>
        if !hasContent then Dump(heading, data)
        else
          match Subscript(data, "content")
          case Err(e) => Crashed(tool, e)
          case Ok(content) =>
            if !content.JArray? || |content.items| == 0 then Dump(heading, data)
            else
              var entry := content.items[0];
              match Get(entry, "text", JNull)
              case Err(e) => Crashed(tool, e)
              case Ok(_) => if "text" in entry.fields then EntryText(entry.fields["text"]) else DataText(data)
  }

  /** A payload that is a list holding the string `"content"` passes the
      membership test and then raises on the string subscript. */
  lemma ListPayloadCrashes(tool: string, heading: string, others: seq<Json>)
    ensures InterpretPayload(Success(JArray([JString("content")] + others)), tool, heading) ==
      Crashed(tool, PyError("TypeError", "list indices must be integers or slices, not str"))
  {
    assert JString("content") in [JString("content")] + others;
  }

  /** The usual MCP tool reply, a `content` list whose first block carries
      text, is shown as that text, whatever else the payload, the block and
      the rest of the list hold. */
  lemma {:induction false} TextBlockShown(data: map<string, Json>, block: map<string, Json>, rest: seq<Json>, tool: string, heading: string)
    requires "content" in data && data["content"] == JArray([JObject(block)] + rest)
    requires "text" in block
    ensures InterpretPayload(Success(JObject(data)), tool, heading) == EntryText(block["text"])
  {
    assert data["content"].items[0] == JObject(block);
  }

  /** A forecast request on an open pipe whose next line is a reply whose
      `result` holds a text block first in its `content` ends in that text,
      whatever else the reply carries (`jsonrpc`, `id`, further blocks). */
  lemma {:induction false} ForecastOfReply(p: Pipe, id: string, latitude: real, longitude: real,
                                           reply: map<string, Json>, result: map<string, Json>, block: map<string, Json>, rest: seq<Json>)
    requires !p.closed && p.pending != [] && p.pending[0] == Parsed(JObject(reply))
    requires "result" in reply && reply["result"] == JObject(result)
    requires "content" in result && result["content"] == JArray([JObject(block)] + rest)
    requires "text" in block
    ensures InterpretPayload(Call(p, id, ForecastTool, CoordinateArguments(latitude, longitude)).result, ForecastTool, ForecastHeading)
      == EntryText(block["text"])
  {
    assert Truthy(JObject(result)) by {
      assert "content" in result;
    }
    assert MapResponse(Ok(JObject(reply))) == Success(JObject(result));
    TextBlockShown(result, block, rest, ForecastTool, ForecastHeading);
  }

  /** Once the server has stopped reading its input, every later tool call
      is shown as the broken-pipe error that `call_tool` caught. */
  lemma {:induction false} ClosedInputReply(p: Pipe, id: string, name: string, arguments: map<string, Json>, heading: string)
    requires p.closed
    ensures InterpretPayload(Call(p, id, name, arguments).result, name, heading) ==
      ErrorText(JString("[Errno 32] Broken pipe"))
  {
    assert Call(p, id, name, arguments).result == Failure(JString(BrokenPipe.message));
  }

  /** An alerts request on an ended stream is reported as the unknown-format
      error, not as a crash. */
  lemma EndOfStreamReply(p: Pipe, id: string, state: string, idToken: Option<string>)
    requires !p.closed && p.pending == []
    ensures InterpretPayload(Call(p, id, AlertsTool, AlertsArguments(state, idToken)).result, AlertsTool, AlertsHeading(state)) ==
      ErrorText(JString(UnknownFormat))
  {
    CallAtEndOfStream(p, id, AlertsTool, AlertsArguments(state, idToken));
  }
}
