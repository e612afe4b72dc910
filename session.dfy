/** The pure parts of the client's lifecycle: which command `connect` launches,
    what the handshake does to the pipe and the catalog, and how a reply to
    `tools/call` becomes the `{success, data}` / `{success, error}` result. */
module Session {
  import opened JsonValues
  import opened Rpc
  import opened Catalog

  // ---------------------------------------------------------------- connect

  /** The launch command: the configured `command` followed by the `args`
      list, or the command alone when there are no `args`. It is built inside
      the `try` of `connect_to_mcp_server`, so a failure here is caught and
      makes `connect` return false. */
  function BuildCommand(config: Json): (r: Result<seq<Json>>)
    ensures r.Ok? ==> config.JObject? && "command" in config.fields && |r.value| >= 1 && r.value[0] == config.fields["command"]
    ensures config.JObject? && "command" in config.fields && "args" !in config.fields ==> r == Ok([config.fields["command"]])
    ensures config.JObject? && "command" in config.fields && "args" in config.fields && config.fields["args"].JArray? ==>
              r == Ok([config.fields["command"]] + config.fields["args"].items)
    ensures config.JObject? && "command" in config.fields && "args" in config.fields && !config.fields["args"].JArray? ==>
              r.Err? && r.error.kind == "TypeError"
  {
    match Subscript(config, "command")
    case Err(e) => Err(e)
    case Ok(command) =>
      var args := Get(config, "args", JArray([])).value;
      assert [command] + [] == [command];
      if args.JArray? then Ok([command] + args.items)
      else Err(PyError("TypeError", "can only concatenate list (not \"" + TypeName(args) + "\") to list"))
  }

  /** The guard that gives up on a falsy config or one without a `command`
      key, and the command built after it. `Err` is an exception that escapes `connect`
      (the `in` test is outside the `try`); `Ok(None)` means `connect` returns
      false before any process is started; `Ok(Some(cmd))` is the argument
      list handed to the process launcher. */
  function LaunchCommand(config: Json): (r: Result<Option<seq<Json>>>)
    ensures !Truthy(config) ==> r == Ok(None)
    ensures config.JObject? && "command" !in config.fields ==> r == Ok(None)
    ensures r.Err? <==> Truthy(config) && !(config.JObject? || config.JArray? || config.JString?)
    ensures r.Err? ==> r.error == PyError("TypeError", "argument of type '" + TypeName(config) + "' is not iterable")
    ensures config.JArray? || config.JString? ==> r == Ok(None)
    ensures r.Ok? && r.value.Some? ==> BuildCommand(config) == Ok(r.value.value)
    ensures config.JObject? && "command" in config.fields ==>
              r == Ok(if BuildCommand(config).Ok? then Some(BuildCommand(config).value) else None)
  {
    if !Truthy(config) then Ok(None)
    else
      var hasCommand :- Contains("command", config);
      if !hasCommand then Ok(None)
      else
        var command := BuildCommand(config);
        Ok(if command.Ok? then Some(command.value) else None)
  }

  /** A configured server: its executable and arguments become the command line. */
  lemma {:induction false} ConfiguredCommand(command: string, args: seq<string>)
    ensures var config := JObject(map["command" := JString(command), "args" := JArray(seq(|args|, k requires 0 <= k < |args| => JString(args[k])))]);
      LaunchCommand(config) == Ok(Some([JString(command)] + seq(|args|, k requires 0 <= k < |args| => JString(args[k]))))
  {
  }

  // -------------------------------------------------------------- handshake

  const NotStarted := PyError("Exception", "MCP server not started")

  /** `initialize_mcp_session` after its process check: the pipe afterwards,
      the new tool list (`None` when discovery never reset it), and the
      exception that stopped the sequence, if any. The `initialize` reply is
      read and ignored. */
  datatype HandshakeStep = HandshakeStep(pipe: Pipe, catalog: Option<seq<McpTool>>, raised: Option<PyError>)

  function Handshake(p: Pipe, initId: string, listId: string): (h: HandshakeStep)
    ensures p.closed ==> h == HandshakeStep(p, None, Some(BrokenPipe))
    ensures h.raised.None? ==> h.catalog.Some?
    ensures h.catalog.Some? ==> h.pipe.written == p.written + HandshakeMessages(initId, listId)
    ensures !p.closed && p.pending != [] && p.pending[0].Garbled? ==>
      h == HandshakeStep(Pipe(false, p.pending[1..], p.written + [InitializeRequest(initId)]), None, Some(Decode(p.pending[0]).error))
  {
    var init := Send(p, InitializeRequest(initId));
    match init.response
    case Err(e) => HandshakeStep(init.pipe, None, Some(e))
    case Ok(_) =>
      var note := Send(init.pipe, InitializedNotification());
      match note.response
      case Err(e) => HandshakeStep(note.pipe, None, Some(e))
      case Ok(_) =>
        var d := Discover(note.pipe, listId);
        HandshakeStep(d.pipe, d.catalog, d.raised)
  }

  /** The three messages of the handshake, in order. */
  function HandshakeMessages(initId: string, listId: string): seq<Json>
  {
    [InitializeRequest(initId), InitializedNotification(), ToolsListRequest(listId)]
  }

  /** The handshake stops at `initialize` when that exchange raises. */
  lemma HandshakeStopsAtInitialize(p: Pipe, initId: string, listId: string)
    requires Send(p, InitializeRequest(initId)).response.Err?
    ensures Handshake(p, initId, listId) ==
      HandshakeStep(Send(p, InitializeRequest(initId)).pipe, None, Some(Send(p, InitializeRequest(initId)).response.error))
  {
  }

  /** Otherwise it goes on to the notification and discovery. */
  lemma HandshakeReachesDiscovery(p: Pipe, initId: string, listId: string)
    requires !p.closed && Send(p, InitializeRequest(initId)).response.Ok?
    ensures var note := Send(Send(p, InitializeRequest(initId)).pipe, InitializedNotification());
      Handshake(p, initId, listId) == HandshakeStep(Discover(note.pipe, listId).pipe, Discover(note.pipe, listId).catalog, Discover(note.pipe, listId).raised)
  {
  }

  /** The handshake only ever appends a prefix of its three messages to the
      log, and a closed input raises before anything is written. */
  lemma HandshakeLogPrefix(p: Pipe, initId: string, listId: string)
    ensures var h := Handshake(p, initId, listId);
      && p.written <= h.pipe.written <= p.written + HandshakeMessages(initId, listId)
      && (p.closed ==> h == HandshakeStep(p, None, Some(BrokenPipe)))
  {
    var msgs := HandshakeMessages(initId, listId);
    var init := Send(p, InitializeRequest(initId));
    var h := Handshake(p, initId, listId);
    if init.response.Err? {
      HandshakeStopsAtInitialize(p, initId, listId);
      if !p.closed {
        assert h.pipe.written == (p.written + msgs)[..|p.written| + 1];
      }
    } else {
      HandshakeReachesDiscovery(p, initId, listId);
      var note := Send(init.pipe, InitializedNotification());
      assert note.pipe.written == p.written + [InitializeRequest(initId), InitializedNotification()];
      DiscoverRebuilds(note.pipe, listId);
      assert note.pipe.written + [ToolsListRequest(listId)] == p.written + msgs;
      assert (p.written + msgs)[..|p.written| + 2] == note.pipe.written;
    }
  }

  /** The handshake completes only after all three messages were written, and
      then discovery has rebuilt the catalog. */
  lemma HandshakeCompleteLog(p: Pipe, initId: string, listId: string)
    requires Handshake(p, initId, listId).raised.None?
    ensures Handshake(p, initId, listId).pipe.written == p.written + HandshakeMessages(initId, listId)
    ensures Handshake(p, initId, listId).catalog.Some?
  {
    var init := Send(p, InitializeRequest(initId));
    if init.response.Err? {
      HandshakeStopsAtInitialize(p, initId, listId);
    } else {
      HandshakeReachesDiscovery(p, initId, listId);
      var note := Send(init.pipe, InitializedNotification());
      assert note.pipe.written == p.written + [InitializeRequest(initId), InitializedNotification()];
      DiscoverRebuilds(note.pipe, listId);
    }
  }

  /** A server that closes its output at once still completes the handshake,
      with an empty catalog. */
  lemma HandshakeAtEndOfStream(p: Pipe, initId: string, listId: string)
    requires !p.closed && p.pending == []
    ensures Handshake(p, initId, listId) ==
      HandshakeStep(Pipe(false, [], p.written + HandshakeMessages(initId, listId)), Some([]), None)
  {
    var init := Send(p, InitializeRequest(initId));
    assert init == Exchange(Pipe(false, [], p.written + [InitializeRequest(initId)]), Ok(EmptyObject));
    var note := Send(init.pipe, InitializedNotification());
    assert note == Exchange(Pipe(false, [], p.written + [InitializeRequest(initId), InitializedNotification()]), Ok(EmptyObject));
    DiscoverRebuilds(note.pipe, listId);
    var d := Discover(note.pipe, listId);
    assert d.pipe == Pipe(false, [], p.written + HandshakeMessages(initId, listId));
  }

  /** A server that answers `initialize` and then lists two tools named
      `get_forecast` and `get_alerts` yields exactly those two tools, in that
      order, with the default description and parameters. */
  lemma HandshakeTwoTools(initReply: Json, initId: string, listId: string)
    ensures
      var listReply := JObject(map["result" := JObject(map["tools" := JArray([
        JObject(map["name" := JString("get_forecast")]),
        JObject(map["name" := JString("get_alerts")])])])]);
      var h := Handshake(Pipe(false, [Parsed(initReply), Parsed(listReply)], []), initId, listId);
      && h.raised.None?
      && h.catalog == Some([McpTool(JString("get_forecast"), JString(""), EmptyObject),
                            McpTool(JString("get_alerts"), JString(""), EmptyObject)])
      && h.pipe == Pipe(false, [], HandshakeMessages(initId, listId))
  {
    var entries := [JObject(map["name" := JString("get_forecast")]), JObject(map["name" := JString("get_alerts")])];
    var listReply := JObject(map["result" := JObject(map["tools" := JArray(entries)])]);
    var p := Pipe(false, [Parsed(initReply), Parsed(listReply)], []);
    HandshakeReachesDiscovery(p, initId, listId);
    var note := Send(Send(p, InitializeRequest(initId)).pipe, InitializedNotification());
    assert note.pipe == Pipe(false, [Parsed(listReply)], [InitializeRequest(initId), InitializedNotification()]);
    DiscoverWellFormed(note.pipe, listId, map["result" := JObject(map["tools" := JArray(entries)])], entries);
    DiscoverRebuilds(note.pipe, listId);
    var d := Discover(note.pipe, listId);
    TwoNamedTools(d.catalog.value, JString("get_forecast"), JString("get_alerts"));
  }

  /** Two tools read from entries holding only a name are those names with
      the default fields, in order. */
  lemma {:induction false} TwoNamedTools(tools: seq<McpTool>, first: Json, second: Json)
    requires |tools| == 2
    requires ToolOf(JObject(map["name" := first])) == Ok(tools[0])
    requires ToolOf(JObject(map["name" := second])) == Ok(tools[1])
    ensures tools == [McpTool(first, JString(""), EmptyObject), McpTool(second, JString(""), EmptyObject)]
  {
    NameOnlyTool(first);
    NameOnlyTool(second);
  }

  lemma NameOnlyTool(name: Json)
    ensures ToolOf(JObject(map["name" := name])) == Ok(McpTool(name, JString(""), EmptyObject))
  {
  }

  // ---------------------------------------------------------------- calling

  /** The dict `call_tool` returns: a success flag set with the result data, a
      success flag cleared with an error value, or the not-connected guard's
      dict, which holds only an error text and no success flag. */
  datatype CallResult = Success(data: Json) | Failure(error: Json) | NotConnected

  const NotConnectedMessage := "Not connected to MCP server"
  const UnknownFormat := "Unknown response format"

  /** The body of `call_tool` after the request was sent: `resp` is what
      `send_request` returned or raised. A truthy `result` wins; otherwise a
      truthy `error` gives its `message`; otherwise the reply is of unknown
      format. Every exception, raised by the exchange or by these lookups,
      becomes a failure carrying its text. */
  function MapResponse(resp: Result<Json>): (r: CallResult)
    ensures !r.NotConnected?
    ensures resp.Err? ==> r == Failure(JString(resp.error.message))
    ensures r.Success? <==> resp.Ok? && resp.value.JObject? && "result" in resp.value.fields && Truthy(resp.value.fields["result"])
    ensures r.Success? ==> r.data == resp.value.fields["result"]
    ensures resp.Ok? && !resp.value.JObject? ==> r == Failure(JString(NoAttribute(resp.value, "get").message))
    ensures resp.Ok? && resp.value.JObject? && !r.Success? ==>
              var fields := resp.value.fields;
              && ("error" in fields && fields["error"].JObject? && Truthy(fields["error"]) && "message" in fields["error"].fields ==>
                    r == Failure(fields["error"].fields["message"]))
              && (("error" !in fields || !Truthy(fields["error"])) ==> r == Failure(JString(UnknownFormat)))
              && ("error" in fields && fields["error"].JObject? && Truthy(fields["error"]) && "message" !in fields["error"].fields ==>
                    r == Failure(JString("'message'")))
              && ("error" in fields && fields["error"].JString? && Truthy(fields["error"]) ==>
                    r == Failure(JString("string indices must be integers, not 'str'")))
              && ("error" in fields && fields["error"].JArray? && Truthy(fields["error"]) ==>
                    r == Failure(JString("list indices must be integers or slices, not str")))
              && ("error" in fields && Truthy(fields["error"]) && !(fields["error"].JObject? || fields["error"].JString? || fields["error"].JArray?) ==>
                    r == Failure(JString("'" + TypeName(fields["error"]) + "' object is not subscriptable")))
  {
    match resp
    case Err(e) => Failure(JString(e.message))
    case Ok(reply) =>
      match Get(reply, "result", JNull)
      case Err(e) => Failure(JString(e.message))
      case Ok(result) =>
        if Truthy(result) then Success(result)
        else
          var error := Get(reply, "error", JNull).value;
          if !Truthy(error) then Failure(JString(UnknownFormat))
          else
            assert "'" + "message" + "'" == "'message'";
            match Subscript(error, "message")
            case Err(e) => Failure(JString(e.message))
            case Ok(message) => Failure(message)
  }

  /** A falsy `result` (`{}`, `[]`, `null`, `0`, `""`, `false`) with no
      truthy error falls through to the unknown-format failure, whatever else
      the reply holds; so does the `{}` that `send_request` returns at end of
      stream. */
  lemma {:induction false} FalsyResultIsUnknown(fields: map<string, Json>, result: Json)
    requires !Truthy(result)
    requires "error" !in fields || !Truthy(fields["error"])
    ensures MapResponse(Ok(JObject(fields["result" := result]))) == Failure(JString(UnknownFormat))
    ensures MapResponse(Ok(EmptyObject)) == Failure(JString(UnknownFormat))
  {
    var f := fields["result" := result];
    assert "error" in f ==> f["error"] == fields["error"];
  }

  /** A truthy `result` is handed back unchanged, whatever else the reply holds. */
  lemma ResultRoundTrip(fields: map<string, Json>, result: Json)
    requires Truthy(result)
    ensures MapResponse(Ok(JObject(fields["result" := result]))) == Success(result)
  {
  }

  /** A remote error's message is passed on verbatim, whatever else the
      reply (`jsonrpc`, `id`) and the error object (`code`, `data`) hold, as
      long as the reply has no truthy `result`. */
  lemma {:induction false} RemoteErrorVerbatim(fields: map<string, Json>, error: map<string, Json>)
    requires "result" !in fields || !Truthy(fields["result"])
    requires "message" in error
    ensures MapResponse(Ok(JObject(fields["error" := JObject(error)]))) == Failure(error["message"])
  {
    var f := fields["error" := JObject(error)];
    assert "result" in f ==> f["result"] == fields["result"];
    assert Truthy(JObject(error));
  }

  /** `call_tool` on a connected client, as a step on the pipe. */
  datatype CallStep = CallStep(pipe: Pipe, result: CallResult)

  function Call(p: Pipe, id: string, name: string, arguments: map<string, Json>): (c: CallStep)
    ensures p.closed ==> c == CallStep(p, Failure(JString(BrokenPipe.message)))
    ensures !p.closed ==> c.pipe.written == p.written + [ToolsCallRequest(id, name, arguments)] && !c.pipe.closed
    ensures !p.closed && p.pending == [] ==> c.pipe.pending == [] && c.result == Failure(JString(UnknownFormat))
    ensures !p.closed && p.pending != [] ==> c.pipe.pending == p.pending[1..] && c.result == MapResponse(Decode(p.pending[0]))
  {
    var x := Send(p, ToolsCallRequest(id, name, arguments));
    CallStep(x.pipe, MapResponse(x.response))
  }

  /** A call whose reply never comes because the output has ended fails with
      the unknown-format message instead of blocking. */
  lemma CallAtEndOfStream(p: Pipe, id: string, name: string, arguments: map<string, Json>)
    requires !p.closed && p.pending == []
    ensures Call(p, id, name, arguments).result == Failure(JString(UnknownFormat))
  {
  }
}
