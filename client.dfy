/** `WeatherMCPClient` and the child process it talks to. The process is a
    pair of line streams: its standard input (which may refuse writes) and a
    fixed script of output lines. */
module Client {
  import opened JsonValues
  import opened Rpc
  import opened Catalog
  import opened Session
  import opened Payload

  /** How a launched server behaves: whether writing to it fails, and the
      lines it prints, in order. */
  datatype ServerBehaviour = ServerBehaviour(inputClosed: bool, replies: seq<Line>)

  /** The `subprocess.Popen` object: the command it runs and its two streams. */
  class ServerProcess {
    const command: seq<Json>
    var inputClosed: bool
    var pending: seq<Line>
    var written: seq<Json>
    var terminated: bool

    function Streams(): Pipe
      reads this
    {
      Pipe(inputClosed, pending, written)
    }

    constructor (command: seq<Json>, behaviour: ServerBehaviour)
      ensures this.command == command
      ensures Streams() == Pipe(behaviour.inputClosed, behaviour.replies, [])
      ensures !terminated
    {
      this.command := command;
      inputClosed := behaviour.inputClosed;
      pending := behaviour.replies;
      written := [];
      terminated := false;
    }

    /** Writing one line to the server's input and flushing it. */
    method WriteLine(req: Json) returns (raised: Option<PyError>)
      modifies this
      ensures inputClosed == old(inputClosed) && pending == old(pending) && terminated == old(terminated)
      ensures old(inputClosed) ==> raised == Some(BrokenPipe) && written == old(written)
      ensures !old(inputClosed) ==> raised.None? && written == old(written) + [req]
    {
      if inputClosed {
        return Some(BrokenPipe);
      }
      written := written + [req];
      return None;
    }

    /** `stdout.readline()`: the next line, or `None` for the empty string
        read at end of stream. */
    method ReadLine() returns (line: Option<Line>)
      modifies this
      ensures inputClosed == old(inputClosed) && written == old(written) && terminated == old(terminated)
      ensures old(pending) == [] ==> line.None? && pending == []
      ensures old(pending) != [] ==> line == Some(old(pending)[0]) && pending == old(pending)[1..]
    {
      if pending == [] {
        return None;
      }
      line := Some(pending[0]);
      pending := pending[1..];
    }

    /** The server exits on its own: from now on every write to its input
        raises broken pipe, while the lines it already printed stay readable. */
    method Exit()
      modifies this
      ensures inputClosed
      ensures pending == old(pending) && written == old(written) && terminated == old(terminated)
    {
      inputClosed := true;
    }

    method Terminate()
      modifies this
      ensures terminated
      ensures Streams() == old(Streams())
    {
      terminated := true;
    }
  }

  class WeatherMcpClient {
    var tools: seq<McpTool>
    var connected: bool
    var serverProcess: ServerProcess?

    /** The client is only ever connected while it holds a process. */
    ghost predicate Valid()
      reads this
    {
      connected ==> serverProcess != null
    }

    constructor ()
      ensures tools == [] && !connected && serverProcess == null
      ensures Valid()
    {
      tools := [];
      connected := false;
      serverProcess := null;
    }

    /** `send_request`: one written line per request, one line read only for a
        request with an id, and `{}` for a notification or at end of stream. */
    method SendRequest(req: Json) returns (resp: Result<Json>)
      requires serverProcess != null
      modifies serverProcess
      ensures serverProcess.Streams() == Send(old(serverProcess.Streams()), req).pipe
      ensures resp == Send(old(serverProcess.Streams()), req).response
      ensures serverProcess.terminated == old(serverProcess.terminated)
    {
      var raised := serverProcess.WriteLine(req);
      if raised.Some? {
        return Err(raised.value);
      }
      if HasId(req) {
        var line := serverProcess.ReadLine();
        if line.Some? {
          return Decode(line.value);
        }
      }
      return Ok(EmptyObject);
    }

    /** `discover_tools`: the catalog is emptied once the request was sent and
        then filled entry by entry; the result is whether it ended non-empty. */
    method DiscoverTools(listId: string) returns (r: Result<bool>)
      requires serverProcess != null
      modifies this, serverProcess
      ensures serverProcess == old(serverProcess) && connected == old(connected)
      ensures serverProcess.terminated == old(serverProcess.terminated)
      ensures var d := Discover(old(serverProcess.Streams()), listId);
        && serverProcess.Streams() == d.pipe
        && tools == (if d.catalog.Some? then d.catalog.value else old(tools))
        && (d.raised.Some? ==> r == Err(d.raised.value))
        && (d.raised.None? ==> r == Ok(tools != []))
    {
      var resp := SendRequest(ToolsListRequest(listId));
      if resp.Err? {
        return Err(resp.error);
      }
      tools := [];
      var entries := CatalogEntries(resp.value);
      if entries.Err? {
        return Err(entries.error);
      }
      var items := entries.value;
      var i := 0;
      while i < |items|
        modifies this
        invariant 0 <= i <= |items|
        invariant BuildCatalog(items[..i]) == CatalogBuild(tools, None)
        invariant serverProcess == old(serverProcess) && connected == old(connected)
      {
        var tool := ToolOf(items[i]);
        assert items[..i + 1][..i] == items[..i];
        if tool.Err? {
          BuildCatalogStops(items, i + 1);
          return Err(tool.error);
        }
        tools := tools + [tool.value];
        i := i + 1;
      }
      assert items[..i] == items;
      return Ok(tools != []);
    }

    /** `initialize_mcp_session`: without a process it raises before writing
        anything; otherwise it runs the handshake and marks the client
        connected only when the whole handshake went through. */
    method InitializeSession(initId: string, listId: string) returns (raised: Option<PyError>)
      modifies this, serverProcess
      ensures serverProcess == old(serverProcess)
      ensures old(serverProcess) == null ==>
        raised == Some(NotStarted) && tools == old(tools) && connected == old(connected)
      ensures old(serverProcess) != null ==>
        var h := Handshake(old(serverProcess.Streams()), initId, listId);
        && serverProcess.Streams() == h.pipe
        && serverProcess.terminated == old(serverProcess.terminated)
        && tools == (if h.catalog.Some? then h.catalog.value else old(tools))
        && raised == h.raised
        && connected == (old(connected) || h.raised.None?)
    {
      if serverProcess == null {
        return Some(NotStarted);
      }
      var init := SendRequest(InitializeRequest(initId));
      if init.Err? {
        return Some(init.error);
      }
      var note := SendRequest(InitializedNotification());
      if note.Err? {
        return Some(note.error);
      }
      var found := DiscoverTools(listId);
      if found.Err? {
        return Some(found.error);
      }
      connected := true;
      return None;
    }

    /** `connect_to_mcp_server` for a configuration value and a launcher
        outcome (`None` when launching raised). An exception from the
        membership test escapes; every later one is caught and gives false. */
    method Connect(config: Json, spawn: Option<ServerBehaviour>, initId: string, listId: string) returns (r: Result<bool>)
      requires Valid()
      modifies this
      ensures Valid()
      ensures LaunchCommand(config).Err? ==>
        r == Err(LaunchCommand(config).error) && unchanged(this)
      ensures LaunchCommand(config) == Ok(None) || (LaunchCommand(config).Ok? && spawn.None?) ==>
        r == Ok(false) && unchanged(this)
      ensures LaunchCommand(config).Ok? && LaunchCommand(config).value.Some? && spawn.Some? ==>
        var h := Handshake(Pipe(spawn.value.inputClosed, spawn.value.replies, []), initId, listId);
        && serverProcess != null && fresh(serverProcess)
        && serverProcess.command == LaunchCommand(config).value.value
        && !serverProcess.terminated
        && serverProcess.Streams() == h.pipe
        && tools == (if h.catalog.Some? then h.catalog.value else old(tools))
        && connected == (old(connected) || h.raised.None?)
        && r == Ok(h.raised.None?)
    {
      var launch := LaunchCommand(config);
      if launch.Err? {
        return Err(launch.error);
      }
      if launch.value.None? || spawn.None? {
        return Ok(false);
      }
      serverProcess := new ServerProcess(launch.value.value, spawn.value);
      var raised := InitializeSession(initId, listId);
      return Ok(raised.None?);
    }

    /** `call_tool`: the guard answers without touching the process; a
        connected call sends one `tools/call` request and maps the reply. */
    method CallTool(name: string, arguments: map<string, Json>, id: string) returns (res: CallResult)
      requires Valid()
      modifies serverProcess
      ensures !connected ==> res == NotConnected
      ensures !connected && serverProcess != null ==> serverProcess.Streams() == old(serverProcess.Streams())
      ensures connected ==>
        var c := Call(old(serverProcess.Streams()), id, name, arguments);
        res == c.result && serverProcess.Streams() == c.pipe
      ensures serverProcess != null ==> serverProcess.terminated == old(serverProcess.terminated)
    {
      if !connected {
        return NotConnected;
      }
      var resp := SendRequest(ToolsCallRequest(id, name, arguments));
      res := MapResponse(resp);
    }

    /** `get_forecast`: the location is not sent, only the coordinates. */
    method GetForecast(location: string, latitude: real, longitude: real, id: string) returns (reply: Reply)
      requires Valid()
      modifies serverProcess
      ensures !connected ==> reply == ErrorText(JString(NotConnectedMessage))
      ensures !connected && serverProcess != null ==> serverProcess.Streams() == old(serverProcess.Streams())
      ensures connected ==>
        var c := Call(old(serverProcess.Streams()), id, ForecastTool, CoordinateArguments(latitude, longitude));
        reply == InterpretPayload(c.result, ForecastTool, ForecastHeading) && serverProcess.Streams() == c.pipe
      ensures serverProcess != null ==> serverProcess.terminated == old(serverProcess.terminated)
    {
      var res := CallTool(ForecastTool, CoordinateArguments(latitude, longitude), id);
      reply := InterpretPayload(res, ForecastTool, ForecastHeading);
    }

    /** `get_alerts`: the state, and the token when there is one. */
    method GetAlerts(state: string, idToken: Option<string>, id: string) returns (reply: Reply)
      requires Valid()
      modifies serverProcess
      ensures !connected ==> reply == ErrorText(JString(NotConnectedMessage))
      ensures !connected && serverProcess != null ==> serverProcess.Streams() == old(serverProcess.Streams())
      ensures connected ==>
        var c := Call(old(serverProcess.Streams()), id, AlertsTool, AlertsArguments(state, idToken));
        reply == InterpretPayload(c.result, AlertsTool, AlertsHeading(state)) && serverProcess.Streams() == c.pipe
      ensures serverProcess != null ==> serverProcess.terminated == old(serverProcess.terminated)
    {
      var res := CallTool(AlertsTool, AlertsArguments(state, idToken), id);
      reply := InterpretPayload(res, AlertsTool, AlertsHeading(state));
    }

    /** `disconnect`: the process, if any, is terminated and dropped, and the
        client is disconnected. The outcome does not depend on the state
        before, so a second call changes nothing. */
    method Disconnect()
      modifies this, serverProcess
      ensures serverProcess == null && !connected && tools == old(tools)
      ensures Valid()
      ensures old(serverProcess) != null ==>
        old(serverProcess).terminated && old(serverProcess).Streams() == old(serverProcess.Streams())
    {
      if serverProcess != null {
        serverProcess.Terminate();
        serverProcess := null;
      }
      connected := false;
    }
  }
}
