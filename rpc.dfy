/** The JSON-RPC 2.0 messages the client writes, and the line framing of
    `send_request` over the child process's standard streams. Serialisation is
    abstract: one written line is one `Json` value, and one line read back is
    either a parsed value or text `json.loads` rejects. */
module Rpc {
  import opened JsonValues

  const ProtocolVersion := "2024-11-05"
  const ClientName := "weather-gradio-client"
  const ClientVersion := "1.0.0"

  function Envelope(id: string, rpcMethod: string): map<string, Json>
  {
    map["jsonrpc" := JString("2.0"), "id" := JString(id), "method" := JString(rpcMethod)]
  }

  /** `"id" in req`: only requests with an id wait for a reply line. On a
      dict this is Python's key membership test. */
  predicate HasId(req: Json)
    ensures req.JObject? ==> (HasId(req) <==> Contains("id", req) == Ok(true))
    ensures HasId(req) ==> req.JObject?
  {
    req.JObject? && "id" in req.fields
  }

  function MethodOf(req: Json): Json
  {
    if req.JObject? && "method" in req.fields then req.fields["method"] else JNull
  }

  /** The `initialize` request that opens the handshake: it carries an id and
      announces the protocol version, the tools capability and the client. */
  function InitializeRequest(id: string): (r: Json)
    ensures HasId(r) && r.fields["id"] == JString(id) && "jsonrpc" in r.fields && r.fields["jsonrpc"] == JString("2.0")
    ensures MethodOf(r) == JString("initialize")
    ensures "params" in r.fields && r.fields["params"].JObject?
    ensures var params := r.fields["params"].fields;
      && params.Keys == {"protocolVersion", "capabilities", "clientInfo"}
      && params["protocolVersion"] == JString(ProtocolVersion)
      && params["capabilities"] == JObject(map["tools" := EmptyObject])
      && params["clientInfo"] == JObject(map["name" := JString(ClientName), "version" := JString(ClientVersion)])
  {
    var params := map[
      "protocolVersion" := JString(ProtocolVersion),
      "capabilities" := JObject(map["tools" := EmptyObject]),
      "clientInfo" := JObject(map["name" := JString(ClientName), "version" := JString(ClientVersion)])
    ];
    JObject(Envelope(id, "initialize")["params" := JObject(params)])
  }

  /** The `notifications/initialized` notification: it carries no id. */
  function InitializedNotification(): (r: Json)
    ensures !HasId(r) && r.JObject? && "jsonrpc" in r.fields && r.fields["jsonrpc"] == JString("2.0")
    ensures MethodOf(r) == JString("notifications/initialized")
  {
    JObject(map["jsonrpc" := JString("2.0"), "method" := JString("notifications/initialized")])
  }

  /** The `tools/list` request: an id and the method, no parameters. */
  function ToolsListRequest(id: string): (r: Json)
    ensures HasId(r) && r.fields["id"] == JString(id) && "jsonrpc" in r.fields && r.fields["jsonrpc"] == JString("2.0")
    ensures MethodOf(r) == JString("tools/list") && "params" !in r.fields
  {
    JObject(Envelope(id, "tools/list"))
  }

  /** The `tools/call` request: an id, the method, and the tool's name and
      arguments as its parameters. */
  function ToolsCallRequest(id: string, name: string, arguments: map<string, Json>): (r: Json)
    ensures HasId(r) && r.fields["id"] == JString(id) && "jsonrpc" in r.fields && r.fields["jsonrpc"] == JString("2.0")
    ensures MethodOf(r) == JString("tools/call")
    ensures "params" in r.fields && r.fields["params"] == JObject(map["name" := JString(name), "arguments" := JObject(arguments)])
  {
    var params := map["name" := JString(name), "arguments" := JObject(arguments)];
    JObject(Envelope(id, "tools/call")["params" := JObject(params)])
  }

  /** One line of the child's standard output. */
  datatype Line = Parsed(value: Json) | Garbled(reason: string)

  /** The two streams of the child process: whether its standard input is
      closed (writing raises), the output lines not yet read (none left means
      end of stream), and every line written so far. */
  datatype Pipe = Pipe(closed: bool, pending: seq<Line>, written: seq<Json>)

  /** A pipe after one `send_request`, and what that call returned or raised. */
  datatype Exchange = Exchange(pipe: Pipe, response: Result<Json>)

  const BrokenPipe := PyError("BrokenPipeError", "[Errno 32] Broken pipe")

  /** Decoding a received line as JSON: a parsed line gives its value, any
      other line raises `JSONDecodeError`. */
  function Decode(line: Line): (r: Result<Json>)
    ensures r.Ok? <==> line.Parsed?
    ensures line.Parsed? ==> r.value == line.value
    ensures line.Garbled? ==> r.error.kind == "JSONDecodeError"
  {
    match line
    case Parsed(v) => Ok(v)
    case Garbled(reason) => Err(PyError("JSONDecodeError", reason))
  }

  /** `send_request`: write one line; if the request has an id, read one line
      and decode it; end of stream, or no id, gives `{}`. */
  function Send(p: Pipe, req: Json): (x: Exchange)
    ensures p.closed ==> x == Exchange(p, Err(BrokenPipe))
    ensures !p.closed ==> !x.pipe.closed && x.pipe.written == p.written + [req]
    ensures !p.closed && HasId(req) && p.pending != [] ==>
              x.pipe.pending == p.pending[1..] && x.response == Decode(p.pending[0])
    ensures !p.closed && (!HasId(req) || p.pending == []) ==>
              x.pipe.pending == p.pending && x.response == Ok(EmptyObject)
  {
    if p.closed then Exchange(p, Err(BrokenPipe))
    else
      var wrote := p.(written := p.written + [req]);
      if HasId(req) && p.pending != [] then
        Exchange(wrote.(pending := p.pending[1..]), Decode(p.pending[0]))
      else
        Exchange(wrote, Ok(EmptyObject))
  }

  /** The ids of two requests never influence what either of them reads. */
  lemma {:induction false} ReplyIgnoresId(p: Pipe, a: Json, b: Json)
    requires HasId(a) && HasId(b)
    ensures Send(p, a).response == Send(p, b).response
    ensures Send(p, a).pipe.pending == Send(p, b).pipe.pending
  {
  }

  /** A run of `send_request` calls, one after another on the same pipe. */
  datatype Exchanges = Exchanges(pipe: Pipe, responses: seq<Result<Json>>)

  ghost function SendAll(p: Pipe, reqs: seq<Json>): (x: Exchanges)
    ensures |x.responses| == |reqs|
    decreases |reqs|
  {
    if reqs == [] then Exchanges(p, [])
    else
      var first := Send(p, reqs[0]);
      var rest := SendAll(first.pipe, reqs[1..]);
      Exchanges(rest.pipe, [first.response] + rest.responses)
  }

  /** How many of `reqs` carry an id, that is, how many of them read a line. */
  function CountIds(reqs: seq<Json>): (n: nat)
    ensures n <= |reqs|
    decreases |reqs|
  {
    if reqs == [] then 0 else (if HasId(reqs[0]) then 1 else 0) + CountIds(reqs[1..])
  }

  /** No line is read exactly when every request is a notification, and one
      per request exactly when every request carries an id. */
  lemma {:induction false} CountIdsExtremes(reqs: seq<Json>)
    ensures CountIds(reqs) == 0 <==> forall k :: 0 <= k < |reqs| ==> !HasId(reqs[k])
    ensures CountIds(reqs) == |reqs| <==> forall k :: 0 <= k < |reqs| ==> HasId(reqs[k])
    decreases |reqs|
  {
    if reqs != [] {
      CountIdsExtremes(reqs[1..]);
      assert forall k :: 1 <= k < |reqs| ==> reqs[k] == reqs[1..][k - 1];
    }
  }

  /** What the k-th of `reqs` receives when they are sent in order to an open
      pipe whose output holds `pending`: a request with an id gets the next
      line not yet taken by an earlier request with an id, or `{}` once the
      output has run out; a notification gets `{}`. */
  function ReplyAt(pending: seq<Line>, reqs: seq<Json>, k: nat): Result<Json>
    requires k < |reqs|
  {
    var taken := CountIds(reqs[..k]);
    if HasId(reqs[k]) && taken < |pending| then Decode(pending[taken]) else Ok(EmptyObject)
  }

  /** Replies are paired with requests purely by order, whatever the ids: on
      an open pipe every request is written exactly once, in order; the
      requests with an id consume the pending lines one each, in order, until
      none is left; notifications consume nothing. */
  lemma {:induction false} FifoPairing(p: Pipe, reqs: seq<Json>)
    requires !p.closed
    ensures var used := if CountIds(reqs) < |p.pending| then CountIds(reqs) else |p.pending|;
      SendAll(p, reqs).pipe == Pipe(false, p.pending[used..], p.written + reqs)
    ensures forall k :: 0 <= k < |reqs| ==> SendAll(p, reqs).responses[k] == ReplyAt(p.pending, reqs, k)
    decreases |reqs|
  {
    if reqs == [] {
      assert p.pending[0..] == p.pending;
    } else {
      var first := Send(p, reqs[0]);
      var rest := reqs[1..];
      FifoPairing(first.pipe, rest);
      var tail := SendAll(first.pipe, rest);
      assert SendAll(p, reqs) == Exchanges(tail.pipe, [first.response] + tail.responses);
      assert p.written + [reqs[0]] + rest == p.written + reqs;
      var h := if HasId(reqs[0]) then 1 else 0;
      assert CountIds(reqs) == h + CountIds(rest);
      if h == 1 && p.pending != [] {
        assert first.pipe.pending == p.pending[1..];
        var used := if CountIds(rest) < |p.pending| - 1 then CountIds(rest) else |p.pending| - 1;
        assert p.pending[1..][used..] == p.pending[used + 1..];
      }
      forall k | 0 <= k < |reqs|
        ensures SendAll(p, reqs).responses[k] == ReplyAt(p.pending, reqs, k)
      {
        if k == 0 {
          assert reqs[..0] == [];
        } else {
          assert SendAll(p, reqs).responses[k] == tail.responses[k - 1];
          ReplyAtShift(p, reqs, k);
        }
      }
    }
  }

  /** The k-th request's reply, for k past the first, is what it would get
      as the (k-1)-th request sent after the first one. */
  lemma ReplyAtShift(p: Pipe, reqs: seq<Json>, k: nat)
    requires !p.closed && 0 < k < |reqs|
    ensures ReplyAt(p.pending, reqs, k) == ReplyAt(Send(p, reqs[0]).pipe.pending, reqs[1..], k - 1)
  {
    var rest := reqs[1..];
    var h := if HasId(reqs[0]) then 1 else 0;
    assert reqs[..k][0] == reqs[0];
    assert reqs[..k][1..] == rest[..k - 1];
    assert CountIds(reqs[..k]) == h + CountIds(rest[..k - 1]);
    assert rest[k - 1] == reqs[k];
    var taken := CountIds(rest[..k - 1]);
    if h == 1 && p.pending != [] && taken < |p.pending| - 1 {
      assert p.pending[1..][taken] == p.pending[taken + 1];
    }
  }

  /** Once the output has ended, every request with an id reads `{}`, and
      every notification reads `{}` without consuming anything. */
  lemma {:induction false} EndOfStreamAnswersEmpty(p: Pipe, reqs: seq<Json>)
    requires !p.closed && p.pending == []
    ensures SendAll(p, reqs).pipe == Pipe(false, [], p.written + reqs)
    ensures forall k :: 0 <= k < |reqs| ==> SendAll(p, reqs).responses[k] == Ok(EmptyObject)
  {
    FifoPairing(p, reqs);
    assert p.pending[0..] == [];
  }
}
