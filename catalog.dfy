/** Tool discovery: the `tools/list` exchange and how its reply becomes the
    client's list of `MCPTool` records. */
module Catalog {
  import opened JsonValues
  import opened Rpc

  /** One advertised tool. The source declares the fields as `str`, `str` and
      `dict` but copies whatever JSON the server sent, so they are kept as JSON. */
  datatype McpTool = McpTool(name: Json, description: Json, parameters: Json)

  /** The tool record made from one catalog entry: its name is required, its
      description defaults to the empty string and its parameters, read from
      `inputSchema`, default to an empty dict. */
  function ToolOf(t: Json): (r: Result<McpTool>)
    ensures r.Ok? <==> t.JObject? && "name" in t.fields
    ensures r.Ok? ==> r.value.name == t.fields["name"]
    ensures r.Ok? ==> r.value.description == (if "description" in t.fields then t.fields["description"] else JString(""))
    ensures r.Ok? ==> r.value.parameters == (if "inputSchema" in t.fields then t.fields["inputSchema"] else EmptyObject)
  {
    match Subscript(t, "name")
    case Err(e) => Err(e)
    case Ok(name) =>
      Ok(McpTool(name, Get(t, "description", JString("")).value, Get(t, "inputSchema", EmptyObject).value))
  }

  /** The list built by the discovery loop, and the exception that stopped it
      early, if any. */
  datatype CatalogBuild = CatalogBuild(tools: seq<McpTool>, raised: Option<PyError>)

  /** The discovery loop over `entries`, one append per entry, stopping at the
      first entry whose fields cannot be read. */
  function BuildCatalog(entries: seq<Json>): (c: CatalogBuild)
    ensures |c.tools| <= |entries|
    ensures c.raised.None? ==> |c.tools| == |entries|
    ensures c.raised.Some? ==> |c.tools| < |entries|
    decreases |entries|
  {
    if entries == [] then CatalogBuild([], None)
    else
      var before := BuildCatalog(entries[..|entries| - 1]);
      if before.raised.Some? then before
      else match ToolOf(entries[|entries| - 1])
        case Ok(t) => CatalogBuild(before.tools + [t], None)
        case Err(e) => CatalogBuild(before.tools, Some(e))
  }

  /** The catalog holds one tool per entry, in order, up to the first entry that
      raises; with no such entry it holds exactly one tool per entry. */
  lemma {:induction false} BuildCatalogInOrder(entries: seq<Json>)
    ensures var c := BuildCatalog(entries);
      && |c.tools| <= |entries|
      && (forall k :: 0 <= k < |c.tools| ==> ToolOf(entries[k]) == Ok(c.tools[k]))
      && (c.raised.None? ==> |c.tools| == |entries|)
      && (c.raised.Some? ==> |c.tools| < |entries| && ToolOf(entries[|c.tools|]) == Err(c.raised.value))
    decreases |entries|
  {
    if entries != [] {
      var init := entries[..|entries| - 1];
      BuildCatalogInOrder(init);
      var before := BuildCatalog(init);
      forall k | 0 <= k < |before.tools|
        ensures entries[k] == init[k]
      {
      }
      if before.raised.Some? {
        assert entries[|before.tools|] == init[|before.tools|];
      }
    }
  }

  /** Once an entry has raised, the entries after it are never visited. */
  lemma {:induction false} BuildCatalogStops(entries: seq<Json>, i: nat)
    requires i <= |entries|
    requires BuildCatalog(entries[..i]).raised.Some?
    ensures BuildCatalog(entries) == BuildCatalog(entries[..i])
    decreases |entries| - i
  {
    if i == |entries| {
      assert entries[..i] == entries;
    } else {
      assert entries[..i + 1][..i] == entries[..i];
      BuildCatalogStops(entries, i + 1);
    }
  }

  /** The loop stops early exactly when some entry cannot be read. */
  lemma CatalogCompleteIff(entries: seq<Json>)
    ensures BuildCatalog(entries).raised.None? <==> forall k :: 0 <= k < |entries| ==> ToolOf(entries[k]).Ok?
  {
    BuildCatalogInOrder(entries);
  }

  /** The entries the discovery loop visits: the `tools` of the reply's
      `result` (an empty list when absent), provided the reply is truthy and
      holds `result`; otherwise there are none. */
  function CatalogEntries(resp: Json): (r: Result<seq<Json>>)
    ensures !Truthy(resp) ==> r == Ok([])
    ensures resp.JObject? && "result" !in resp.fields ==> r == Ok([])
    ensures resp.JObject? && "result" in resp.fields && resp.fields["result"].JObject? ==>
              var result := resp.fields["result"].fields;
              && ("tools" !in result ==> r == Ok([]))
              && ("tools" in result && result["tools"].JArray? ==> r == Ok(result["tools"].items))
              && ("tools" in result ==> r == IterateForSubscript(result["tools"]))
    ensures Truthy(resp) && resp.JObject? && "result" in resp.fields && !resp.fields["result"].JObject? ==>
              r == Err(NoAttribute(resp.fields["result"], "get"))
    ensures Truthy(resp) && resp.JArray? ==>
              && (JString("result") in resp.items ==>
                    r == Err(PyError("TypeError", "list indices must be integers or slices, not str")))
              && (JString("result") !in resp.items ==> r == Ok([]))
    ensures Truthy(resp) && resp.JString? ==>
              && (IsSubstring("result", resp.s) ==> r == Err(PyError("TypeError", "string indices must be integers, not 'str'")))
              && (!IsSubstring("result", resp.s) ==> r == Ok([]))
    ensures Truthy(resp) && !(resp.JObject? || resp.JArray? || resp.JString?) ==>
              r == Err(PyError("TypeError", "argument of type '" + TypeName(resp) + "' is not iterable"))
  {
    if !Truthy(resp) then Ok([])
    else
      var hasResult :- Contains("result", resp);
      if !hasResult then Ok([])
      else
        var result :- Subscript(resp, "result");
        var tools :- Get(result, "tools", JArray([]));
        IterateForSubscript(tools)
  }

  /** `discover_tools` as a step on the pipe: `catalog` is the new value of the
      client's tool list (`None` when sending raised before the reset), and
      `raised` the exception it propagates. */
  datatype DiscoverStep = DiscoverStep(pipe: Pipe, catalog: Option<seq<McpTool>>, raised: Option<PyError>)

  /** A closed input raises before anything changes. Otherwise exactly the
      request is written, and the catalog is left alone only when the reply
      line cannot be decoded; it is rebuilt in every other case. */
  function Discover(p: Pipe, id: string): (d: DiscoverStep)
    ensures p.closed ==> d == DiscoverStep(p, None, Some(BrokenPipe))
    ensures !p.closed ==> d.pipe.written == p.written + [ToolsListRequest(id)]
    ensures !p.closed ==> (d.catalog.None? <==> p.pending != [] && p.pending[0].Garbled?)
    ensures d.catalog.None? ==> d.raised.Some?
    ensures !p.closed && p.pending == [] ==> d == DiscoverStep(Pipe(false, [], p.written + [ToolsListRequest(id)]), Some([]), None)
  {
    var x := Send(p, ToolsListRequest(id));
    match x.response
    case Err(e) => DiscoverStep(x.pipe, None, Some(e))
    case Ok(resp) =>
      match CatalogEntries(resp)
      case Err(e) => DiscoverStep(x.pipe, Some([]), Some(e))
      case Ok(entries) =>
        var c := BuildCatalog(entries);
        DiscoverStep(x.pipe, Some(c.tools), c.raised)
  }

  /** Discovery writes exactly the `tools/list` request; once that write
      succeeded the catalog is rebuilt from scratch; a falsy reply or a dict
      reply without `result` (an error reply, or the `{}` of end of stream)
      leaves it empty without raising. */
  lemma DiscoverRebuilds(p: Pipe, id: string)
    ensures var d := Discover(p, id);
      && d.pipe == Send(p, ToolsListRequest(id)).pipe
      && (d.catalog.None? <==> Send(p, ToolsListRequest(id)).response.Err?)
      && (d.catalog.None? ==> d.raised == Some(Send(p, ToolsListRequest(id)).response.error))
      && (p.closed ==> d.raised == Some(BrokenPipe))
      && (!p.closed && p.pending == [] ==> d.catalog == Some([]) && d.raised.None?)
      && (!p.closed && p.pending != [] && p.pending[0].Parsed? &&
          (!Truthy(p.pending[0].value) || (p.pending[0].value.JObject? && "result" !in p.pending[0].value.fields)) ==>
            d.catalog == Some([]) && d.raised.None?)
  {
    var x := Send(p, ToolsListRequest(id));
    if !p.closed && p.pending == [] {
      assert CatalogEntries(x.response.value) == Ok([]);
    }
  }

  /** A reply whose `result` holds a `tools` list of named entries, whatever
      else the reply and its `result` carry (`jsonrpc`, `id`, ...), gives
      one tool per entry, in order, and raises nothing. */
  lemma DiscoverWellFormed(p: Pipe, id: string, reply: map<string, Json>, entries: seq<Json>)
    requires !p.closed && p.pending != [] && p.pending[0] == Parsed(JObject(reply))
    requires "result" in reply && reply["result"].JObject?
    requires "tools" in reply["result"].fields && reply["result"].fields["tools"] == JArray(entries)
    requires forall k :: 0 <= k < |entries| ==> entries[k].JObject? && "name" in entries[k].fields
    ensures var d := Discover(p, id);
      && d.raised.None? && d.catalog.Some?
      && |d.catalog.value| == |entries|
      && forall k :: 0 <= k < |entries| ==> ToolOf(entries[k]) == Ok(d.catalog.value[k])
  {
    assert CatalogEntries(JObject(reply)) == Ok(entries);
    BuildCatalogInOrder(entries);
    CatalogCompleteIff(entries);
  }
}
