# Weather MCP client: a verified model

This project models the client side of `weather_gradio_app.py`, a web front end
that talks to a local weather tool server over the Model Context Protocol
(JSON-RPC 2.0, one JSON message per line, over the standard streams of a child
process). Two parts are modelled:

- **The `WeatherMCPClient` state machine.** This covers:
  - the fields `tools`, `connected` and `server_process`;
  - `send_request` framing;
  - the `initialize` / `notifications/initialized` / `tools/list` handshake;
  - the rebuilding of the tool catalog;
  - the `connect` guard and the command it launches;
  - the mapping of a `tools/call` reply into `{success, data}` / `{success, error}`;
  - how `get_forecast` and `get_alerts` turn that result into text;
  - `disconnect`.
- **The token and access helpers.** This covers:
  - the base64url padding;
  - the dot-split check of the JWT parser;
  - role extraction and the service-account rule of `accept_id_token`;
  - the guard chains of the two query handlers;
  - the alerts-tab visibility test.

Modules, one per file:

- `JsonValues` (`json.dfy`): decoded JSON as a datatype, and the Python operations the client applies to it: `.get`, `[key]`, `in`, iteration, truthiness. Each operation returns the exception CPython raises when the receiver has the wrong type, so every `TypeError`, `KeyError` and `AttributeError` branch of the client can be stated.
- `Rpc` (`rpc.dfy`): the four messages, the two process streams as a value `Pipe(closed, pending, written)`, and `Send`, the specification of one `send_request`.
- `Catalog` (`catalog.dfy`): `MCPTool`, the discovery loop as a function over the `tools` entries, and `Discover`.
- `Session` (`session.dfy`): the connect guard and command, the handshake as a function on a `Pipe`, and the reply mapping of `call_tool`.
- `Payload` (`payload.dfy`): the argument maps of the two wrappers and the interpretation of the result payload.
- `Client` (`client.dfy`): the classes `ServerProcess` (the `Popen` object with its streams) and `WeatherMcpClient`, whose methods update their fields in place. Each method is proved against the functions above.
- `Tokens` (`tokens.dfy`): `str.strip`, `str.split`, padding, `parse_jwt_no_verify`, and `accept_id_token`, whose in-place list append is a method.
- `App` (`app.dfy`): `connect_to_mcp`, `clear_token`, the two query handlers, and `_alerts_tab_vis`.

Inputs that come from outside the program are parameters:

- the configuration value that `get_weather_server_config` would read;
- the outcome of launching the process, with the lines the server will print;
- the request ids that `uuid4` would produce;
- `REQUIRED_ROLE`;
- the base64-and-JSON decoder;
- the geocoder;
- the shared client object.

Behaviours of the code that a reader might not expect, which the model keeps:

- If the handshake fails, `connected` keeps its previous value. It is not forced to false, because the code sets it only on success and never clears it on failure.
- Reconnecting does not terminate a previously launched process.
- The tool schema is read from `inputSchema`, not `parameterSchema`.
- No caller retries a tool call with other argument shapes. The handlers make exactly one call.
- A failed handshake is not an error that `connect` lets escape: it is caught and `connect` returns false.

## Model

| member | source | states |
|---|---|---|
| JsonValues.Get | weather_gradio_app.py:97-98 | `d.get(k, default)` gives the value or the default on a dict, and on any other type raises the `AttributeError` naming that type and `get` |
| JsonValues.Subscript | weather_gradio_app.py:98 | `d[k]` succeeds exactly on a dict holding `k`; a missing key raises `KeyError('k')`, a non-dict raises `TypeError` |
| JsonValues.Contains | weather_gradio_app.py:96 | `k in v` tests keys of a dict, elements of a list, substrings of a str, and raises for every other type |
| JsonValues.IterateForSubscript | weather_gradio_app.py:97-98 | a `for t in v: t["name"]` loop visits the items of a list and nothing of an empty str or dict; it succeeds exactly for those; a non-empty str or dict raises the string-index `TypeError` at its first item, and every other type (`None`, numbers, bools) raises "'T' object is not iterable" |
| JsonValues.FalsyValues | weather_gradio_app.py:96-109 | a value is falsy exactly when it is `None`, `False`, zero, or an empty string, list or dict |
| Rpc.HasId | weather_gradio_app.py:86 | `"id" in req` holds exactly when the message is a dict holding `id`, which is what the membership test answers on a dict |
| Rpc.InitializeRequest | weather_gradio_app.py:67-76 | the `initialize` request carries the given id, `jsonrpc` "2.0", and params with exactly `protocolVersion` "2024-11-05", `capabilities` `{"tools": {}}` and `clientInfo` naming the client and its version |
| Rpc.InitializedNotification | weather_gradio_app.py:78 | the notification carries `jsonrpc` "2.0" and the method `notifications/initialized`, and no id |
| Rpc.ToolsListRequest | weather_gradio_app.py:93 | the `tools/list` request carries the given id, `jsonrpc` "2.0" and no params |
| Rpc.ToolsCallRequest | weather_gradio_app.py:105 | the `tools/call` request carries the given id and params holding exactly the tool name and the argument dict |
| Rpc.Decode | weather_gradio_app.py:89 | a received line decodes exactly when it is valid JSON; a garbled line raises `JSONDecodeError` |
| Rpc.Send | weather_gradio_app.py:82-90 | on an open pipe exactly one line is written; one pending line is consumed and decoded only for a request with an id; a notification or end of stream returns `{}`; a closed input raises `BrokenPipeError` and changes nothing |
| Rpc.ReplyIgnoresId | weather_gradio_app.py:86-89 | what a request reads does not depend on its id |
| Rpc.SendAll | weather_gradio_app.py:82-90 | a run of requests yields one response per request |
| Rpc.FifoPairing | weather_gradio_app.py:82-90 | on an open pipe, as many pending lines are consumed as there are requests with an id, or all of them when there are fewer, and every request is written once, in order; the k-th response is the decode of the pending line whose index is the number of earlier requests with an id, or `{}` when the stream has ended or the request has no id |
| Rpc.CountIds | weather_gradio_app.py:86 | the number of requests with an id is at most the number of requests |
| Rpc.CountIdsExtremes | weather_gradio_app.py:86 | no line is read exactly when every request is a notification, and one per request exactly when every request carries an id |
| Rpc.EndOfStreamAnswersEmpty | weather_gradio_app.py:86-90 | after end of stream every request reads `{}` and is still written to the log |
| Catalog.ToolOf | weather_gradio_app.py:98 | an entry gives a tool exactly when it is a dict with `name`; `description` defaults to `""` and `parameters` to `{}` (taken from `inputSchema`) |
| Catalog.BuildCatalogInOrder | weather_gradio_app.py:97-98 | the catalog holds one tool per entry, in order, up to the first entry that raises, and exactly one per entry when none raises |
| Catalog.BuildCatalogStops | weather_gradio_app.py:97-98 | once an entry has raised, the entries after it are never read |
| Catalog.CatalogCompleteIff | weather_gradio_app.py:97-98 | the loop finishes without raising exactly when every entry has a `name` |
| Catalog.CatalogEntries | weather_gradio_app.py:96-97 | a falsy reply, a dict reply without `result` and a `result` without `tools` give no entries; a `result` holding `tools` gives what iterating `tools` gives; a `result` that is not a dict raises `AttributeError` at `.get`; a list reply holding "result" and a str reply containing it raise their `TypeError`s at the subscript and give no entries otherwise; any other truthy reply raises "argument of type 'T' is not iterable" |
| Catalog.BuildCatalog | weather_gradio_app.py:97-98 | the loop appends at most one tool per entry; exactly one per entry when nothing raised, and fewer when an entry raised |
| Catalog.DiscoverRebuilds | weather_gradio_app.py:92-99 | the catalog is reset exactly when sending succeeded; a closed input raises broken pipe; a falsy reply, a dict reply without `result` (such as an error reply) and end of stream give an empty catalog without raising |
| Catalog.DiscoverWellFormed | weather_gradio_app.py:94-98 | a `tools/list` reply whose `result` holds a `tools` list of named dicts gives one tool per entry, in order, and raises nothing, whatever other keys the reply, its `result` and the entries hold |
| Catalog.Discover | weather_gradio_app.py:92-99 | a closed input raises broken pipe with nothing written; otherwise the `tools/list` request is written, the catalog is reset unless the reply line is garbled (which raises), an unreset catalog always comes with an exception, and end of stream gives an empty catalog without raising |
| Session.BuildCommand | weather_gradio_app.py:51 | the command list is `[command] + args`, just `[command]` without `args`, and a `TypeError` when `args` is not a list |
| Session.LaunchCommand | weather_gradio_app.py:47-51 | the membership test raises `TypeError` ("argument of type 'T' is not iterable") exactly for a truthy config that is not a dict, list or str; a list or str config returns false with nothing launched; a falsy config or one without `command` returns false; otherwise the launched command is the built one |
| Session.ConfiguredCommand | weather_gradio_app.py:47-51 | a config with string `command` and `args` launches exactly `[command] ++ args` |
| Session.HandshakeStopsAtInitialize | weather_gradio_app.py:77 | an `initialize` exchange that raises ends the handshake with the catalog untouched |
| Session.Handshake | weather_gradio_app.py:64-80 | a closed input raises broken pipe before anything is written; a handshake that raises nothing has a catalog; a rebuilt catalog comes with all three messages written in order; a garbled `initialize` reply raises its decode error after only the `initialize` request was written |
| Session.HandshakeReachesDiscovery | weather_gradio_app.py:77-79 | after a successful `initialize` the notification and then discovery follow |
| Session.HandshakeLogPrefix | weather_gradio_app.py:64-80 | the handshake writes a prefix of initialize, notification, `tools/list`; a closed input raises before anything is written |
| Session.HandshakeCompleteLog | weather_gradio_app.py:77-80 | a handshake that raises nothing has written all three messages in order and rebuilt the catalog |
| Session.HandshakeAtEndOfStream | weather_gradio_app.py:77-90 | a server that prints nothing still completes the handshake, with an empty catalog |
| Session.HandshakeTwoTools | weather_gradio_app.py:77-99 | an `initialize` reply followed by a list of `get_forecast` and `get_alerts` gives exactly those two tools, in that order, with default fields |
| Session.NameOnlyTool | weather_gradio_app.py:98 | an entry holding only `name` gets the default description and parameters |
| Session.MapResponse | weather_gradio_app.py:104-114 | a truthy `result` is success with that payload unchanged; otherwise a truthy `error` gives its `message`; a truthy error dict without `message` fails with `'message'` (the `KeyError` text), a str error and a list error fail with their `TypeError` texts, any other error type with "'T' object is not subscriptable"; otherwise "Unknown response format"; every exception becomes a failure with its text; never the not-connected shape |
| Session.FalsyResultIsUnknown | weather_gradio_app.py:107-112 | a falsy `result` with no truthy `error`, whatever else the reply holds, and the `{}` of end of stream give "Unknown response format" |
| Session.ResultRoundTrip | weather_gradio_app.py:107-108 | a truthy `result` comes back unchanged whatever else the reply holds |
| Session.RemoteErrorVerbatim | weather_gradio_app.py:109-110 | a remote error's `message` is passed on verbatim whatever else the reply and the error object hold, when the reply has no truthy `result` |
| Session.Call | weather_gradio_app.py:105-106 | a closed input fails with the broken-pipe text and changes nothing; an open one writes exactly the `tools/call` request and stays open; at end of stream it fails with "Unknown response format"; otherwise it consumes one line and the result is the reply mapping of its decode |
| Session.CallAtEndOfStream | weather_gradio_app.py:106-112 | a call after end of stream fails with "Unknown response format" |
| Payload.AlertsHeading | weather_gradio_app.py:156 | the heading is exactly the siren marker and title, then the state, then the closing bold marker and a blank line |
| Payload.CoordinateArguments | weather_gradio_app.py:131 | the forecast arguments are exactly `latitude` and `longitude` |
| Payload.AlertsArguments | weather_gradio_app.py:146-148 | the alerts arguments hold `state`, and hold `authToken` if and only if the token is truthy |
| Payload.ErrorOf | weather_gradio_app.py:133-134 | the error text is the failure's `error`, or the not-connected message; the `'Unknown error'` default is never reached |
| Payload.InterpretPayload | weather_gradio_app.py:133-140 | an unsuccessful result gives `Error: ` with its error; on a dict payload a non-empty `content` list gives its first entry's `text`, `str(data)` when that entry is a dict without `text`, and an `AttributeError` crash for a non-dict entry, else the heading and the dump; a list payload holding `"content"` and a str payload containing it crash with their `TypeError` texts and otherwise are dumped; any other payload type crashes with "argument of type 'T' is not iterable"; crashes carry the tool name |
| Payload.ListPayloadCrashes | weather_gradio_app.py:136 | a list payload holding `"content"` passes the membership test and raises on the string subscript |
| Payload.TextBlockShown | weather_gradio_app.py:136-137 | a payload whose `content` list starts with a dict holding `text` is shown as that text, whatever else the payload, the block and the rest of the list hold |
| Payload.ForecastOfReply | weather_gradio_app.py:131-137 | a forecast call answered by a reply whose `result` has a `content` list starting with a text block ends in that text, whatever else the reply and its `result` hold |
| Payload.ClosedInputReply | weather_gradio_app.py:113-114 | once the server has stopped reading, a tool call is shown as `Error: ` with the broken-pipe text |
| Payload.EndOfStreamReply | weather_gradio_app.py:149-152 | an alerts call after end of stream shows the unknown-format error |
| Client.ServerProcess.constructor | weather_gradio_app.py:54-56 | a launched process runs the given command with nothing written yet |
| Client.ServerProcess.WriteLine | weather_gradio_app.py:84-85 | writing appends one line, or raises broken pipe on a closed input and writes nothing |
| Client.ServerProcess.ReadLine | weather_gradio_app.py:87 | reading consumes the next line, or returns nothing at end of stream |
| Client.ServerProcess.Terminate | weather_gradio_app.py:165 | terminating marks the process terminated and leaves its streams alone |
| Client.ServerProcess.Exit | weather_gradio_app.py:84-85 | a server that exits refuses every later write, keeps the lines it already printed, and is not marked terminated |
| Client.WeatherMcpClient.constructor | weather_gradio_app.py:28-31 | a new client has no tools, is not connected and has no process |
| Client.WeatherMcpClient.SendRequest | weather_gradio_app.py:82-90 | the process's streams and the response are those of `Rpc.Send` |
| Client.WeatherMcpClient.DiscoverTools | weather_gradio_app.py:92-99 | the tool list after the loop is `Catalog.Discover`'s catalog, and the result is true iff the list is non-empty |
| Client.WeatherMcpClient.InitializeSession | weather_gradio_app.py:64-80 | without a process it raises "MCP server not started" and changes nothing; otherwise the streams and tools are `Session.Handshake`'s, and the client becomes connected only when the handshake raised nothing |
| Client.WeatherMcpClient.Connect | weather_gradio_app.py:46-62 | a missing or commandless config returns false with no state change; otherwise a fresh process runs the built command and the result is true iff the handshake completed |
| Client.WeatherMcpClient.CallTool | weather_gradio_app.py:101-114 | when not connected it returns the not-connected error and touches no stream; otherwise it returns `Session.Call`'s result and leaves its pipe; the process is never terminated |
| Client.WeatherMcpClient.GetForecast | weather_gradio_app.py:127-140 | the reply is `InterpretPayload` of the `get_forecast` call with the coordinates; the process is never terminated |
| Client.WeatherMcpClient.GetAlerts | weather_gradio_app.py:142-158 | the reply is `InterpretPayload` of the `get_alerts` call with the alerts arguments; the process is never terminated |
| Client.WeatherMcpClient.Disconnect | weather_gradio_app.py:163-167 | afterwards there is no process and the client is not connected, whatever the state before; the old process is terminated |
| Tokens.TrimStart | weather_gradio_app.py:210 | the result is a suffix of the token that does not start with whitespace |
| Tokens.TrimStartDropsSpace | weather_gradio_app.py:210 | everything dropped in front is whitespace, so exactly the leading whitespace goes |
| Tokens.TrimEnd | weather_gradio_app.py:210 | the result is a prefix of the token that does not end with whitespace |
| Tokens.TrimEndDropsSpace | weather_gradio_app.py:210 | everything dropped at the end is whitespace, so exactly the trailing whitespace goes |
| Tokens.BlankIffAllSpace | weather_gradio_app.py:210 | a token strips to empty exactly when it is all whitespace |
| Tokens.Strip | weather_gradio_app.py:210 | the stripped token is the slice of the pasted one that starts after its leading whitespace and leaves out exactly its trailing whitespace; it neither starts nor ends with whitespace |
| Tokens.Split | weather_gradio_app.py:180 | splitting gives one more part than there are dots, and no part contains a dot |
| Tokens.SplitJoinRoundTrip | weather_gradio_app.py:180 | joining the parts with the separator gives the token back |
| Tokens.NoSeparatorNoCount | weather_gradio_app.py:180-181 | there are no dots to count exactly when the token has no dot |
| Tokens.Fill | weather_gradio_app.py:175 | the fill is the requested number of `=` |
| Tokens.Padded | weather_gradio_app.py:172-175 | the padded length is a multiple of 4, the original is a prefix, fewer than 4 characters are added, all `=`, and none when the length already divides by 4 |
| Tokens.PaddedIdempotent | weather_gradio_app.py:172-175 | padding a padded string changes nothing |
| Tokens.ParseJwt | weather_gradio_app.py:178-183 | a token without a dot has no payload; otherwise the payload is the decoded padded second segment |
| Tokens.ClaimedRoles | weather_gradio_app.py:216-222 | a list claim is the `roles` or `groups` list the payload holds under that key; a single role is the payload's `role`; no claim means none of the three keys applies |
| Tokens.ClaimPriority | weather_gradio_app.py:216-222 | a `roles` list wins, then `[role]`, then a `groups` list, and no roles at all when none of these is present; no other claim matters |
| Tokens.IsServiceAccount | weather_gradio_app.py:225 | a str `sub` is a service account exactly when it ends with `gserviceaccount.com` (every such `sub` is accepted, and an accepted one is some prefix followed by the suffix); a missing `sub` is not a service account; a `sub` that is not a str raises `AttributeError` on `endswith` |
| Tokens.GrantedRoles | weather_gradio_app.py:225-227 | a service account gains the required role; the claimed roles are kept as a prefix; at most one role is added, and none when the role is present or the user is not a service account |
| Tokens.GrantAddsNoDuplicate | weather_gradio_app.py:226-227 | the rule never duplicates the required role and changes no other role's count |
| Tokens.Decimal | weather_gradio_app.py:230 | an item index in the join's error message is printed with at least one digit |
| Tokens.DecimalDenotes | weather_gradio_app.py:230 | the printed index is made of decimal digits, denotes the index, and starts with `0` only for index 0 |
| Tokens.JoinStrings | weather_gradio_app.py:230 | `", ".join` succeeds exactly when every role is a str |
| Tokens.JoinStringsJoins | weather_gradio_app.py:230 | on a list of str the join gives their texts separated by `", "` |
| Tokens.FirstNonStr | weather_gradio_app.py:230 | the position found holds an item that is not a str, and every item before it is a str |
| Tokens.JoinStringsFirstError | weather_gradio_app.py:230 | a failing join raises the `TypeError` "sequence item i: expected str instance, T found" for the first item that is not a str, with its index and type name |
| Tokens.JoinedCons | weather_gradio_app.py:230 | joining a list from the front gives the same text as joining it from the back |
| Tokens.RolesText | weather_gradio_app.py:230 | a non-empty joined text is shown unchanged; an empty one, and no roles at all, show as `(none)`; the roles text exists exactly when every role is a str, and otherwise the join's error escapes |
| Tokens.ClaimsAfterGrant | weather_gradio_app.py:218-229 | the stored claims differ from the payload only when the rule appended to the list the roles came from, and then that key holds the grown list; otherwise they are the payload itself |
| Tokens.AcceptIdToken | weather_gradio_app.py:209-215 | a blank token gives "No token provided"; an unparseable or falsy payload gives "Failed to parse token"; a non-dict payload raises at `.get`; a dict payload is accepted as `AcceptedLogin` |
| Tokens.AcceptClaims | weather_gradio_app.py:216-231 | the in-place role append produces the login `AcceptedLogin` describes |
| Tokens.AcceptedLogin | weather_gradio_app.py:216-231 | a dict payload is never rejected; an accepted login keeps the stripped token, and its subject is the user's `sub` |
| Tokens.AcceptedUser | weather_gradio_app.py:216-231 | a dict payload is accepted exactly when `endswith` applies to `sub` and every role is a str; the user then holds the granted roles, the subject and the stripped token |
| App.ForecastGuard | weather_gradio_app.py:249-253 | a blank location is reported first, then a missing connection; otherwise the query goes on |
| App.AlertsGuard | weather_gradio_app.py:259-265 | a missing role is reported first, then a blank state, then a missing connection; otherwise the call is made |
| App.AlertsTabVisible | weather_gradio_app.py:312-313 | the tab is hidden without a user, and shown to a user exactly when the required role is among their roles |
| App.ClearToken | weather_gradio_app.py:233-234 | logging out gives the message "Logged out.", no user and no token |
| App.TabShownIffAlertsAllowed | weather_gradio_app.py:312-313 | the alerts tab is shown exactly to the users the alerts query lets past its role check |
| App.NoUserNoAlerts | weather_gradio_app.py:233-234 | after logout or a rejected token the tab is hidden and the query denies access |
| App.ServiceAccountSeesAlerts | weather_gradio_app.py:224-227 | an accepted service account always sees the alerts tab and passes the role check |
| App.OtherUserSeesAlertsIffClaimed | weather_gradio_app.py:216-222 | any other accepted user sees the tab exactly when the required role was claimed |
| App.ConnectToMcp | weather_gradio_app.py:236-247 | an escaping exception is reported as a connection error; a successful connect lists the client's tools; plain failure otherwise; an escaping exception or a failed launch leaves the shared client untouched; after a launch the client holds a fresh running process whose streams are those of the handshake, its tools are the rebuilt catalog (kept when the reply could not be decoded), and it is connected when it was already or the handshake succeeded |
| App.QueryWeatherForecast | weather_gradio_app.py:249-257 | the guard notices come first and touch no stream; an exception from the geocoder leaves the handler; a failed geocode is reported; otherwise the answer is the forecast call's reply; the process is never terminated |
| App.QueryWeatherAlerts | weather_gradio_app.py:259-266 | the guard notices come first and touch no stream; otherwise the answer is the alerts call's reply with the stored token; the process is never terminated |

## Left out

- The Gradio interface (weather_gradio_app.py:271-315) and `demo.launch`. The visibility rule at lines 312-313 is modelled as `App.AlertsTabVisible`.
- `subprocess.Popen`, the environment overlay (lines 52-53) and `asyncio.sleep(2)`. They become one launcher outcome parameter. `None` stands for any exception they raise, all of which `connect` catches.
- The event loops of the wrappers and handlers: every call happens in sequence.
- Config-file discovery and reading (lines 34-44, 116-125). The configuration is an input value.
- Geocoding over HTTP (lines 191-199). It is a function parameter that may raise, as the request and `resp["results"][0]` at line 197 can; the coordinates are opaque reals.
- Base64 decoding, `json.loads` and `json.dumps`. Decoding is a function parameter. A received line is either a parsed value or a reason it failed to parse. A dump is represented by the value it would render.
- The text of `str(...)` and of f-strings that format JSON values. Replies and reports hold the values they would format.
- `print` calls, UUID generation (ids are parameters), and `publickey.py` (library calls and file I/O only).
- Dictionary key order, and floating-point values beyond opaque reals.
- The interleaving of several users' handlers on the single shared client. The model runs one handler at a time.
- Client.WeatherMcpClient.SendRequest: requires a process. With none, the source would raise `AttributeError`, but in the source code every call site has already checked for a process.
- Client.WeatherMcpClient.CallTool: requires `Valid()`, that a connected client holds a process. Every method keeps this invariant.
- A `readline` at line 87 that blocks forever waiting for a server that neither answers nor closes its output. The model reads from a fixed script of lines. When the script runs out, it treats that as end of stream, so every read returns.
- The moment a server exits is an explicit step, `Client.ServerProcess.Exit`, between calls. Output the server prints after it starts is already in its script.
