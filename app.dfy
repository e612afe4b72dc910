/** The handlers behind the interface: connecting, logging out, and the two
    weather queries with their guard chains and role check. The shared
    client, the required role and the geocoder are parameters. */
module App {
  import opened JsonValues
  import opened Rpc
  import opened Catalog
  import opened Session
  import opened Payload
  import opened Tokens
  import opened Client

  const EnterLocation := "Please enter a location"
  const EnterState := "Please enter a US state"
  const NotConnectedNotice := "Not connected to MCP server. Please connect first."
  const GeocodeFailed := "Failed to geocode location"
  const AccessDenied := "Access denied: you don't have permission to view weather alerts."
  const LoggedOut := "Logged out."

  /** What a query handler returns: one of its own notices, the text the
      tool wrapper produced, or an exception that left the handler. */
  datatype Answer = Notice(text: string) | ToolReply(reply: Reply) | Escaped(error: PyError)

  /** The checks `query_weather_forecast` makes before geocoding, in order. */
  function ForecastGuard(location: string, connected: bool): (r: Option<string>)
    ensures Strip(location) == "" ==> r == Some(EnterLocation)
    ensures Strip(location) != "" && !connected ==> r == Some(NotConnectedNotice)
    ensures r.None? <==> Strip(location) != "" && connected
  {
    if Strip(location) == "" then Some(EnterLocation)
    else if !connected then Some(NotConnectedNotice)
    else None
  }

  /** The checks `query_weather_alerts` makes before calling the tool, in
      order: the role, then the state, then the connection. */
  function AlertsGuard(state: string, user: Option<UserCtx>, connected: bool, required: string): (r: Option<string>)
    ensures user.None? || JString(required) !in user.value.roles ==> r == Some(AccessDenied)
    ensures user.Some? && JString(required) in user.value.roles && Strip(state) == "" ==> r == Some(EnterState)
    ensures user.Some? && JString(required) in user.value.roles && Strip(state) != "" && !connected ==> r == Some(NotConnectedNotice)
    ensures r.None? <==> user.Some? && JString(required) in user.value.roles && Strip(state) != "" && connected
  {
    if user.None? || JString(required) !in user.value.roles then Some(AccessDenied)
    else if Strip(state) == "" then Some(EnterState)
    else if !connected then Some(NotConnectedNotice)
    else None
  }

  /** `_alerts_tab_vis`: whether the alerts tab is shown for a user. */
  predicate AlertsTabVisible(user: Option<UserCtx>, required: string)
    ensures user.None? ==> !AlertsTabVisible(user, required)
    ensures user.Some? ==> (AlertsTabVisible(user, required) <==> JString(required) in user.value.roles)
  {
    user.Some? && JString(required) in user.value.roles
  }

  /** The tab is shown exactly to the users the alerts query lets past its
      role check, whatever the state typed and the connection. */
  lemma {:induction false} TabShownIffAlertsAllowed(user: Option<UserCtx>, required: string, state: string, connected: bool)
    ensures AlertsTabVisible(user, required) <==> AlertsGuard(state, user, connected, required) != Some(AccessDenied)
  {
    assert |EnterState| != |AccessDenied| && |NotConnectedNotice| != |AccessDenied|;
  }

  /** The user context `accept_id_token` hands to the interface. When it
      raises instead, the interface keeps its previous outputs, so no new
      user context exists for that case. */
  function UserOf(login: Login): Option<UserCtx>
    requires !login.Raised?
  {
    if login.Accepted? then Some(login.user) else None
  }

  /** `clear_token`: the message, no user and no token. */
  function ClearToken(): (r: (string, Option<UserCtx>, Option<string>))
    ensures r.0 == LoggedOut && r.1.None? && r.2.None?
  {
    (LoggedOut, None, None)
  }

  /** Logging out, or a rejected token, hides the alerts tab and makes the
      alerts query deny access. */
  lemma NoUserNoAlerts(required: string, state: string, connected: bool, message: string)
    ensures !AlertsTabVisible(ClearToken().1, required)
    ensures AlertsGuard(state, ClearToken().1, connected, required) == Some(AccessDenied)
    ensures !AlertsTabVisible(UserOf(Rejected(message)), required)
  {
  }

  /** An accepted service account always sees the alerts tab, and its
      query passes the role check. */
  lemma {:induction false} ServiceAccountSeesAlerts(claims: map<string, Json>, required: string, token: string, state: string, connected: bool)
    requires IsServiceAccount(claims) == Ok(true)
    requires AcceptedLogin(claims, required, token).Accepted?
    ensures AlertsTabVisible(UserOf(AcceptedLogin(claims, required, token)), required)
    ensures AlertsGuard(state, UserOf(AcceptedLogin(claims, required, token)), connected, required) != Some(AccessDenied)
  {
    AcceptedUser(claims, required, token);
    TabShownIffAlertsAllowed(UserOf(AcceptedLogin(claims, required, token)), required, state, connected);
  }

  /** Any other accepted user sees the tab exactly when the required role is
      among the claimed roles. */
  lemma {:induction false} OtherUserSeesAlertsIffClaimed(claims: map<string, Json>, required: string, token: string)
    requires IsServiceAccount(claims) == Ok(false)
    requires AcceptedLogin(claims, required, token).Accepted?
    ensures AlertsTabVisible(UserOf(AcceptedLogin(claims, required, token)), required) <==>
      JString(required) in RolesOf(ClaimedRoles(claims))
  {
    AcceptedUser(claims, required, token);
  }

  /** What `connect_to_mcp` reports: the discovered tools, a plain failure, or
      the text of an exception that escaped `connect`. */
  datatype ConnectReport = ConnectedWith(tools: seq<McpTool>) | ConnectFailed | ConnectionError(error: PyError)

  method ConnectToMcp(client: WeatherMcpClient, config: Json, spawn: Option<ServerBehaviour>, initId: string, listId: string)
    returns (report: ConnectReport)
    requires client.Valid()
    modifies client
    ensures client.Valid()
    ensures LaunchCommand(config).Err? ==> report == ConnectionError(LaunchCommand(config).error)
    ensures LaunchCommand(config).Ok? ==> (report.ConnectFailed? || report == ConnectedWith(client.tools))
    ensures LaunchCommand(config).Ok? && LaunchCommand(config).value.Some? && spawn.Some? ==>
      (report.ConnectedWith? <==> Handshake(Pipe(spawn.value.inputClosed, spawn.value.replies, []), initId, listId).raised.None?)
    ensures (LaunchCommand(config).Ok? && LaunchCommand(config).value.None?) || spawn.None? ==> !report.ConnectedWith?
    ensures LaunchCommand(config).Err? || LaunchCommand(config) == Ok(None) || spawn.None? ==> unchanged(client)
    ensures LaunchCommand(config).Ok? && LaunchCommand(config).value.Some? && spawn.Some? ==>
      var h := Handshake(Pipe(spawn.value.inputClosed, spawn.value.replies, []), initId, listId);
      && client.serverProcess != null && fresh(client.serverProcess)
      && client.serverProcess.command == LaunchCommand(config).value.value
      && !client.serverProcess.terminated
      && client.serverProcess.Streams() == h.pipe
      && client.tools == (if h.catalog.Some? then h.catalog.value else old(client.tools))
      && client.connected == (old(client.connected) || h.raised.None?)
  {
    var success := client.Connect(config, spawn, initId, listId);
    match success {
      case Err(e) => report := ConnectionError(e);
      case Ok(b) => report := if b then ConnectedWith(client.tools) else ConnectFailed;
    }
  }

  /** `query_weather_forecast`: the guards, then the geocoder, then the tool.
      The geocoder may raise (a failed HTTP request, a reply whose `results`
      is empty), and nothing in the handler catches that. */
  method QueryWeatherForecast(client: WeatherMcpClient, location: string, geocode: string -> Result<Option<(real, real)>>, id: string)
    returns (answer: Answer)
    requires client.Valid()
    modifies client.serverProcess
    ensures ForecastGuard(location, client.connected).Some? ==>
      answer == Notice(ForecastGuard(location, client.connected).value)
    ensures ForecastGuard(location, client.connected).None? && geocode(location).Err? ==>
      answer == Escaped(geocode(location).error)
    ensures ForecastGuard(location, client.connected).None? && geocode(location) == Ok(None) ==>
      answer == Notice(GeocodeFailed)
    ensures client.serverProcess != null ==> client.serverProcess.terminated == old(client.serverProcess.terminated)
    ensures client.serverProcess != null && (ForecastGuard(location, client.connected).Some? || !(geocode(location).Ok? && geocode(location).value.Some?)) ==>
      client.serverProcess.Streams() == old(client.serverProcess.Streams())
    ensures ForecastGuard(location, client.connected).None? && geocode(location).Ok? && geocode(location).value.Some? ==>
      var coords := geocode(location).value.value;
      var c := Call(old(client.serverProcess.Streams()), id, ForecastTool, CoordinateArguments(coords.0, coords.1));
      && answer == ToolReply(InterpretPayload(c.result, ForecastTool, ForecastHeading))
      && client.serverProcess.Streams() == c.pipe
  {
    if Strip(location) == "" {
      return Notice(EnterLocation);
    }
    if !client.connected {
      return Notice(NotConnectedNotice);
    }
    var found := geocode(location);
    if found.Err? {
      return Escaped(found.error);
    }
    if found.value.None? {
      return Notice(GeocodeFailed);
    }
    var coords := found.value.value;
    var reply := client.GetForecast(location, coords.0, coords.1, id);
    return ToolReply(reply);
  }

  /** `query_weather_alerts`: the role check, the guards, then the tool with
      the stored token. */
  method QueryWeatherAlerts(client: WeatherMcpClient, state: string, user: Option<UserCtx>, idToken: Option<string>, required: string, id: string)
    returns (answer: Answer)
    requires client.Valid()
    modifies client.serverProcess
    ensures AlertsGuard(state, user, client.connected, required).Some? ==>
      answer == Notice(AlertsGuard(state, user, client.connected, required).value)
    ensures client.serverProcess != null ==> client.serverProcess.terminated == old(client.serverProcess.terminated)
    ensures client.serverProcess != null && AlertsGuard(state, user, client.connected, required).Some? ==>
      client.serverProcess.Streams() == old(client.serverProcess.Streams())
    ensures AlertsGuard(state, user, client.connected, required).None? ==>
      var c := Call(old(client.serverProcess.Streams()), id, AlertsTool, AlertsArguments(state, idToken));
      && answer == ToolReply(InterpretPayload(c.result, AlertsTool, AlertsHeading(state)))
      && client.serverProcess.Streams() == c.pipe
  {
    if user.None? || JString(required) !in user.value.roles {
      return Notice(AccessDenied);
    }
    if Strip(state) == "" {
      return Notice(EnterState);
    }
    if !client.connected {
      return Notice(NotConnectedNotice);
    }
    var reply := client.GetAlerts(state, idToken, id);
    return ToolReply(reply);
  }
}
