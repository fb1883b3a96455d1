// The listeners behind the `acp:` servers of new sessions: each such server is replaced by one on the local machine.

module McpListeners {
  import opened Outcomes

  datatype McpServer =
    | Http(name: string, url: string, headers: seq<(string, string)>)
    | Stdio(name: string, command: string, args: seq<string>)
    | Sse(name: string, url: string)

  /** What stands in for a server: a process that speaks over its standard streams, or an HTTP server. */
  datatype BridgeMode = ToStdio(command: string, args: seq<string>) | ToHttp

  /** `bind` is the port that each attempt to listen gets, if it gets one. */
  datatype Env = Env(mode: BridgeMode, bind: nat -> Option<string>)

  /** The servers that stand in, by the URL they stand for; how often it was tried to listen; and for which URL and on
      which port a listener was started, in order. */
  datatype Listeners = Listeners(servers: map<string, McpServer>, attempts: nat, started: seq<(string, string)>)

  const NONE_YET: Listeners := Listeners(map[], 0, [])

  predicate IsAcp(server: McpServer) {
    server.Http? && "acp:" <= server.url
  }

  function StandIn(mode: BridgeMode, name: string, port: string): McpServer {
    match mode
    case ToStdio(command, args) => Stdio(name, command, args + ["mcp", port])
    case ToHttp => Http(name, "http://localhost:" + port, [])
  }

  /** The listeners afterwards, and what stands for the server; none if that failed. */
  datatype Replaced = Replaced(listeners: Listeners, server: Option<McpServer>)

  function SpawnBridge(env: Env, l: Listeners, name: string, url: string): Replaced {
    if url in l.servers then Replaced(l, Some(l.servers[url])) else
    match env.bind(l.attempts)
    case None => Replaced(l.(attempts := l.attempts + 1), None)
    case Some(port) =>
      var server := StandIn(env.mode, name, port);
      Replaced(Listeners(l.servers[url := server], l.attempts + 1, l.started + [(url, port)]), Some(server))
  }

  function Transform(env: Env, l: Listeners, server: McpServer): Replaced {
    if !IsAcp(server) then Replaced(l, Some(server))
    else if server.headers != [] then Replaced(l, None)
    else SpawnBridge(env, l, server.name, server.url)
  }

  datatype Session = Session(listeners: Listeners, servers: Option<seq<McpServer>>)

  /** All servers of a session in order, up to the first that fails. */
  function TransformAll(env: Env, l: Listeners, servers: seq<McpServer>): Session {
    if servers == [] then Session(l, Some([])) else
    var k := |servers| - 1;
    match TransformAll(env, l, servers[..k])
    case Session(l', None) => Session(l', None)
    case Session(l', Some(done)) =>
      match Transform(env, l', servers[k])
      case Replaced(l'', None) => Session(l'', None)
      case Replaced(l'', Some(server)) => Session(l'', Some(done + [server]))
  }

  lemma {:induction false} StaysFailed(env: Env, l: Listeners, servers: seq<McpServer>, i: nat)
    requires i <= |servers| && TransformAll(env, l, servers[..i]).servers == None
    ensures TransformAll(env, l, servers) == TransformAll(env, l, servers[..i])
    decreases |servers| - i
  {
    if i == |servers| {
      assert servers[..i] == servers;
    } else {
      assert servers[..i + 1][..i] == servers[..i];
      StaysFailed(env, l, servers, i + 1);
    }
  }

  class McpBridgeListeners {
    const env: Env
    var listeners: map<string, McpServer>
    var attempts: nat
    var started: seq<(string, string)>

    ghost function Value(): Listeners
      reads this
    {
      Listeners(listeners, attempts, started)
    }

    constructor (env: Env)
      ensures this.env == env && Value() == NONE_YET
    {
      this.env := env;
      listeners, attempts, started := map[], 0, [];
    }

    /** The loop over the servers of a new session on its way to the agent. */
    method TransformSession(servers: seq<McpServer>) returns (r: Option<seq<McpServer>>)
      modifies this
      ensures Session(Value(), r) == TransformAll(env, old(Value()), servers)
    {
      var done := [];
      for i := 0 to |servers|
        invariant TransformAll(env, old(Value()), servers[..i]) == Session(Value(), Some(done))
      {
        assert servers[..i + 1][..i] == servers[..i];
        var server := TransformMcpServer(servers[i]);
        if server.None? {
          StaysFailed(env, old(Value()), servers, i + 1);
          return None;
        }
        done := done + [server.value];
      }
      assert servers[..|servers|] == servers;
      r := Some(done);
    }

    method TransformMcpServer(server: McpServer) returns (r: Option<McpServer>)
      modifies this
      ensures Replaced(Value(), r) == Transform(env, old(Value()), server)
    {
      if !server.Http? || !("acp:" <= server.url) {
        return Some(server);
      }
      if |server.headers| > 0 {
        return None;
      }
      if server.url in listeners {
        return Some(listeners[server.url]);
      }
      var port := env.bind(attempts);
      attempts := attempts + 1;
      if port.None? {
        return None;
      }
      var local := match env.mode
        case ToStdio(command, args) => Stdio(server.name, command, args + ["mcp", port.value])
        case ToHttp => Http(server.name, "http://localhost:" + port.value, []);
      listeners := listeners[server.url := local];
      started := started + [(server.url, port.value)];
      r := Some(local);
    }
  }

  // ---- Every session -------------------------------------------------------------------------

  /** The listeners after any number of sessions; a session that fails has ended the conductor. */
  function After(env: Env, sessions: seq<seq<McpServer>>): Listeners {
    if sessions == [] then NONE_YET else TransformAll(env, After(env, sessions[..|sessions| - 1]), sessions[|sessions| - 1]).listeners
  }

  /** There is one stand-in for each listener started, reached at its port, and one listener for each URL. */
  ghost predicate InUse(mode: BridgeMode, l: Listeners) {
    && (forall url :: url in l.servers ==> Listened(l, url))
    && (forall i :: 0 <= i < |l.started| ==> Serves(mode, l, i))
    && (forall i, j :: 0 <= i < j < |l.started| ==> l.started[i].0 != l.started[j].0)
  }

  ghost predicate Listened(l: Listeners, url: string) {
    exists i :: 0 <= i < |l.started| && l.started[i].0 == url
  }

  /** Listener `i` is for an `acp:` URL, and a server at its port stands for that. */
  ghost predicate Serves(mode: BridgeMode, l: Listeners, i: nat)
    requires i < |l.started|
  {
    var (url, port) := l.started[i];
    "acp:" <= url && url in l.servers && StandsAt(mode, port, l.servers[url])
  }

  predicate StandsAt(mode: BridgeMode, port: string, server: McpServer) {
    match mode
    case ToHttp => server.Http? && server.url == "http://localhost:" + port && server.headers == []
    case ToStdio(command, args) => server.Stdio? && server.command == command && server.args == args + ["mcp", port]
  }

  /** Listeners are only added. */
  ghost predicate Grows(l: Listeners, l': Listeners) {
    && l.attempts <= l'.attempts && l.started <= l'.started
    && forall url :: url in l.servers ==> url in l'.servers && l'.servers[url] == l.servers[url]
  }

  lemma SpawnKeepsInUse(env: Env, l: Listeners, name: string, url: string)
    requires InUse(env.mode, l) && "acp:" <= url
    ensures var r := SpawnBridge(env, l, name, url);
      && InUse(env.mode, r.listeners) && Grows(l, r.listeners)
      && (r.server.Some? ==> url in r.listeners.servers && r.listeners.servers[url] == r.server.value)
  {
    if url !in l.servers {
      match env.bind(l.attempts)
      case None => OnlyTried(env.mode, l);
      case Some(port) => NewInUse(env.mode, l, url, port, StandIn(env.mode, name, port));
    }
  }

  lemma OnlyTried(mode: BridgeMode, l: Listeners)
    requires InUse(mode, l)
    ensures InUse(mode, l.(attempts := l.attempts + 1))
  {
    var l' := l.(attempts := l.attempts + 1);
    forall url | url in l'.servers ensures Listened(l', url) {
      assert Listened(l, url);
    }
    forall i | 0 <= i < |l'.started| ensures Serves(mode, l', i) {
      assert Serves(mode, l, i);
    }
  }

  lemma NewInUse(mode: BridgeMode, l: Listeners, url: string, port: string, server: McpServer)
    requires InUse(mode, l) && url !in l.servers && "acp:" <= url && StandsAt(mode, port, server)
    ensures InUse(mode, Listeners(l.servers[url := server], l.attempts + 1, l.started + [(url, port)]))
  {
    var l' := Listeners(l.servers[url := server], l.attempts + 1, l.started + [(url, port)]);
    assert l'.started[|l.started|] == (url, port);
    forall u | u in l'.servers ensures Listened(l', u) {
      if u != url {
        var i :| 0 <= i < |l.started| && l.started[i].0 == u;
        assert l'.started[i].0 == u;
      }
    }
    forall i | 0 <= i < |l'.started| ensures Serves(mode, l', i) {
      if i < |l.started| {
        assert Serves(mode, l, i);
      }
    }
    forall i, j | 0 <= i < j < |l'.started| ensures l'.started[i].0 != l'.started[j].0 {
      assert Serves(mode, l, i);
    }
  }

  /** Each server of a session, in its place: an `acp:` server is replaced by the one that stands for its URL, any other
      is as it was. */
  ghost predicate InPlace(l: Listeners, servers: seq<McpServer>, local: seq<McpServer>) {
    && |local| == |servers|
    && forall i :: 0 <= i < |servers| ==>
         if IsAcp(servers[i]) then servers[i].url in l.servers && local[i] == l.servers[servers[i].url] else local[i] == servers[i]
  }

  lemma {:induction false} SessionInPlace(env: Env, l: Listeners, servers: seq<McpServer>)
    requires InUse(env.mode, l)
    ensures var r := TransformAll(env, l, servers);
      InUse(env.mode, r.listeners) && Grows(l, r.listeners) && (r.servers.Some? ==> InPlace(r.listeners, servers, r.servers.value))
  {
    if servers != [] {
      var k := |servers| - 1;
      SessionInPlace(env, l, servers[..k]);
      var before := TransformAll(env, l, servers[..k]);
      if before.servers.Some? && IsAcp(servers[k]) {
        SpawnKeepsInUse(env, before.listeners, servers[k].name, servers[k].url);
      }
      if before.servers.Some? {
        OneMoreInPlace(before.listeners, TransformAll(env, l, servers).listeners, servers, before.servers.value,
                       Transform(env, before.listeners, servers[k]).server);
      }
    }
  }

  lemma OneMoreInPlace(l: Listeners, l': Listeners, servers: seq<McpServer>, done: seq<McpServer>, server: Option<McpServer>)
    requires servers != [] && InPlace(l, servers[..|servers| - 1], done) && Grows(l, l')
    requires var last := servers[|servers| - 1]; server.Some? ==>
      if IsAcp(last) then last.url in l'.servers && server.value == l'.servers[last.url] else server.value == last
    ensures server.Some? ==> InPlace(l', servers, done + [server.value])
  {
    if server.Some? {
      forall i | 0 <= i < |servers|
        ensures if IsAcp(servers[i]) then servers[i].url in l'.servers && (done + [server.value])[i] == l'.servers[servers[i].url]
                else (done + [server.value])[i] == servers[i]
      {
        assert i < |done| ==> servers[..|servers| - 1][i] == servers[i];
      }
    }
  }

  /** In every run of sessions the servers of a session are replaced in place, by listeners that stand for one URL each
      and were never changed since they were started: whoever asks for the same URL gets the same one. */
  lemma {:induction false} SessionsAreRedirected(env: Env, sessions: seq<seq<McpServer>>, i: nat)
    requires i < |sessions|
    ensures var l := After(env, sessions);
      && InUse(env.mode, l)
      && match TransformAll(env, After(env, sessions[..i]), sessions[i]).servers
         case None => true
         case Some(local) => InPlace(l, sessions[i], local)
  {
    var k := |sessions| - 1;
    RunInUse(env, sessions[..k]);
    SessionInPlace(env, After(env, sessions[..k]), sessions[k]);
    if i < k {
      assert sessions[..k][..i] == sessions[..i];
      SessionsAreRedirected(env, sessions[..k], i);
    }
  }

  lemma {:induction false} RunInUse(env: Env, sessions: seq<seq<McpServer>>)
    ensures InUse(env.mode, After(env, sessions))
  {
    if sessions != [] {
      var k := |sessions| - 1;
      RunInUse(env, sessions[..k]);
      SessionInPlace(env, After(env, sessions[..k]), sessions[k]);
    }
  }

  /** The agent never sees an `acp:` server. */
  lemma {:induction false} AgentSeesNone(env: Env, sessions: seq<seq<McpServer>>, servers: seq<McpServer>)
    ensures match TransformAll(env, After(env, sessions), servers).servers
      case None => true
      case Some(local) => forall server :: server in local ==> !IsAcp(server)
  {
    RunInUse(env, sessions);
    SessionInPlace(env, After(env, sessions), servers);
    var r := TransformAll(env, After(env, sessions), servers);
    if r.servers.Some? {
      forall server | server in r.servers.value ensures !IsAcp(server) {
        var i :| 0 <= i < |servers| && r.servers.value[i] == server;
        if IsAcp(servers[i]) {
          StandInIsLocal(env.mode, r.listeners, servers[i].url);
        }
      }
    }
  }

  lemma StandInIsLocal(mode: BridgeMode, l: Listeners, url: string)
    requires InUse(mode, l) && url in l.servers
    ensures !IsAcp(l.servers[url])
  {
    assert Listened(l, url);
    var i :| 0 <= i < |l.started| && l.started[i].0 == url;
    assert Serves(mode, l, i);
    var server := l.servers[url];
    assert server.Http? ==> server.url[0] == 'h' && "acp:"[0] != 'h';
  }

  /** An `acp:` server with headers, for which nothing can stand in. */
  ghost predicate HasHeaders(servers: seq<McpServer>) {
    exists server :: server in servers && IsAcp(server) && server.headers != []
  }

  /** As long as ports can be had, a session fails if and only if one of its `acp:` servers has headers. */
  lemma {:induction false} FailsIff(env: Env, l: Listeners, servers: seq<McpServer>)
    requires forall n :: env.bind(n).Some?
    ensures TransformAll(env, l, servers).servers.None? <==> HasHeaders(servers)
  {
    if servers != [] {
      FailsIff(env, l, servers[..|servers| - 1]);
      HeadersLast(servers);
    }
  }

  lemma HeadersLast(servers: seq<McpServer>)
    requires servers != []
    ensures var last := servers[|servers| - 1];
      HasHeaders(servers) <==> HasHeaders(servers[..|servers| - 1]) || (IsAcp(last) && last.headers != [])
  {
    var init, last := servers[..|servers| - 1], servers[|servers| - 1];
    forall server ensures server in servers <==> server in init || server == last {
      assert servers == init + [last];
    }
  }
}
