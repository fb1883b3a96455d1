// The conductor's central loop: one message at a time, from every component, in order of arrival.

module CentralLoop {
  import opened Outcomes
  import opened Messages
  import opened Envelope
  import opened Routing
  import opened ProxyTree

  /** An agent-mode conductor ends its chain with an agent; a proxy-mode one with its own successor. */
  datatype Mode = AgentMode | ProxyMode

  /** A proxy to be spawned; `PassThrough` is the dummy that stands in when tracing an empty chain. */
  datatype Component = Given(id: nat) | PassThrough

  /** What an instantiator makes of the handshake's parameters: those to pass on, and the proxies. */
  datatype Instance = Instance(params: Json, components: seq<Component>)

  type Instantiator = Json -> Option<Instance>

  datatype ConductorMessage =
    | LeftToRight(target: nat, message: Dispatch)
    | RightToLeft(source: Source, message: Dispatch)
    | McpConnectionReceived(url: string, bridge: nat)
    | McpConnectionEstablished(connection: string, bridge: nat)
    | McpClientToMcpServer(connection: string, message: Dispatch)
    | McpConnectionDisconnected(connection: string, params: Json)

  /** Who gets the response to what is sent. */
  datatype Awaits = Nobody | Caller(responder: nat) | Bridge(bridge: nat)

  datatype Effect =
    | ToClient(m: Msg, awaits: Awaits)
    | ToProxy(index: nat, m: Msg, awaits: Awaits)
    | ToAgent(m: Msg, awaits: Awaits)
    | ToSuccessor(m: Msg, awaits: Awaits)
    | ToBridge(bridge: nat, m: Msg, awaits: Awaits)
    | Answer(responder: nat, error: Error)
    | Complain(error: Error)
    | Deliver(result: Result<Json, Error>, route: ResponseRoute)
    | SpawnAgent
    | Spawn(component: Component, index: nat)
    | RunBridge(connection: string, bridge: nat)

  /** After a message the loop goes on, ends with an error, or aborts on an assertion or an index. */
  datatype Fate = Continues | Stops | Panics

  datatype Setup = Setup(mode: Mode, schema: Schema, traced: bool)

  datatype State = State(instantiator: Option<Instantiator>, proxies: seq<Component>, bridges: map<string, nat>)

  datatype Turn = Turn(state: State, effects: seq<Effect>, fate: Fate)

  // ---- What one message does -----------------------------------------------------------------

  function AsMsg(d: Dispatch): Msg
    requires !d.Response?
  {
    Msg(d.Request?, d.body)
  }

  function AwaitsOf(d: Dispatch): Awaits {
    if d.Request? then Caller(d.responder) else Nobody
  }

  /** Sends to the component before place `index`: the client plainly, a proxy in an envelope. */
  function Predecessor(s: State, index: nat, m: Msg, awaits: Awaits): Turn {
    if index == 0 then Turn(s, [ToClient(m, awaits)], Continues)
    else if index <= |s.proxies| then Turn(s, [ToProxy(index - 1, Wrap(m), awaits)], Continues)
    else Turn(s, [], Panics)
  }

  function ToPredecessor(s: State, source: Source, d: Dispatch): Turn {
    if d.Response? then Turn(s, [Deliver(d.result, d.route)], Continues)
    else Predecessor(s, SourceIndex(|s.proxies|, source), AsMsg(d), AwaitsOf(d))
  }

  function ToProxyAt(schema: Schema, s: State, index: nat, d: Dispatch): Turn {
    match d
    case Response(result, route) => Turn(s, [Deliver(result, route)], Continues)
    case _ =>
      match ProxyForm(schema, AsMsg(d))
      case Forward(m) => Turn(s, [ToProxy(index, m, AwaitsOf(d))], Continues)
      case Refuse => Turn(s, if d.Request? then [Answer(d.responder, InvalidRequest)] else [], Continues)
      case _ => Turn(s, [], Stops)
  }

  function ToEnd(setup: Setup, s: State, d: Dispatch): Turn {
    match d
    case Response(result, route) => Turn(s, [Deliver(result, route)], Continues)
    case _ =>
      if setup.mode == ProxyMode then Turn(s, [ToSuccessor(AsMsg(d), AwaitsOf(d))], Continues) else
      match AgentForm(setup.schema, AsMsg(d))
      case Forward(m) => Turn(s, [ToAgent(m, AwaitsOf(d))], Continues)
      case Refuse => Turn(s, if d.Request? then [Answer(d.responder, InvalidRequest)] else [], Continues)
      case ToMcp(connection, m) =>
        if connection in s.bridges then Turn(s, [ToBridge(s.bridges[connection], m, AwaitsOf(d))], Continues)
        else Turn(s, [], Stops)
      case Broken => Turn(s, [], Stops)
  }

  /** Sends an initialised conductor's left-to-right message on its way. */
  function Rightwards(setup: Setup, s: State, target: nat, d: Dispatch): Turn {
    if target < |s.proxies| then ToProxyAt(setup.schema, s, target, d)
    else if target == |s.proxies| then ToEnd(setup, s, d)
    else Turn(s, [], Panics)
  }

  function Spawns(components: seq<Component>): (r: seq<Effect>)
    ensures |r| == |components|
  {
    seq(|components|, i requires 0 <= i < |components| => Spawn(components[i], i))
  }

  /** The proxies that are spawned: those asked for, or one dummy so that there is something to trace. */
  function Components(traced: bool, wanted: seq<Component>): seq<Component> {
    if traced && wanted == [] then [PassThrough] else wanted
  }

  function HandshakeName(mode: Mode): string {
    if mode == AgentMode then METHOD_INITIALIZE else METHOD_INITIALIZE_PROXY
  }

  datatype Ready = Ready(turn: Turn, message: Option<Dispatch>)

  /** The first left-to-right message must be the handshake; it spawns the components. */
  function EnsureInitialized(setup: Setup, s: State, d: Dispatch): Ready {
    match s.instantiator
    case None => Ready(Turn(s, [], Continues), Some(d))
    case Some(instantiate) =>
      var taken := s.(instantiator := None);
      match d
      case Notification(_) => Ready(Turn(taken, [Complain(InvalidRequest)], Stops), None)
      case Response(_, route) => Ready(Turn(taken, [Deliver(Err(InvalidRequest), route)], Stops), None)
      case Request(body, responder) =>
        if body.name != HandshakeName(setup.mode) then Ready(Turn(taken, [Answer(responder, InvalidRequest)], Stops), None) else
        match setup.schema.initialize(body.params)
        case None => Ready(Turn(taken, [Answer(responder, ParseError)], Stops), None)
        case Some(typed) =>
          match instantiate(typed)
          case None => Ready(Turn(taken, [], Stops), None)
          case Some(instance) =>
            var components := Components(setup.traced, instance.components);
            var effects := (if setup.mode == AgentMode then [SpawnAgent] else []) + Spawns(components);
            Ready(Turn(taken.(proxies := components), effects, Continues),
                  Some(Request(Untyped(METHOD_INITIALIZE, instance.params), responder)))
  }

  function Handle(setup: Setup, s: State, message: ConductorMessage): Turn {
    match message
    case LeftToRight(target, d) =>
      var ready := EnsureInitialized(setup, s, d);
      if ready.message.None? then ready.turn else
      var turn := Rightwards(setup, ready.turn.state, target, ready.message.value);
      Turn(turn.state, ready.turn.effects + turn.effects, turn.fate)
    case RightToLeft(source, d) => ToPredecessor(s, source, d)
    case McpConnectionReceived(url, bridge) =>
      var params := JObject(map["acp_url" := JString(url)]);
      Predecessor(s, |s.proxies|, Msg(true, Untyped(METHOD_MCP_CONNECT, params)), Bridge(bridge))
    case McpConnectionEstablished(connection, bridge) =>
      Turn(s.(bridges := s.bridges[connection := bridge]), [RunBridge(connection, bridge)], Continues)
    case McpClientToMcpServer(connection, d) =>
      ToPredecessor(s, FromSuccessor, OverAcp(connection, d))
    case McpConnectionDisconnected(connection, params) =>
      Predecessor(s.(bridges := s.bridges - {connection}), |s.proxies|,
                  Msg(false, Untyped(METHOD_MCP_DISCONNECT, params)), Nobody)
  }

  function OverAcp(connection: string, d: Dispatch): Dispatch {
    match d
    case Request(body, responder) => Request(EncodeMcp(connection, body, None), responder)
    case Notification(body) => Notification(EncodeMcp(connection, body, None))
    case Response(_, _) => d
  }

  /** The whole loop: it ends with the inbox or with the first message it cannot handle. */
  function HandleAll(setup: Setup, s: State, inbox: seq<ConductorMessage>): Turn
    decreases |inbox|
  {
    if inbox == [] then Turn(s, [], Continues) else
    var turn := Handle(setup, s, inbox[0]);
    if turn.fate != Continues then turn else
    var rest := HandleAll(setup, turn.state, inbox[1..]);
    Turn(rest.state, turn.effects + rest.effects, rest.fate)
  }

  /** A turn, with what had been sent before it. */
  function Since(before: seq<Effect>, turn: Turn): Turn {
    turn.(effects := before + turn.effects)
  }

  lemma HandleFirst(setup: Setup, before: seq<Effect>, s: State, inbox: seq<ConductorMessage>)
    requires inbox != []
    ensures var turn := Handle(setup, s, inbox[0]);
      Since(before, HandleAll(setup, s, inbox))
      == if turn.fate == Continues then Since(before + turn.effects, HandleAll(setup, turn.state, inbox[1..]))
         else Since(before, turn)
  {
    var turn := Handle(setup, s, inbox[0]);
    if turn.fate == Continues {
      var rest := HandleAll(setup, turn.state, inbox[1..]).effects;
      assert before + (turn.effects + rest) == before + turn.effects + rest;
    }
  }

  // ---- The loop itself -----------------------------------------------------------------------

  class ConductorResponder {
    const setup: Setup
    var instantiator: Option<Instantiator>
    var proxies: seq<Component>
    var bridgeConnections: map<string, nat>
    /** Everything pushed to a channel so far: to components, to waiters, to the task spawner. */
    var sent: seq<Effect>

    ghost predicate Valid()
      reads this
    {
      instantiator.Some? ==> proxies == []
    }

    ghost function Value(): State
      reads this
    {
      State(instantiator, proxies, bridgeConnections)
    }

    /** The state and the effects are those of `turn`, starting from `s` and `before`. */
    ghost predicate Did(s: seq<Effect>, turn: Turn, fate: Fate)
      reads this
    {
      Value() == turn.state && sent == s + turn.effects && fate == turn.fate
    }

    constructor (setup: Setup, instantiator: Instantiator)
      ensures Valid() && Value() == State(Some(instantiator), [], map[])
      ensures this.setup == setup && sent == []
    {
      this.setup := setup;
      this.instantiator := Some(instantiator);
      proxies, bridgeConnections, sent := [], map[], [];
    }

    method Push(effect: Effect)
      modifies this`sent
      ensures sent == old(sent) + [effect]
    {
      sent := sent + [effect];
    }

    method Run(inbox: seq<ConductorMessage>) returns (fate: Fate)
      requires Valid()
      modifies this
      ensures Did(old(sent), HandleAll(setup, old(Value()), inbox), fate)
    {
      fate := Continues;
      var i := 0;
      assert inbox[0..] == inbox;
      while i < |inbox| && fate == Continues
        invariant i <= |inbox| && Valid()
        invariant Since(old(sent), HandleAll(setup, old(Value()), inbox))
               == if fate == Continues then Since(sent, HandleAll(setup, Value(), inbox[i..])) else Turn(Value(), sent, fate)
      {
        HandleFirst(setup, sent, Value(), inbox[i..]);
        assert inbox[i..][1..] == inbox[i + 1..];
        fate := HandleConductorMessage(inbox[i]);
        i := i + 1;
      }
      assert sent + [] == sent;
    }

    method HandleConductorMessage(message: ConductorMessage) returns (fate: Fate)
      requires Valid()
      modifies this
      ensures Valid() && Did(old(sent), Handle(setup, old(Value()), message), fate)
    {
      match message
      case LeftToRight(target, d) =>
        fate := ForwardClientToAgentMessage(target, d);
      case RightToLeft(source, d) =>
        fate := SendMessageToPredecessorOf(source, d);
      case McpConnectionReceived(url, bridge) =>
        var params := JObject(map["acp_url" := JString(url)]);
        fate := SendRequestToPredecessorOf(|proxies|, Untyped(METHOD_MCP_CONNECT, params), Bridge(bridge));
      case McpConnectionEstablished(connection, bridge) =>
        bridgeConnections := bridgeConnections[connection := bridge];
        Push(RunBridge(connection, bridge));
        fate := Continues;
      case McpClientToMcpServer(connection, d) =>
        fate := SendMessageToPredecessorOf(FromSuccessor, OverAcp(connection, d));
      case McpConnectionDisconnected(connection, params) =>
        bridgeConnections := bridgeConnections - {connection};
        fate := SendNotificationToPredecessorOf(|proxies|, Untyped(METHOD_MCP_DISCONNECT, params));
    }

    method SendMessageToPredecessorOf(source: Source, d: Dispatch) returns (fate: Fate)
      modifies this`sent
      ensures Did(old(sent), ToPredecessor(old(Value()), source, d), fate)
    {
      var index := match source case FromSuccessor => |proxies| case FromProxy(i) => i;
      match d
      case Request(body, responder) => fate := SendRequestToPredecessorOf(index, body, Caller(responder));
      case Notification(body) => fate := SendNotificationToPredecessorOf(index, body);
      case Response(result, route) =>
        Push(Deliver(result, route));
        fate := Continues;
    }

    method SendRequestToPredecessorOf(index: nat, body: Untyped, awaits: Awaits) returns (fate: Fate)
      modifies this`sent
      ensures Did(old(sent), Predecessor(old(Value()), index, Msg(true, body), awaits), fate)
    {
      fate := Continues;
      if index == 0 {
        Push(ToClient(Msg(true, body), awaits));
      } else if index <= |proxies| {
        Push(ToProxy(index - 1, Msg(true, EncodeSuccessor(body, None)), awaits));
      } else {
        fate := Panics;
      }
    }

    method SendNotificationToPredecessorOf(index: nat, body: Untyped) returns (fate: Fate)
      modifies this`sent
      ensures Did(old(sent), Predecessor(old(Value()), index, Msg(false, body), Nobody), fate)
    {
      fate := Continues;
      if index == 0 {
        Push(ToClient(Msg(false, body), Nobody));
      } else if index <= |proxies| {
        Push(ToProxy(index - 1, Msg(false, EncodeSuccessor(body, None)), Nobody));
      } else {
        fate := Panics;
      }
    }

    method ForwardClientToAgentMessage(target: nat, d: Dispatch) returns (fate: Fate)
      requires Valid()
      modifies this
      ensures Valid() && Did(old(sent), Handle(setup, old(Value()), ConductorMessage.LeftToRight(target, d)), fate)
    {
      var message := None;
      fate, message := Initialize(d);
      if message.Some? {
        if target < |proxies| {
          fate := ForwardMessageFromClientToProxy(target, message.value);
        } else if target == |proxies| {
          fate := SendToSuccessor(message.value);
        } else {
          fate := Panics;
        }
      }
    }

    /** `ensure_initialized` with the two hosts' `initialize`. */
    method Initialize(d: Dispatch) returns (fate: Fate, message: Option<Dispatch>)
      requires Valid()
      modifies this
      ensures Valid()
      ensures Did(old(sent), EnsureInitialized(setup, old(Value()), d).turn, fate)
      ensures message == EnsureInitialized(setup, old(Value()), d).message
    {
      if instantiator.None? {
        return Continues, Some(d);
      }
      var instantiate := instantiator.value;
      instantiator := None;
      fate, message := Stops, None;
      match d
      case Notification(_) => Push(Complain(InvalidRequest));
      case Response(_, route) => Push(Deliver(Err(InvalidRequest), route));
      case Request(body, responder) =>
        if body.name != HandshakeName(setup.mode) {
          Push(Answer(responder, InvalidRequest));
          return;
        }
        var typed := setup.schema.initialize(body.params);
        if typed.None? {
          Push(Answer(responder, ParseError));
          return;
        }
        var instance := instantiate(typed.value);
        if instance.None? {
          return;
        }
        if setup.mode == AgentMode {
          Push(SpawnAgent);
        }
        SpawnProxies(instance.value.components);
        fate, message := Continues, Some(Request(Untyped(METHOD_INITIALIZE, instance.value.params), responder));
    }

    /** The assertion that no proxies have been spawned yet is the precondition: every caller meets it. */
    method SpawnProxies(components: seq<Component>)
      requires proxies == []
      modifies this`proxies, this`sent
      ensures proxies == Components(setup.traced, components)
      ensures sent == old(sent) + Spawns(Components(setup.traced, components))
    {
      if setup.traced && |components| == 0 {
        ConnectToProxy(0, PassThrough);
        assert Spawns([PassThrough]) == [Spawn(PassThrough, 0)];
        assert [] + [PassThrough] == [PassThrough];
      } else {
        assert Spawns([]) == [] && sent + [] == sent;
        for i := 0 to |components|
          invariant proxies == components[..i]
          invariant sent == old(sent) + Spawns(components[..i])
        {
          ConnectToProxy(i, components[i]);
          assert components[..i + 1] == components[..i] + [components[i]];
          assert Spawns(components[..i + 1]) == Spawns(components[..i]) + [Spawn(components[i], i)];
        }
        assert components[..|components|] == components;
      }
    }

    method ConnectToProxy(index: nat, component: Component)
      modifies this`proxies, this`sent
      ensures proxies == old(proxies) + [component]
      ensures sent == old(sent) + [Spawn(component, index)]
    {
      Push(Spawn(component, index));
      proxies := proxies + [component];
    }

    method ForwardMessageFromClientToProxy(index: nat, d: Dispatch) returns (fate: Fate)
      requires index < |proxies|
      modifies this`sent
      ensures Did(old(sent), ToProxyAt(setup.schema, old(Value()), index, d), fate)
    {
      fate := Continues;
      match d
      case Response(result, route) => Push(Deliver(result, route));
      case Notification(body) => Push(ToProxy(index, Msg(false, body), Nobody));
      case Request(body, responder) =>
        if body.name == METHOD_INITIALIZE_PROXY {
          if setup.schema.initialize(body.params).None? {
            return Stops;
          }
          Push(Answer(responder, InvalidRequest));
        } else if body.name == METHOD_INITIALIZE {
          var request := setup.schema.initialize(body.params);
          if request.None? {
            return Stops;
          }
          Push(ToProxy(index, Msg(true, Untyped(METHOD_INITIALIZE_PROXY, request.value)), Caller(responder)));
        } else {
          Push(ToProxy(index, Msg(true, body), Caller(responder)));
        }
    }

    method SendToSuccessor(d: Dispatch) returns (fate: Fate)
      modifies this`sent
      ensures Did(old(sent), ToEnd(setup, old(Value()), d), fate)
    {
      if setup.mode == AgentMode {
        fate := ForwardMessageToAgent(d);
      } else {
        fate := Continues;
        match d
        case Response(result, route) => Push(Deliver(result, route));
        case Notification(body) => Push(ToSuccessor(Msg(false, body), Nobody));
        case Request(body, responder) => Push(ToSuccessor(Msg(true, body), Caller(responder)));
      }
    }

    method ForwardMessageToAgent(d: Dispatch) returns (fate: Fate)
      requires setup.mode == AgentMode
      modifies this`sent
      ensures Did(old(sent), ToEnd(setup, old(Value()), d), fate)
    {
      fate := Continues;
      match d
      case Response(result, route) => Push(Deliver(result, route));
      case Notification(body) =>
        if body.name == METHOD_MCP {
          fate := SendToBridge(false, body, Nobody);
        } else {
          Push(ToAgent(Msg(false, body), Nobody));
        }
      case Request(body, responder) =>
        if body.name == METHOD_INITIALIZE_PROXY {
          if setup.schema.initialize(body.params).None? {
            return Stops;
          }
          Push(Answer(responder, InvalidRequest));
        } else if body.name == METHOD_NEW_SESSION {
          var request := setup.schema.NewSessionForAgent(body.params);
          if request.None? {
            return Stops;
          }
          Push(ToAgent(Msg(true, Untyped(METHOD_NEW_SESSION, request.value)), Caller(responder)));
        } else if body.name == METHOD_MCP {
          fate := SendToBridge(true, body, Caller(responder));
        } else {
          Push(ToAgent(Msg(true, body), Caller(responder)));
        }
    }

    /** Opens an MCP envelope and hands its content to the connection it names. */
    method SendToBridge(isRequest: bool, body: Untyped, awaits: Awaits) returns (fate: Fate)
      modifies this`sent
      ensures var connection, layer := OpenConnection(body.params), OpenBody(body.params);
        Did(old(sent),
            if connection.Some? && layer.Some? && connection.value in bridgeConnections
            then Turn(old(Value()), [ToBridge(bridgeConnections[connection.value], Msg(isRequest, layer.value.message), awaits)], Continues)
            else Turn(old(Value()), [], Stops),
            fate)
    {
      var connection, layer := OpenConnection(body.params), OpenBody(body.params);
      if connection.None? || layer.None? || connection.value !in bridgeConnections {
        return Stops;
      }
      Push(ToBridge(bridgeConnections[connection.value], Msg(isRequest, layer.value.message), awaits));
      fate := Continues;
    }
  }
}
