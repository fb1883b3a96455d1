// The central loop's MCP bridges, and its routing as the routing of nested conductors.

module CentralLoopLinks {
  import opened Outcomes
  import opened Messages
  import opened Envelope
  import opened Routing
  import opened ProxyTree
  import opened CentralLoop
  import opened CentralLoopRuns

  // ---- MCP bridges ---------------------------------------------------------------------------

  /** The bridge that last established the connection, unless it has been disconnected since. */
  function LiveBridge(inbox: seq<ConductorMessage>, connection: string): Option<nat> {
    if inbox == [] then None else
    var last := inbox[|inbox| - 1];
    if last.McpConnectionEstablished? && last.connection == connection then Some(last.bridge)
    else if last.McpConnectionDisconnected? && last.connection == connection then None
    else LiveBridge(inbox[..|inbox| - 1], connection)
  }

  lemma HandleBridges(setup: Setup, s: State, message: ConductorMessage)
    ensures Handle(setup, s, message).state.bridges
         == if message.McpConnectionEstablished? then s.bridges[message.connection := message.bridge]
            else if message.McpConnectionDisconnected? then s.bridges - {message.connection}
            else s.bridges
  {
  }

  lemma {:induction false} BridgesAreLive(setup: Setup, instantiate: Instantiator, inbox: seq<ConductorMessage>, connection: string)
    ensures var all := HandleAll(setup, State(Some(instantiate), [], map[]), inbox);
      all.fate == Continues ==>
        LiveBridge(inbox, connection)
        == if connection in all.state.bridges then Some(all.state.bridges[connection]) else None
    decreases |inbox|
  {
    if inbox != [] {
      var init, last := inbox[..|inbox| - 1], inbox[|inbox| - 1];
      assert inbox == init + [last];
      BridgesAreLive(setup, instantiate, init, connection);
      HandleAllAppend(setup, State(Some(instantiate), [], map[]), init, last);
      HandleBridges(setup, HandleAll(setup, State(Some(instantiate), [], map[]), init).state, last);
    }
  }

  /** An MCP message reaches the bridge that is live for its connection, without its envelope and with its
      responder; for any other connection the loop ends. */
  lemma {:induction false} BridgedMessageArrives(setup: Setup, instantiate: Instantiator, inbox: seq<ConductorMessage>,
                                                 connection: string, d: Dispatch)
    requires setup.mode == AgentMode && !d.Response?
    requires HandleAll(setup, State(Some(instantiate), [], map[]), inbox).fate == Continues
    requires HandleAll(setup, State(Some(instantiate), [], map[]), inbox).state.instantiator == None
    ensures var s := HandleAll(setup, State(Some(instantiate), [], map[]), inbox).state;
      var turn := Handle(setup, s, ConductorMessage.LeftToRight(|s.proxies|, OverAcp(connection, d)));
      match LiveBridge(inbox, connection)
      case None => turn == Turn(s, [], Stops)
      case Some(bridge) => turn == Turn(s, [ToBridge(bridge, AsMsg(d), AwaitsOf(d))], Continues)
  {
    BridgesAreLive(setup, instantiate, inbox, connection);
    OpenMcp(connection, d.body, None);
    var s := HandleAll(setup, State(Some(instantiate), [], map[]), inbox).state;
    var bridged := OverAcp(connection, d);
    assert AgentForm(setup.schema, AsMsg(bridged)) == ToMcp(connection, AsMsg(d));
    var turn := ToEnd(setup, s, bridged);
    assert [] + turn.effects == turn.effects;
  }

  // ---- The loop is the routing of ProxyTree --------------------------------------------------

  /** A mailbox entry of the model of nested conductors as the message the loop handles. */
  function AsMessage(entry: Routed, responder: nat): ConductorMessage {
    var d := if entry.m.isRequest then Request(entry.m.body, responder) else Notification(entry.m.body);
    match entry
    case LeftToRight(target, _) => ConductorMessage.LeftToRight(target, d)
    case RightToLeft(source, _) => ConductorMessage.RightToLeft(source, d)
  }

  /** What handling the entry at the front of a mailbox does to the conductor's node, read off the effect. */
  function Done(n: Node, e: Effect): Option<Outcome>
    requires n.Nest? && n.mailbox != []
  {
    var rest := n.(mailbox := n.mailbox[1..]);
    match e
    case ToProxy(i, m, _) =>
      if i < |n.kids| && IsWire(m) && !IsCall(m, METHOD_INITIALIZE) then Some(Outcome(PushDown(rest, i, m), None, None)) else None
    case ToSuccessor(m, _) => if IsTraffic(m) then Some(Outcome(rest, None, Some(Give(Rightward, m)))) else None
    case ToAgent(m, _) => if IsTraffic(m) then Some(Outcome(rest, None, Some(Give(Rightward, m)))) else None
    case ToClient(m, _) => if IsTraffic(m) then Some(Outcome(rest, None, Some(Give(Leftward, m)))) else None
    case _ => None
  }

  /** An agent-mode conductor sends the message on as it is, should it go to the agent. */
  predicate StaysInForm(setup: Setup, m: Traffic) {
    setup.mode == AgentMode ==> AgentForm(setup.schema, m) == Forward(m)
  }

  /** A ready conductor of either mode routes its oldest entry exactly as the loop handles that message. */
  lemma {:induction false} RoutesAsHandled(setup: Setup, s: State, n: Node, responder: nat)
    requires n.Nest? && n.mailbox != [] && s.instantiator == None && |s.proxies| == |n.kids|
    requires RouteEntry(setup.schema, n).Some? && StaysInForm(setup, n.mailbox[0].m)
    ensures var turn := Handle(setup, s, AsMessage(n.mailbox[0], responder));
      && turn.fate == Continues && turn.state == s && |turn.effects| == 1
      && Done(n, turn.effects[0]) == RouteEntry(setup.schema, n)
  {
    var entry := n.mailbox[0];
    match entry
    case LeftToRight(target, m) =>
      var message := AsMessage(entry, responder);
      var turn := Rightwards(setup, s, target, message.message);
      assert [] + turn.effects == turn.effects;
    case RightToLeft(source, m) =>
      UnwrapWrap(m);
  }

  /** A conductor's first message: for the handshake of its mode, whatever the instantiator makes of it, the loop
      spawns the components and then does what beginning does in the model of nested conductors. */
  lemma {:induction false} HandshakeAsRouted(setup: Setup, s: State, n: Node, asked: Json, typed: Json, instance: Instance, responder: nat)
    requires n.Nest? && !n.ready && n.mailbox != [] && n.mailbox[0].LeftToRight?
    requires n.mailbox[0].m == Msg(true, Untyped(METHOD_INITIALIZE, asked))
    requires setup.schema.initialize(asked) == Some(typed)
    requires s.instantiator.Some? && s.instantiator.value(typed) == Some(instance)
    requires s.proxies == [] && |Components(setup.traced, instance.components)| == |n.kids|
    requires Apply(setup.schema, n, Begin(instance.params)).Some?
    ensures var body := Untyped(HandshakeName(setup.mode), asked);
      var turn := Handle(setup, s, ConductorMessage.LeftToRight(n.mailbox[0].target, Request(body, responder)));
      && turn.fate == Continues && turn.state.instantiator == None && |turn.state.proxies| == |n.kids|
      && turn.effects != []
      && turn.effects[..|turn.effects| - 1]
         == (if setup.mode == AgentMode then [SpawnAgent] else []) + Spawns(turn.state.proxies)
      && Done(Begun(n, instance.params), turn.effects[|turn.effects| - 1]) == Apply(setup.schema, n, Begin(instance.params))
  {
    var target, begun := n.mailbox[0].target, Begun(n, instance.params);
    var body := Untyped(HandshakeName(setup.mode), asked);
    var ready := EnsureInitialized(setup, s, Request(body, responder));
    var s' := ready.turn.state;
    RoutesAsHandled(setup, s', begun, responder);
    assert AsMessage(begun.mailbox[0], responder) == ConductorMessage.LeftToRight(target, ready.message.value);
    var turn := Rightwards(setup, s', target, ready.message.value);
    assert [] + turn.effects == turn.effects;
    assert (ready.turn.effects + turn.effects)[..|ready.turn.effects|] == ready.turn.effects;
  }
}
