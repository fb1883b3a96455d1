// The ends of the central loop's chain: who is let in by which handshake, what the agent at the end is sent, and how
// the bridges speak for it.

module CentralLoopEnds {
  import opened Outcomes
  import opened Messages
  import opened Envelope
  import opened Routing
  import opened ProxyTree
  import opened CentralLoop
  import opened CentralLoopRuns

  // ---- Bridges speak for the agent -----------------------------------------------------------

  /** `e` takes `m` to the last proxy, which finds it in a successor envelope, or to the client if there is none. */
  predicate ToLast(s: State, e: Effect, m: Msg, awaits: Awaits) {
    if s.proxies == [] then e == ToClient(m, awaits)
    else e.ToProxy? && e.index == |s.proxies| - 1 && e.awaits == awaits && IsWrapped(e.m) && Unwrap(e.m) == Some(m)
  }

  /** The message a bridge, or the agent, has for the chain, and who awaits its answer. */
  function Spoken(message: ConductorMessage): Option<(Msg, Awaits)> {
    match message
    case McpConnectionReceived(url, bridge) =>
      Some((Msg(true, Untyped("_mcp/connect", JObject(map["acp_url" := JString(url)]))), Bridge(bridge)))
    case McpConnectionDisconnected(_, params) => Some((Msg(false, Untyped("_mcp/disconnect", params)), Nobody))
    case McpClientToMcpServer(connection, Request(body, responder)) =>
      Some((Msg(true, InMcpEnvelope(connection, body)), Caller(responder)))
    case McpClientToMcpServer(connection, Notification(body)) => Some((Msg(false, InMcpEnvelope(connection, body)), Nobody))
    case RightToLeft(FromSuccessor, Request(body, responder)) => Some((Msg(true, body), Caller(responder)))
    case RightToLeft(FromSuccessor, Notification(body)) => Some((Msg(false, body), Nobody))
    case _ => None
  }

  function InMcpEnvelope(connection: string, body: Untyped): Untyped {
    Untyped("_mcp/message", JObject(map["connectionId" := JString(connection), "method" := JString(body.name), "params" := body.params]))
  }

  /** What a bridge has to say leaves, once, for the place where the agent's own messages go: the last proxy, or the
      client if there are none. */
  lemma BridgesSpeakForTheAgent(setup: Setup, s: State, message: ConductorMessage)
    requires Spoken(message).Some?
    ensures var turn := Handle(setup, s, message);
      && turn.fate == Continues && |turn.effects| == 1
      && ToLast(s, turn.effects[0], Spoken(message).value.0, Spoken(message).value.1)
      && turn.state.instantiator == s.instantiator && turn.state.proxies == s.proxies
  {
    UnwrapWrap(Spoken(message).value.0);
    if message.McpClientToMcpServer? {
      var fields := BodyFields(message.message.body, None)["connectionId" := JString(message.connection)];
      assert EncodeMcp(message.connection, message.message.body, None).params == JObject(fields);
      assert InMcpEnvelope(message.connection, message.message.body).params == JObject(fields);
    }
  }

  /** The bridges that are run, with their connections, in order. */
  function BridgesRun(effects: seq<Effect>): seq<(string, nat)> {
    if effects == [] then [] else
    (if effects[0].RunBridge? then [(effects[0].connection, effects[0].bridge)] else []) + BridgesRun(effects[1..])
  }

  function EstablishedBy(message: ConductorMessage): seq<(string, nat)> {
    if message.McpConnectionEstablished? then [(message.connection, message.bridge)] else []
  }

  function Established(inbox: seq<ConductorMessage>): seq<(string, nat)> {
    if inbox == [] then [] else EstablishedBy(inbox[0]) + Established(inbox[1..])
  }

  lemma {:induction false} BridgesRunAppend(a: seq<Effect>, b: seq<Effect>)
    ensures BridgesRun(a + b) == BridgesRun(a) + BridgesRun(b)
  {
    if a == [] {
      assert [] + b == b;
    } else {
      assert (a + b)[1..] == a[1..] + b;
      BridgesRunAppend(a[1..], b);
      Regroup(if a[0].RunBridge? then [(a[0].connection, a[0].bridge)] else [], BridgesRun(a[1..]), BridgesRun(b));
    }
  }

  lemma {:induction false} NoneRun(effects: seq<Effect>)
    requires forall e :: e in effects ==> !e.RunBridge?
    ensures BridgesRun(effects) == []
  {
    if effects != [] {
      assert effects[0] in effects;
      NoneRun(effects[1..]);
    }
  }

  lemma RightwardsRunsNone(setup: Setup, s: State, target: nat, d: Dispatch)
    ensures BridgesRun(Rightwards(setup, s, target, d).effects) == []
  {
    NoneRun(Rightwards(setup, s, target, d).effects);
  }

  lemma InitializedRunsNone(setup: Setup, s: State, d: Dispatch)
    ensures BridgesRun(EnsureInitialized(setup, s, d).turn.effects) == []
  {
    NoneRun(EnsureInitialized(setup, s, d).turn.effects);
  }

  lemma {:induction false} HandleRuns(setup: Setup, s: State, message: ConductorMessage)
    ensures BridgesRun(Handle(setup, s, message).effects) == EstablishedBy(message)
  {
    var effects := Handle(setup, s, message).effects;
    match message
    case LeftToRight(target, d) =>
      var ready := EnsureInitialized(setup, s, d);
      InitializedRunsNone(setup, s, d);
      if ready.message.Some? {
        RightwardsRunsNone(setup, ready.turn.state, target, ready.message.value);
        BridgesRunAppend(ready.turn.effects, Rightwards(setup, ready.turn.state, target, ready.message.value).effects);
      }
    case McpConnectionEstablished(_, _) => assert effects[1..] == [] && BridgesRun([]) == [];
    case _ => NoneRun(effects);
  }

  /** Over a run each bridge is run as often as its connection is established, under that connection, in order. */
  lemma {:induction false} EachBridgeRuns(setup: Setup, s: State, inbox: seq<ConductorMessage>)
    requires HandleAll(setup, s, inbox).fate == Continues
    ensures BridgesRun(HandleAll(setup, s, inbox).effects) == Established(inbox)
    decreases |inbox|
  {
    if inbox != [] {
      var turn := Handle(setup, s, inbox[0]);
      HandleRuns(setup, s, inbox[0]);
      EachBridgeRuns(setup, turn.state, inbox[1..]);
      BridgesRunAppend(turn.effects, HandleAll(setup, turn.state, inbox[1..]).effects);
    }
  }

  // ---- What the agent is sent ----------------------------------------------------------------

  /** A conductor of an agent that has had its handshake handles a message for the agent. */
  function AtTheEnd(setup: Setup, s: State, d: Dispatch): Turn {
    Handle(setup, s, ConductorMessage.LeftToRight(|s.proxies|, d))
  }

  /** Not for the agent as it is: a new session, a message for a bridge, or a proxy's handshake. */
  predicate IsSpecial(d: Dispatch) {
    d.Response? || d.Name() == "_mcp/message" || (d.Request? && d.Name() in {"session/new", "_proxy/initialize"})
  }

  /** The agent is sent every other message as it is; a new session with its servers redirected, or not at all if that
      fails and then the loop ends; and no one's `_proxy/initialize`, which is refused. */
  lemma AgentGets(setup: Setup, s: State, d: Dispatch)
    requires setup.mode == AgentMode && s.instantiator == None
    ensures AtTheEnd(setup, s, d).state == s
    ensures !IsSpecial(d) ==> AtTheEnd(setup, s, d) == Turn(s, [ToAgent(AsMsg(d), AwaitsOf(d))], Continues)
    ensures d.Request? && d.Name() == "session/new" ==>
      if exists typed, local :: Redirects(setup.schema, d.body.params, typed, local) then
        exists typed, local :: Redirects(setup.schema, d.body.params, typed, local)
          && AtTheEnd(setup, s, d).effects == [ToAgent(Msg(true, Untyped("session/new", local)), Caller(d.responder))]
          && AtTheEnd(setup, s, d).fate == Continues
      else AtTheEnd(setup, s, d) == Turn(s, [], Stops)
    ensures d.Request? && d.Name() == "_proxy/initialize" ==>
      if setup.schema.initialize(d.body.params).Some? then
        AtTheEnd(setup, s, d) == Turn(s, [Answer(d.responder, InvalidRequest)], Continues)
      else AtTheEnd(setup, s, d) == Turn(s, [], Stops)
  {
    var end := ToEnd(setup, s, d);
    assert [] + end.effects == end.effects;
    if d.Request? && d.Name() == METHOD_NEW_SESSION && setup.schema.NewSessionForAgent(d.body.params).Some? {
      var typed := setup.schema.newSession(d.body.params).value;
      assert Redirects(setup.schema, d.body.params, typed, setup.schema.redirect(typed).value);
    }
  }

  /** The session asked for, in typed form, and the same with its `acp:` servers at local bridges. */
  predicate Redirects(schema: Schema, asked: Json, typed: Json, local: Json) {
    schema.newSession(asked) == Some(typed) && schema.redirect(typed) == Some(local)
  }

  // ---- Who is let in -------------------------------------------------------------------------

  /** The one request that opens a conductor: a client says `initialize`, another conductor `_proxy/initialize`. */
  predicate IsKey(mode: Mode, d: Dispatch) {
    d.Request? && d.Name() == (if mode == AgentMode then "initialize" else "_proxy/initialize")
  }

  /** A new conductor, and the instantiator it has. */
  ghost predicate IsNew(s: State, instantiate: Instantiator) {
    s.instantiator == Some(instantiate) && s.proxies == []
  }

  /** What is asked for with the key is agreed to. */
  ghost predicate Agreed(setup: Setup, instantiate: Instantiator, d: Dispatch, instance: Instance)
    requires !d.Response?
  {
    exists typed :: setup.schema.initialize(d.body.params) == Some(typed) && instantiate(typed) == Some(instance)
  }

  /** Whoever comes without the key is told so and the loop ends, and so does one whose key cannot be read; if the
      instantiator fails the loop ends without an answer. */
  lemma RefusedWithout(setup: Setup, s: State, instantiate: Instantiator, target: nat, d: Dispatch)
    requires IsNew(s, instantiate)
    ensures var turn := Handle(setup, s, ConductorMessage.LeftToRight(target, d));
      && (!IsKey(setup.mode, d) ==>
            turn.fate == Stops && turn.effects == [match d
              case Request(_, responder) => Answer(responder, InvalidRequest)
              case Notification(_) => Complain(InvalidRequest)
              case Response(_, route) => Deliver(Err(InvalidRequest), route)])
      && (IsKey(setup.mode, d) && (forall instance :: !Agreed(setup, instantiate, d, instance)) ==>
            turn.fate == Stops
            && turn.effects == if setup.schema.initialize(d.body.params).None? then [Answer(d.responder, ParseError)] else [])
  {
    if IsKey(setup.mode, d) && setup.schema.initialize(d.body.params).Some? {
      var typed := setup.schema.initialize(d.body.params).value;
      if instantiate(typed).Some? {
        assert Agreed(setup, instantiate, d, instantiate(typed).value);
      }
    }
  }

  /** With it the conductor spawns what the instantiator chose, with the agent first if it has one; when tracing, a
      chain that would be empty gets one proxy. Then it passes the handshake on to the place asked for. */
  lemma LetInWith(setup: Setup, s: State, instantiate: Instantiator, target: nat, d: Dispatch, instance: Instance)
    requires IsNew(s, instantiate) && IsKey(setup.mode, d) && Agreed(setup, instantiate, d, instance)
    ensures var turn := Handle(setup, s, ConductorMessage.LeftToRight(target, d));
      && turn.state.instantiator == None && turn.state.bridges == s.bridges
      && turn.state.proxies == (if setup.traced && instance.components == [] then [PassThrough] else instance.components)
      && turn.effects == (if setup.mode == AgentMode then [SpawnAgent] else []) + Spawns(turn.state.proxies)
                         + Handle(setup, turn.state, ConductorMessage.LeftToRight(target, AsInitialize(d, instance.params))).effects
      && turn.fate == Handle(setup, turn.state, ConductorMessage.LeftToRight(target, AsInitialize(d, instance.params))).fate
  {
    var ready := EnsureInitialized(setup, s, d);
    var rest := Rightwards(setup, ready.turn.state, target, ready.message.value);
    assert [] + rest.effects == rest.effects;
  }

  /** The handshake on its way, as a client says it. */
  function AsInitialize(d: Dispatch, params: Json): Dispatch
    requires d.Request?
  {
    Request(Untyped("initialize", params), d.responder)
  }

  /** A conductor that has been opened opens its first proxy, if that is a conductor too, and its agent if it has no
      proxy; what it says would not open a conductor with an agent of its own. */
  lemma {:induction false} HandshakeGoesOn(setup: Setup, s: State, instantiate: Instantiator, d: Dispatch, instance: Instance)
    requires IsNew(s, instantiate) && IsKey(setup.mode, d) && Agreed(setup, instantiate, d, instance)
    requires setup.schema.initialize(instance.params).Some?
    ensures var turn := Handle(setup, s, ConductorMessage.LeftToRight(0, d));
      && turn.fate == Continues && turn.effects != []
      && var last, typed := turn.effects[|turn.effects| - 1], setup.schema.initialize(instance.params).value;
         if turn.state.proxies != [] then
           last.ToProxy? && last.index == 0 && last.awaits == Caller(d.responder) && last.m.isRequest
           && last.m.body.params == typed
           && (forall r :: IsKey(ProxyMode, Request(last.m.body, r)) && !IsKey(AgentMode, Request(last.m.body, r)))
         else
           last == (if setup.mode == AgentMode then ToAgent(Msg(true, Untyped("initialize", instance.params)), Caller(d.responder))
                    else ToSuccessor(Msg(true, Untyped("initialize", instance.params)), Caller(d.responder)))
           && (forall r :: IsKey(AgentMode, Request(last.m.body, r)) && !IsKey(ProxyMode, Request(last.m.body, r)))
  {
    LetInWith(setup, s, instantiate, 0, d, instance);
    PassedOn(setup, Handle(setup, s, ConductorMessage.LeftToRight(0, d)).state, d, instance.params);
  }

  lemma PassedOn(setup: Setup, s: State, d: Dispatch, params: Json)
    requires s.instantiator == None && d.Request? && setup.schema.initialize(params).Some?
    ensures Handle(setup, s, ConductorMessage.LeftToRight(0, AsInitialize(d, params)))
         == Turn(s, [if s.proxies != [] then
                       ToProxy(0, Msg(true, Untyped("_proxy/initialize", setup.schema.initialize(params).value)), Caller(d.responder))
                     else if setup.mode == AgentMode then ToAgent(Msg(true, Untyped("initialize", params)), Caller(d.responder))
                     else ToSuccessor(Msg(true, Untyped("initialize", params)), Caller(d.responder))], Continues)
  {
    var turn := Rightwards(setup, s, 0, AsInitialize(d, params));
    assert [] + turn.effects == turn.effects;
  }

  /** A proxy is sent every message as it is, but for the two handshakes: a client's it gets in the form for proxies,
      and nobody but the conductor may send it one in that form. */
  lemma ProxyGets(setup: Setup, s: State, target: nat, d: Dispatch)
    requires s.instantiator == None && target < |s.proxies| && !d.Response?
    ensures var turn, read := Handle(setup, s, ConductorMessage.LeftToRight(target, d)), setup.schema.initialize(d.body.params);
      turn == if !(d.Request? && d.Name() in {"initialize", "_proxy/initialize"}) then
                Turn(s, [ToProxy(target, AsMsg(d), AwaitsOf(d))], Continues)
              else if read.None? then Turn(s, [], Stops)
              else if d.Name() == "initialize" then
                Turn(s, [ToProxy(target, Msg(true, Untyped("_proxy/initialize", read.value)), Caller(d.responder))], Continues)
              else Turn(s, [Answer(d.responder, InvalidRequest)], Continues)
  {
    var turn := Rightwards(setup, s, target, d);
    assert [] + turn.effects == turn.effects;
  }

  // ---- When the loop ends --------------------------------------------------------------------

  /** No bridge is there for an MCP message. */
  predicate NoBridge(s: State, params: Json) {
    match (OpenConnection(params), OpenBody(params))
    case (Some(connection), Some(_)) => connection !in s.bridges
    case _ => true
  }

  /** What the handlers of a ready conductor fail on: parameters that cannot be read, a session whose servers cannot be
      redirected, an MCP message for no bridge. */
  ghost predicate Unroutable(setup: Setup, s: State, target: nat, d: Dispatch) {
    && !d.Response?
    && if target < |s.proxies| then
         d.Request? && d.Name() in {"initialize", "_proxy/initialize"} && setup.schema.initialize(d.body.params).None?
       else
         && target == |s.proxies| && setup.mode == AgentMode
         && (|| (d.Request? && d.Name() == "_proxy/initialize" && setup.schema.initialize(d.body.params).None?)
             || (d.Request? && d.Name() == "session/new" && forall typed, local :: !Redirects(setup.schema, d.body.params, typed, local))
             || (d.Name() == "_mcp/message" && NoBridge(s, d.body.params)))
  }

  /** The message on which the loop ends: from the left, and refused entry or unroutable. */
  ghost predicate EndsOn(setup: Setup, s: State, message: ConductorMessage) {
    && message.LeftToRight?
    && if s.instantiator.None? then Unroutable(setup, s, message.target, message.message)
       else
         || !IsKey(setup.mode, message.message)
         || (forall instance :: !Agreed(setup, s.instantiator.value, message.message, instance))
         || exists instance :: FailsOnceIn(setup, s, message.target, message.message, instance)
  }

  /** Let in, but what the instantiator made of the handshake cannot be passed on. */
  ghost predicate FailsOnceIn(setup: Setup, s: State, target: nat, d: Dispatch, instance: Instance)
    requires s.instantiator.Some? && d.Request?
  {
    && Agreed(setup, s.instantiator.value, d, instance)
    && Unroutable(setup, s.(proxies := if setup.traced && instance.components == [] then [PassThrough] else instance.components),
                  target, AsInitialize(d, instance.params))
  }

  lemma ReadyEndsIff(setup: Setup, s: State, target: nat, d: Dispatch)
    requires s.instantiator == None
    ensures Handle(setup, s, ConductorMessage.LeftToRight(target, d)).fate == Stops <==> Unroutable(setup, s, target, d)
  {
    if !d.Response? {
      if target < |s.proxies| {
        ProxyGets(setup, s, target, d);
      } else if target == |s.proxies| && setup.mode == AgentMode {
        AgentGets(setup, s, d);
      }
    }
  }

  lemma {:induction false} NewEndsIff(setup: Setup, s: State, instantiate: Instantiator, target: nat, d: Dispatch)
    requires IsNew(s, instantiate)
    ensures var message := ConductorMessage.LeftToRight(target, d);
      Handle(setup, s, message).fate == Stops <==> EndsOn(setup, s, message)
  {
    if IsKey(setup.mode, d) && exists instance :: Agreed(setup, instantiate, d, instance) {
      var instance :| Agreed(setup, instantiate, d, instance);
      LetInEndsIff(setup, s, instantiate, target, d, instance);
      forall other | Agreed(setup, instantiate, d, other) ensures other == instance {
      }
      assert FailsOnceIn(setup, s, target, d, instance) <==> exists other :: FailsOnceIn(setup, s, target, d, other);
    } else {
      RefusedWithout(setup, s, instantiate, target, d);
    }
  }

  lemma LetInEndsIff(setup: Setup, s: State, instantiate: Instantiator, target: nat, d: Dispatch, instance: Instance)
    requires IsNew(s, instantiate) && IsKey(setup.mode, d) && Agreed(setup, instantiate, d, instance)
    ensures Handle(setup, s, ConductorMessage.LeftToRight(target, d)).fate == Stops
       <==> FailsOnceIn(setup, s, target, d, instance)
  {
    LetInWith(setup, s, instantiate, target, d, instance);
    var s' := Handle(setup, s, ConductorMessage.LeftToRight(target, d)).state;
    ReadyEndsIff(setup, s', target, AsInitialize(d, instance.params));
    SameButInstantiator(setup, s', s.(proxies := s'.proxies), target, AsInitialize(d, instance.params));
  }

  lemma SameButInstantiator(setup: Setup, s: State, s': State, target: nat, d: Dispatch)
    requires s.proxies == s'.proxies && (!d.Response? && d.Name() == "_mcp/message" ==> s.bridges == s'.bridges)
    ensures Unroutable(setup, s, target, d) <==> Unroutable(setup, s', target, d)
  {
  }

  /** A run ends with an error if and only if it comes to a message of this kind: nothing else stops it, and in
      particular no message from the right, from a bridge, or answering a request. */
  lemma {:induction false} RunEndsIff(setup: Setup, s: State, inbox: seq<ConductorMessage>)
    requires s.instantiator.Some? ==> s.proxies == []
    ensures HandleAll(setup, s, inbox).fate == Stops <==> exists i: nat :: ComesTo(setup, s, inbox, i)
    decreases |inbox|
  {
    if inbox == [] {
    } else {
      var turn := Handle(setup, s, inbox[0]);
      if inbox[0].LeftToRight? {
        if s.instantiator.Some? {
          NewEndsIff(setup, s, s.instantiator.value, inbox[0].target, inbox[0].message);
        } else {
          ReadyEndsIff(setup, s, inbox[0].target, inbox[0].message);
        }
      }
      assert inbox[..0] == [];
      if turn.fate == Continues {
        RunEndsIff(setup, turn.state, inbox[1..]);
        LaterMessage(setup, s, inbox);
      } else {
        NoLater(setup, s, inbox);
        if turn.fate == Stops {
          assert ComesTo(setup, s, inbox, 0);
        }
      }
    }
  }

  /** The loop has handled the messages before `i` and ends on that. */
  ghost predicate ComesTo(setup: Setup, s: State, inbox: seq<ConductorMessage>, i: nat) {
    && i < |inbox| && HandleAll(setup, s, inbox[..i]).fate == Continues
    && EndsOn(setup, HandleAll(setup, s, inbox[..i]).state, inbox[i])
  }

  lemma {:induction false} LaterMessage(setup: Setup, s: State, inbox: seq<ConductorMessage>)
    requires inbox != [] && Handle(setup, s, inbox[0]).fate == Continues && !EndsOn(setup, s, inbox[0])
    ensures (exists i: nat :: ComesTo(setup, s, inbox, i))
       <==> exists i: nat :: ComesTo(setup, Handle(setup, s, inbox[0]).state, inbox[1..], i)
  {
    var s' := Handle(setup, s, inbox[0]).state;
    if i: nat :| ComesTo(setup, s, inbox, i) {
      assert inbox[..0] == [];
      ComesLater(setup, s, inbox, i - 1);
      assert ComesTo(setup, s', inbox[1..], i - 1);
    }
    if i: nat :| ComesTo(setup, s', inbox[1..], i) {
      ComesLater(setup, s, inbox, i);
      assert ComesTo(setup, s, inbox, i + 1);
    }
  }

  lemma ComesLater(setup: Setup, s: State, inbox: seq<ConductorMessage>, i: nat)
    requires inbox != [] && Handle(setup, s, inbox[0]).fate == Continues
    ensures ComesTo(setup, s, inbox, i + 1) <==> ComesTo(setup, Handle(setup, s, inbox[0]).state, inbox[1..], i)
  {
    if i + 1 < |inbox| {
      assert inbox[..i + 1][1..] == inbox[1..][..i];
    }
  }

  lemma {:induction false} NoLater(setup: Setup, s: State, inbox: seq<ConductorMessage>)
    requires inbox != [] && Handle(setup, s, inbox[0]).fate != Continues
    ensures forall i: nat :: ComesTo(setup, s, inbox, i) ==> i == 0
  {
    forall i: nat | ComesTo(setup, s, inbox, i) ensures i == 0 {
      NotBeyond(setup, s, inbox, i);
    }
  }

  lemma NotBeyond(setup: Setup, s: State, inbox: seq<ConductorMessage>, i: nat)
    requires inbox != [] && Handle(setup, s, inbox[0]).fate != Continues
    ensures 0 < i <= |inbox| ==> HandleAll(setup, s, inbox[..i]).fate != Continues
  {
    if 0 < i <= |inbox| {
      assert inbox[..i][0] == inbox[0];
    }
  }
}
