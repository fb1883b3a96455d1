// What the central loop guarantees over whole runs: the handshake comes first and stays inside the chain,
// every message leaves exactly once and in order, and nothing aborts.

module CentralLoopRuns {
  import opened Outcomes
  import opened Messages
  import opened Envelope
  import opened Routing
  import opened ProxyTree
  import opened CentralLoop

  // ---- Every message leaves exactly once -----------------------------------------------------

  /** What must not be lost or doubled: an obligation to answer, a notification, a response. */
  datatype Token =
    | OwedAnswer(responder: nat)
    | OwedBridge(bridge: nat)
    | Notice
    | Reply(result: Result<Json, Error>, route: ResponseRoute)

  function TokenOfAwaits(awaits: Awaits): Token {
    match awaits
    case Nobody => Notice
    case Caller(responder) => OwedAnswer(responder)
    case Bridge(bridge) => OwedBridge(bridge)
  }

  function TokenOfEffect(e: Effect): seq<Token> {
    match e
    case ToClient(_, awaits) => [TokenOfAwaits(awaits)]
    case ToProxy(_, _, awaits) => [TokenOfAwaits(awaits)]
    case ToAgent(_, awaits) => [TokenOfAwaits(awaits)]
    case ToSuccessor(_, awaits) => [TokenOfAwaits(awaits)]
    case ToBridge(_, _, awaits) => [TokenOfAwaits(awaits)]
    case Answer(responder, _) => [OwedAnswer(responder)]
    case Complain(_) => [Notice]
    case Deliver(result, route) => [Reply(result, route)]
    case _ => []
  }

  function TokenOfDispatch(d: Dispatch): Token {
    match d
    case Request(_, responder) => OwedAnswer(responder)
    case Notification(_) => Notice
    case Response(result, route) => Reply(result, route)
  }

  function TokenOfMessage(message: ConductorMessage): seq<Token> {
    match message
    case LeftToRight(_, d) => [TokenOfDispatch(d)]
    case RightToLeft(_, d) => [TokenOfDispatch(d)]
    case McpClientToMcpServer(_, d) => [TokenOfDispatch(d)]
    case McpConnectionReceived(_, bridge) => [OwedBridge(bridge)]
    case McpConnectionEstablished(_, _) => []
    case McpConnectionDisconnected(_, _) => [Notice]
  }

  function TokensOut(effects: seq<Effect>): seq<Token> {
    if effects == [] then [] else TokenOfEffect(effects[0]) + TokensOut(effects[1..])
  }

  function TokensIn(inbox: seq<ConductorMessage>): seq<Token> {
    if inbox == [] then [] else TokenOfMessage(inbox[0]) + TokensIn(inbox[1..])
  }

  lemma {:induction false} TokensOutAppend(a: seq<Effect>, b: seq<Effect>)
    ensures TokensOut(a + b) == TokensOut(a) + TokensOut(b)
  {
    if a == [] {
      assert [] + b == b;
    } else {
      assert (a + b)[1..] == a[1..] + b;
      TokensOutAppend(a[1..], b);
      Regroup(TokenOfEffect(a[0]), TokensOut(a[1..]), TokensOut(b));
    }
  }

  lemma Regroup<T>(a: seq<T>, b: seq<T>, c: seq<T>)
    ensures a + (b + c) == (a + b) + c
  {
  }

  predicate OnlySpawns(effects: seq<Effect>) {
    forall e :: e in effects ==> e.Spawn? || e.SpawnAgent?
  }

  lemma {:induction false} SpawnsCarryNothing(effects: seq<Effect>)
    requires OnlySpawns(effects)
    ensures TokensOut(effects) == []
  {
    if effects != [] {
      assert effects[0] in effects;
      SpawnsCarryNothing(effects[1..]);
    }
  }

  lemma {:induction false} OneOut(e: Effect)
    ensures TokensOut([e]) == TokenOfEffect(e)
  {
    assert [e][1..] == [] && TokensOut([]) == [];
  }

  lemma {:induction false} InitializedConserves(setup: Setup, s: State, d: Dispatch)
    ensures var ready := EnsureInitialized(setup, s, d);
      && (ready.message.Some? <==> ready.turn.fate == Continues)
      && (ready.message.Some? ==> TokensOut(ready.turn.effects) == [] && TokenOfDispatch(ready.message.value) == TokenOfDispatch(d))
  {
    var ready := EnsureInitialized(setup, s, d);
    if ready.message.Some? {
      SpawnsCarryNothing(ready.turn.effects);
    }
  }

  lemma {:induction false} RightwardsConserves(setup: Setup, s: State, target: nat, d: Dispatch)
    requires Rightwards(setup, s, target, d).fate == Continues
    ensures TokensOut(Rightwards(setup, s, target, d).effects) == [TokenOfDispatch(d)]
  {
    OneOut(Rightwards(setup, s, target, d).effects[0]);
  }

  /** A message that is handled is sent on, answered or delivered: exactly one of these, exactly once. */
  lemma {:induction false} HandleConserves(setup: Setup, s: State, message: ConductorMessage)
    requires Handle(setup, s, message).fate == Continues
    ensures TokensOut(Handle(setup, s, message).effects) == TokenOfMessage(message)
  {
    match message
    case LeftToRight(target, d) =>
      InitializedConserves(setup, s, d);
      var ready := EnsureInitialized(setup, s, d);
      RightwardsConserves(setup, ready.turn.state, target, ready.message.value);
      TokensOutAppend(ready.turn.effects, Rightwards(setup, ready.turn.state, target, ready.message.value).effects);
    case _ =>
      OneOut(Handle(setup, s, message).effects[0]);
  }

  /** Over a run the messages leave in the order they came, each once. */
  lemma {:induction false} RunConserves(setup: Setup, s: State, inbox: seq<ConductorMessage>)
    requires HandleAll(setup, s, inbox).fate == Continues
    ensures TokensOut(HandleAll(setup, s, inbox).effects) == TokensIn(inbox)
    decreases |inbox|
  {
    if inbox != [] {
      var turn := Handle(setup, s, inbox[0]);
      HandleConserves(setup, s, inbox[0]);
      RunConserves(setup, turn.state, inbox[1..]);
      TokensOutAppend(turn.effects, HandleAll(setup, turn.state, inbox[1..]).effects);
    }
  }

  // ---- The handshake -------------------------------------------------------------------------

  /** No proxy is ever sent a plain `initialize` request, and no agent or bridge of MCP a `_proxy/initialize`. */
  predicate KeepsRoles(e: Effect) {
    && (e.ToProxy? ==> !IsCall(e.m, METHOD_INITIALIZE))
    && (e.ToAgent? ==> !IsCall(e.m, METHOD_INITIALIZE_PROXY))
  }

  lemma {:induction false} HandleKeepsRoles(setup: Setup, s: State, message: ConductorMessage)
    ensures forall e :: e in Handle(setup, s, message).effects ==> KeepsRoles(e)
  {
  }

  lemma {:induction false} RunKeepsRoles(setup: Setup, s: State, inbox: seq<ConductorMessage>)
    ensures forall e :: e in HandleAll(setup, s, inbox).effects ==> KeepsRoles(e)
    decreases |inbox|
  {
    if inbox != [] {
      HandleKeepsRoles(setup, s, inbox[0]);
      RunKeepsRoles(setup, Handle(setup, s, inbox[0]).state, inbox[1..]);
    }
  }

  /** The conductor's first left-to-right message. */
  function FirstRightwards(inbox: seq<ConductorMessage>): Option<Dispatch> {
    if inbox == [] then None
    else if inbox[0].LeftToRight? then Some(inbox[0].message)
    else FirstRightwards(inbox[1..])
  }

  /** The components a handshake makes the conductor spawn; None if it is refused. */
  function Opens(setup: Setup, instantiate: Instantiator, d: Dispatch): Option<seq<Component>> {
    if !d.Request? || d.body.name != HandshakeName(setup.mode) then None else
    match setup.schema.initialize(d.body.params)
    case None => None
    case Some(typed) =>
      match instantiate(typed)
      case None => None
      case Some(instance) => Some(Components(setup.traced, instance.components))
  }

  /** Anything that reaches a component inside the conductor, or its agent or successor. */
  predicate ReachesInside(e: Effect) {
    e.ToProxy? || e.ToAgent? || e.ToSuccessor? || e.ToBridge? || e.Spawn? || e.SpawnAgent?
  }

  lemma {:induction false} OpensFirst(setup: Setup, s: State, target: nat, d: Dispatch)
    requires s.instantiator.Some? && s.proxies == []
    ensures var turn := Handle(setup, s, ConductorMessage.LeftToRight(target, d));
      match Opens(setup, s.instantiator.value, d)
      case None => turn.fate == Stops && forall e :: e in turn.effects ==> !ReachesInside(e)
      case Some(components) => turn.state.instantiator == None && turn.state.proxies == components
  {
  }

  lemma {:induction false} StaysClosed(setup: Setup, s: State, message: ConductorMessage)
    requires s.instantiator.Some? && s.proxies == [] && !message.LeftToRight?
    ensures var turn := Handle(setup, s, message);
      && turn.state.instantiator == s.instantiator && turn.state.proxies == []
      && forall e :: e in turn.effects ==> !ReachesInside(e)
  {
  }

  lemma {:induction false} ProxiesStay(setup: Setup, s: State, inbox: seq<ConductorMessage>)
    requires s.instantiator == None
    ensures var all := HandleAll(setup, s, inbox); all.state.proxies == s.proxies && all.state.instantiator == None
    decreases |inbox|
  {
    if inbox != [] {
      ProxiesStay(setup, Handle(setup, s, inbox[0]).state, inbox[1..]);
    }
  }

  /** Nothing reaches a component before the handshake, the first left-to-right message must be it, and it
      alone decides which proxies there are. */
  lemma {:induction false} HandshakeComesFirst(setup: Setup, s: State, inbox: seq<ConductorMessage>)
    requires s.instantiator.Some? && s.proxies == []
    ensures var all, first := HandleAll(setup, s, inbox), FirstRightwards(inbox);
      if all.fate == Continues && first.Some? then
        Opens(setup, s.instantiator.value, first.value) == Some(all.state.proxies)
      else first.None? || Opens(setup, s.instantiator.value, first.value).None? ==>
        forall e :: e in all.effects ==> !ReachesInside(e)
    decreases |inbox|
  {
    if inbox != [] {
      var turn := Handle(setup, s, inbox[0]);
      if inbox[0].LeftToRight? {
        OpensFirst(setup, s, inbox[0].target, inbox[0].message);
        if turn.fate == Continues {
          ProxiesStay(setup, turn.state, inbox[1..]);
        }
      } else {
        StaysClosed(setup, s, inbox[0]);
        HandshakeComesFirst(setup, turn.state, inbox[1..]);
      }
    }
  }

  // ---- Spawning ------------------------------------------------------------------------------

  function SpawnsOf(effects: seq<Effect>): seq<Effect> {
    if effects == [] then [] else
    (if effects[0].Spawn? then [effects[0]] else []) + SpawnsOf(effects[1..])
  }

  lemma {:induction false} SpawnsOfAppend(a: seq<Effect>, b: seq<Effect>)
    ensures SpawnsOf(a + b) == SpawnsOf(a) + SpawnsOf(b)
  {
    if a == [] {
      assert [] + b == b;
    } else {
      assert (a + b)[1..] == a[1..] + b;
      SpawnsOfAppend(a[1..], b);
      Regroup(if a[0].Spawn? then [a[0]] else [], SpawnsOf(a[1..]), SpawnsOf(b));
    }
  }

  lemma {:induction false} AllSpawns(effects: seq<Effect>)
    requires forall e :: e in effects ==> e.Spawn?
    ensures SpawnsOf(effects) == effects
  {
    if effects != [] {
      assert effects[0] in effects;
      AllSpawns(effects[1..]);
    }
  }

  lemma NoSpawn(effects: seq<Effect>)
    requires |effects| <= 1 && forall e :: e in effects ==> !e.Spawn?
    ensures SpawnsOf(effects) == []
  {
    if effects != [] {
      assert effects[0] in effects && effects[1..] == [];
    }
  }

  lemma {:induction false} InitializedSpawns(setup: Setup, s: State, d: Dispatch)
    requires s.instantiator.Some? ==> s.proxies == []
    ensures var turn := EnsureInitialized(setup, s, d).turn;
      && (turn.state.instantiator.Some? ==> turn.state.proxies == [])
      && if turn.state.proxies == s.proxies && s.proxies != [] then SpawnsOf(turn.effects) == []
         else s.proxies == [] && SpawnsOf(turn.effects) == Spawns(turn.state.proxies)
  {
    var ready := EnsureInitialized(setup, s, d);
    if ready.message.Some? && s.instantiator.Some? {
      var agent := if setup.mode == AgentMode then [SpawnAgent] else [];
      SpawnsOfAppend(agent, Spawns(ready.turn.state.proxies));
      NoSpawn(agent);
      AllSpawns(Spawns(ready.turn.state.proxies));
    } else {
      NoSpawn(ready.turn.effects);
    }
  }

  lemma {:induction false} HandleSpawns(setup: Setup, s: State, message: ConductorMessage)
    requires s.instantiator.Some? ==> s.proxies == []
    ensures var turn := Handle(setup, s, message);
      && (turn.state.instantiator.Some? ==> turn.state.proxies == [])
      && if turn.state.proxies == s.proxies && s.proxies != [] then SpawnsOf(turn.effects) == []
         else s.proxies == [] && SpawnsOf(turn.effects) == Spawns(turn.state.proxies)
  {
    if message.LeftToRight? {
      InitializedSpawns(setup, s, message.message);
      var ready := EnsureInitialized(setup, s, message.message);
      if ready.message.Some? {
        RightwardsSpawns(setup, ready.turn.state, message.target, ready.message.value);
        var rest := Rightwards(setup, ready.turn.state, message.target, ready.message.value).effects;
        SpawnsOfAppend(ready.turn.effects, rest);
        assert SpawnsOf(ready.turn.effects) + [] == SpawnsOf(ready.turn.effects);
      }
    } else {
      LeftwardsSpawns(setup, s, message);
      assert Spawns([]) == [];
    }
  }

  lemma RightwardsSpawns(setup: Setup, s: State, target: nat, d: Dispatch)
    ensures var turn := Rightwards(setup, s, target, d); turn.state == s && SpawnsOf(turn.effects) == []
  {
    NoSpawn(Rightwards(setup, s, target, d).effects);
  }

  lemma LeftwardsSpawns(setup: Setup, s: State, message: ConductorMessage)
    requires !message.LeftToRight?
    ensures var turn := Handle(setup, s, message);
      turn.state.instantiator == s.instantiator && turn.state.proxies == s.proxies && SpawnsOf(turn.effects) == []
  {
    NoSpawn(Handle(setup, s, message).effects);
  }

  /** Over a run from the start, the components spawned are exactly the proxies messages are routed to: each
      once, in order, at the index its connection handler reports. */
  lemma {:induction false} RunSpawnsOnce(setup: Setup, s: State, inbox: seq<ConductorMessage>)
    requires s.instantiator.Some? ==> s.proxies == []
    ensures var all := HandleAll(setup, s, inbox);
      && SpawnsOf(all.effects) == (if s.proxies != [] then [] else Spawns(all.state.proxies))
      && forall i :: 0 <= i < |SpawnsOf(all.effects)| ==> SpawnsOf(all.effects)[i] == Spawn(all.state.proxies[i], i)
    decreases |inbox|
  {
    if inbox != [] {
      var turn := Handle(setup, s, inbox[0]);
      HandleSpawns(setup, s, inbox[0]);
      if turn.fate == Continues {
        RunSpawnsOnce(setup, turn.state, inbox[1..]);
        SpawnsOfAppend(turn.effects, HandleAll(setup, turn.state, inbox[1..]).effects);
        if turn.state.proxies != [] {
          HandledProxiesStay(setup, turn.state, inbox[1..]);
        }
      }
    }
  }

  lemma {:induction false} HandledProxiesStay(setup: Setup, s: State, inbox: seq<ConductorMessage>)
    requires s.proxies != [] && s.instantiator == None
    ensures HandleAll(setup, s, inbox).state.proxies == s.proxies
  {
    ProxiesStay(setup, s, inbox);
  }

  // ---- Nothing aborts ------------------------------------------------------------------------

  /** A message the connection handlers can have put in the mailbox when the state was `s`: the client's
      and the successor's at any time, those of proxy `i` once it is spawned. */
  predicate Sendable(s: State, message: ConductorMessage) {
    match message
    case LeftToRight(target, _) => target == 0 || target <= |s.proxies|
    case RightToLeft(source, _) => source.FromSuccessor? || source.index < |s.proxies|
    case _ => true
  }

  /** The target assertion or an index fails exactly when a message names a place that is not there. */
  lemma {:induction false} PanicsIff(setup: Setup, s: State, message: ConductorMessage)
    requires s.instantiator.Some? ==> s.proxies == []
    ensures Handle(setup, s, message).fate == Panics <==>
      match message
      case LeftToRight(target, d) =>
        if s.instantiator.None? then target > |s.proxies|
        else (match Opens(setup, s.instantiator.value, d) case None => false case Some(components) => target > |components|)
      case RightToLeft(source, d) => !d.Response? && source.FromProxy? && source.index > |s.proxies|
      case _ => false
  {
  }

  lemma {:induction false} SendableStays(setup: Setup, s: State, inbox: seq<ConductorMessage>, message: ConductorMessage)
    requires s.instantiator.Some? ==> s.proxies == []
    requires Sendable(s, message)
    ensures var s' := HandleAll(setup, s, inbox).state;
      Sendable(s', message) && (s'.instantiator.Some? ==> s'.proxies == [])
    decreases |inbox|
  {
    if inbox != [] {
      SendableStays(setup, Handle(setup, s, inbox[0]).state, inbox[1..], message);
    }
  }

  lemma {:induction false} HandleAllAppend(setup: Setup, s: State, inbox: seq<ConductorMessage>, message: ConductorMessage)
    ensures var all := HandleAll(setup, s, inbox);
      HandleAll(setup, s, inbox + [message])
      == if all.fate == Continues then Since(all.effects, Handle(setup, all.state, message)) else all
    decreases |inbox|
  {
    var whole := inbox + [message];
    if inbox == [] {
      assert whole[1..] == [] && whole[0] == message;
      var turn := Handle(setup, s, message);
      assert turn.effects + [] == turn.effects && [] + turn.effects == turn.effects;
    } else {
      assert whole[1..] == inbox[1..] + [message];
      var turn := Handle(setup, s, inbox[0]);
      HandleAllAppend(setup, turn.state, inbox[1..], message);
      var rest := HandleAll(setup, turn.state, inbox[1..]);
      assert turn.effects + (rest.effects + Handle(setup, rest.state, message).effects)
          == turn.effects + rest.effects + Handle(setup, rest.state, message).effects;
    }
  }

  /** Message `k` was put in the mailbox after `j` others had been handled. */
  ghost predicate SentAfter(setup: Setup, s: State, inbox: seq<ConductorMessage>, k: nat, j: nat)
    requires k < |inbox|
  {
    j <= k && Sendable(HandleAll(setup, s, inbox[..j]).state, inbox[k])
  }

  ghost predicate CanArrive(setup: Setup, s: State, inbox: seq<ConductorMessage>, k: nat)
    requires k < |inbox|
  {
    exists j: nat :: SentAfter(setup, s, inbox, k, j)
  }

  /** However far the mailbox lags behind its senders, no run aborts. */
  lemma {:induction false} RunNeverAborts(setup: Setup, instantiate: Instantiator, inbox: seq<ConductorMessage>)
    requires forall k :: 0 <= k < |inbox| ==> CanArrive(setup, State(Some(instantiate), [], map[]), inbox, k)
    ensures HandleAll(setup, State(Some(instantiate), [], map[]), inbox).fate != Panics
    decreases |inbox|
  {
    var start := State(Some(instantiate), [], map[]);
    if inbox != [] {
      var k := |inbox| - 1;
      var init := inbox[..k];
      forall i | 0 <= i < |init| ensures CanArrive(setup, start, init, i) {
        assert CanArrive(setup, start, inbox, i);
        var j: nat :| SentAfter(setup, start, inbox, i, j);
        assert init[..j] == inbox[..j];
        assert SentAfter(setup, start, init, i, j);
      }
      RunNeverAborts(setup, instantiate, init);
      assert inbox == init + [inbox[k]];
      HandleAllAppend(setup, start, init, inbox[k]);
      var all := HandleAll(setup, start, init);
      if all.fate == Continues {
        assert CanArrive(setup, start, inbox, k);
        var j: nat :| SentAfter(setup, start, inbox, k, j);
        LastIsSendable(setup, start, inbox, k, j);
        PanicsIff(setup, all.state, inbox[k]);
      }
    }
  }

  lemma {:induction false} LastIsSendable(setup: Setup, s: State, inbox: seq<ConductorMessage>, k: nat, j: nat)
    requires s.instantiator.Some? ==> s.proxies == []
    requires k < |inbox| && SentAfter(setup, s, inbox, k, j)
    requires HandleAll(setup, s, inbox[..k]).fate == Continues
    ensures var s' := HandleAll(setup, s, inbox[..k]).state;
      Sendable(s', inbox[k]) && (s'.instantiator.Some? ==> s'.proxies == [])
  {
    assert inbox[..k][..j] == inbox[..j];
    SplitRun(setup, s, inbox[..k], j);
    StaysSpawned(setup, s, inbox[..j]);
    SendableStays(setup, HandleAll(setup, s, inbox[..j]).state, inbox[..k][j..], inbox[k]);
  }

  lemma {:induction false} StaysSpawned(setup: Setup, s: State, inbox: seq<ConductorMessage>)
    requires s.instantiator.Some? ==> s.proxies == []
    ensures var s' := HandleAll(setup, s, inbox).state; s'.instantiator.Some? ==> s'.proxies == []
    decreases |inbox|
  {
    if inbox != [] {
      StaysSpawned(setup, Handle(setup, s, inbox[0]).state, inbox[1..]);
    }
  }

  lemma {:induction false} SplitRun(setup: Setup, s: State, inbox: seq<ConductorMessage>, j: nat)
    requires j <= |inbox| && HandleAll(setup, s, inbox).fate == Continues
    ensures HandleAll(setup, s, inbox).state == HandleAll(setup, HandleAll(setup, s, inbox[..j]).state, inbox[j..]).state
    decreases j
  {
    if j == 0 {
      assert inbox[j..] == inbox;
    } else {
      assert inbox[..j][1..] == inbox[1..][..j - 1] && inbox[1..][j - 1..] == inbox[j..];
      SplitRun(setup, Handle(setup, s, inbox[0]).state, inbox[1..], j - 1);
    }
  }
}
