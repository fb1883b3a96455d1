// The conductor's index checks hold in every reachable state, and no message is ever stuck.

module ChainSafety {
  import opened Outcomes
  import opened Messages
  import opened Routing
  import opened ProxyTree
  import opened ProxyTreeMoves
  import opened Chain
  import opened ChainRuns

  /** A mailbox entry of a conductor with `k` children that its central loop can handle. */
  predicate EntryInRange(k: nat, r: Routed) {
    if r.LeftToRight? then r.target <= k else SourceIndex(k, r.source) <= k
  }

  /** Every mailbox entry of every conductor is in range. */
  predicate InRange(n: Node) {
    n.Nest? ==>
      && (forall r :: r in n.mailbox ==> EntryInRange(|n.kids|, r))
      && (forall kid :: kid in n.kids ==> InRange(kid.node))
  }

  lemma {:induction false} MoveKeepsRange(schema: Schema, n: Node, mv: Move)
    requires InRange(n) && Apply(schema, n, mv).Some?
    ensures InRange(Apply(schema, n, mv).value.node)
    decreases mv
  {
    if n.Nest? {
      match mv
      case Inside(i, sub) =>
        assert n.kids[i] in n.kids;
        MoveKeepsRange(schema, n.kids[i].node, sub);
      case Feed(i) => assert n.kids[i] in n.kids;
      case Pump(i) => assert n.kids[i] in n.kids;
      case Route => RouteKeepsRange(schema, n);
      case Begin(params) => RouteKeepsRange(schema, Begun(n, params));
      case _ =>
    }
  }

  lemma {:induction false} RouteKeepsRange(schema: Schema, n: Node)
    requires InRange(n) && n.Nest? && n.mailbox != [] && RouteEntry(schema, n).Some?
    ensures InRange(RouteEntry(schema, n).value.node)
  {
    var o := RouteEntry(schema, n).value.node;
    assert o.mailbox == n.mailbox[1..];
    forall kid | kid in o.kids ensures InRange(kid.node) {
      var i :| 0 <= i < |o.kids| && o.kids[i] == kid;
      assert n.kids[i] in n.kids && kid.node == n.kids[i].node;
    }
  }

  /** From an empty start, every reachable state is in range. */
  lemma {:induction false} RunsStayInRange(schema: Schema, w: World, steps: seq<Step>)
    requires IdleWorld(w) && Run(schema, w, steps).Some?
    ensures InRange(Run(schema, w, steps).value.world.root)
  {
    if steps == [] {
      IdleInRange(w.root);
    } else {
      var init, last := steps[..|steps| - 1], steps[|steps| - 1];
      RunsStayInRange(schema, w, init);
      var before := Run(schema, w, init).value.world;
      if last.Conduct? {
        MoveKeepsRange(schema, before.root, last.mv);
      }
    }
  }

  lemma {:induction false} IdleInRange(n: Node)
    requires Idle(n)
    ensures InRange(n)
  {
    if n.Nest? {
      forall kid | kid in n.kids ensures InRange(kid.node) {
        IdleInRange(kid.node);
      }
    }
  }

  /** In range, the target assertion and the proxy indexing never fail, and the central loop can be held up
      only by a handshake on its way to a proxy that cannot be read. */
  lemma RouteNeverAborts(schema: Schema, n: Node)
    requires n.Nest? && InRange(n) && n.mailbox != []
    ensures RouteEntry(schema, n).Some? <==>
      !(n.mailbox[0].LeftToRight? && n.mailbox[0].target < |n.kids|
        && IsCall(n.mailbox[0].m, METHOD_INITIALIZE) && schema.initialize(n.mailbox[0].m.body.params).None?)
  {
    assert n.mailbox[0] in n.mailbox;
  }

  /** A conductor that is not ready begins, with what the instantiator makes of the handshake, if and only if
      its first entry is a handshake that can be read and so can what is passed on to its first proxy, if any. */
  lemma BeginNeverAborts(schema: Schema, n: Node, params: Json)
    requires n.Nest? && InRange(n) && !n.ready && n.mailbox != []
    ensures Apply(schema, n, Begin(params)).Some? <==>
      && n.mailbox[0].LeftToRight? && IsCall(n.mailbox[0].m, METHOD_INITIALIZE)
      && schema.initialize(n.mailbox[0].m.body.params).Some?
      && (n.mailbox[0].target < |n.kids| ==> schema.initialize(params).Some?)
  {
    var begun := Begun(n, params);
    assert n.mailbox[0] in n.mailbox;
    forall r | r in begun.mailbox ensures EntryInRange(|n.kids|, r) {
      assert r == begun.mailbox[0] || r in n.mailbox;
    }
    RouteNeverAborts(schema, begun);
  }

  // ---- Nothing before the handshake ----------------------------------------------------------

  /** The components of a conductor that has not had its handshake have nothing and have done nothing. */
  predicate Waits(n: Node) {
    n.Nest? ==> forall kid :: kid in n.kids ==>
      Waits(kid.node) && (!n.ready ==> kid.down == [] && kid.up == [] && Idle(kid.node))
  }

  predicate NotReady(n: Node) { n.Nest? && !n.ready }

  lemma {:induction false} MoveKeepsWaits(schema: Schema, n: Node, mv: Move)
    requires Waits(n) && Apply(schema, n, mv).Some?
    ensures Waits(Apply(schema, n, mv).value.node)
    ensures NotReady(Apply(schema, n, mv).value.node) ==> NotReady(n) && mv.Take?
    decreases mv
  {
    if n.Nest? {
      match mv
      case Inside(i, sub) =>
        assert n.kids[i] in n.kids;
        MoveKeepsWaits(schema, n.kids[i].node, sub);
      case Feed(i) => assert n.kids[i] in n.kids;
      case Pump(i) => assert n.kids[i] in n.kids;
      case Route => RouteKeepsWaits(schema, n);
      case Begin(params) => RouteKeepsWaits(schema, Begun(n, params));
      case _ =>
    }
  }

  lemma {:induction false} RouteKeepsWaits(schema: Schema, n: Node)
    requires Waits(n) && n.Nest? && n.ready && n.mailbox != [] && RouteEntry(schema, n).Some?
    ensures Waits(RouteEntry(schema, n).value.node) && !NotReady(RouteEntry(schema, n).value.node)
  {
    var o := RouteEntry(schema, n).value.node;
    forall kid | kid in o.kids ensures Waits(kid.node) {
      var i :| 0 <= i < |o.kids| && o.kids[i] == kid;
      assert n.kids[i] in n.kids && kid.node == n.kids[i].node;
    }
  }

  /** Nobody but the client can have done anything, and nothing has come out at either end. */
  ghost predicate WaitsWorld(w: World, events: seq<Event>) {
    && Waits(w.root)
    && (NotReady(w.root) ==>
          && w.fromAgent == [] && w.toAgent == [] && w.toClient == []
          && forall e :: e in events ==> e.Sent? && e.at == 0)
  }

  /** In every run nothing reaches, or comes from, the components of a conductor before its handshake; and before that
      of the outermost nobody but the client does anything. */
  lemma {:induction false} NothingBeforeHandshake(schema: Schema, w: World, steps: seq<Step>)
    requires IdleWorld(w) && Run(schema, w, steps).Some?
    ensures WaitsWorld(Run(schema, w, steps).value.world, Run(schema, w, steps).value.events)
  {
    if steps == [] {
      IdleWaits(w.root);
    } else {
      var init, last := steps[..|steps| - 1], steps[|steps| - 1];
      NothingBeforeHandshake(schema, w, init);
      var before := Run(schema, w, init).value;
      if last.Conduct? {
        MoveKeepsWaits(schema, before.world.root, last.mv);
      }
    }
  }

  lemma {:induction false} IdleWaits(n: Node)
    requires Idle(n)
    ensures Waits(n)
  {
    if n.Nest? {
      forall kid | kid in n.kids ensures Waits(kid.node) {
        IdleWaits(kid.node);
      }
    }
  }

  // ---- One handshake each --------------------------------------------------------------------

  /** A handshake that has come to the conductor from its left. */
  predicate FromLeft(r: Routed) {
    r.LeftToRight? && r.target == 0 && IsCall(r.m, METHOD_INITIALIZE)
  }

  /** The conductor has one only if it is not ready, and before everything else. */
  predicate HandshakeOnce(n: Node) {
    n.Nest? ==> forall j :: 0 <= j < |n.mailbox| && FromLeft(n.mailbox[j]) ==> j == 0 && !n.ready
  }

  predicate OnceInside(n: Node) {
    n.Nest? ==> forall kid :: kid in n.kids ==> HandshakeOnce(kid.node) && OnceInside(kid.node)
  }

  lemma {:induction false} RouteKeepsInside(schema: Schema, n: Node)
    requires n.Nest? && n.mailbox != [] && RouteEntry(schema, n).Some? && OnceInside(n)
    ensures OnceInside(RouteEntry(schema, n).value.node)
  {
    var o := RouteEntry(schema, n).value.node;
    forall kid | kid in o.kids ensures HandshakeOnce(kid.node) && OnceInside(kid.node) {
      var i :| 0 <= i < |o.kids| && o.kids[i] == kid;
      assert n.kids[i] in n.kids && kid.node == n.kids[i].node;
    }
  }

  lemma RouteTakesFirst(schema: Schema, n: Node)
    requires n.Nest? && n.mailbox != [] && RouteEntry(schema, n).Some?
    requires forall j :: 0 < j < |n.mailbox| ==> !FromLeft(n.mailbox[j])
    ensures HandshakeOnce(RouteEntry(schema, n).value.node)
  {
    assert RouteEntry(schema, n).value.node.mailbox == n.mailbox[1..];
  }

  lemma {:induction false} FeedKeepsOnce(n: Node, i: nat)
    requires n.Nest? && OnceInside(n) && ApplyFeed(n, i).Some?
    ensures OnceInside(ApplyFeed(n, i).value.node)
  {
    assert n.kids[i] in n.kids;
    var o := ApplyFeed(n, i).value.node;
    forall kid | kid in o.kids ensures HandshakeOnce(kid.node) && OnceInside(kid.node) {
      if kid !in n.kids {
        assert kid == o.kids[i];
      }
    }
  }

  lemma {:induction false} MoveKeepsOnce(schema: Schema, n: Node, mv: Move)
    requires OnceInside(n) && Apply(schema, n, mv).Some?
    ensures OnceInside(Apply(schema, n, mv).value.node)
    ensures HandshakeOnce(n) && !mv.Take? ==> HandshakeOnce(Apply(schema, n, mv).value.node)
    decreases mv
  {
    if n.Nest? {
      match mv
      case Inside(i, sub) =>
        assert n.kids[i] in n.kids;
        MoveKeepsOnce(schema, n.kids[i].node, sub);
      case Feed(i) => FeedKeepsOnce(n, i);
      case Pump(i) => assert n.kids[i] in n.kids;
      case Route =>
        RouteKeepsInside(schema, n);
        if HandshakeOnce(n) {
          RouteTakesFirst(schema, n);
        }
      case Begin(params) =>
        RouteKeepsInside(schema, Begun(n, params));
        if HandshakeOnce(n) {
          RouteTakesFirst(schema, Begun(n, params));
        }
      case _ =>
    }
  }

  /** In every run each conductor inside the chain is given one handshake at most, and before anything else. */
  lemma {:induction false} OneHandshakeEach(schema: Schema, w: World, steps: seq<Step>)
    requires IdleWorld(w) && Run(schema, w, steps).Some?
    ensures OnceInside(Run(schema, w, steps).value.world.root)
  {
    if steps == [] {
      IdleOnce(w.root);
    } else {
      var init, last := steps[..|steps| - 1], steps[|steps| - 1];
      OneHandshakeEach(schema, w, init);
      var before := Run(schema, w, init).value.world;
      if last.Conduct? {
        MoveKeepsOnce(schema, before.root, last.mv);
      }
    }
  }

  lemma {:induction false} IdleOnce(n: Node)
    requires Idle(n)
    ensures OnceInside(n) && HandshakeOnce(n)
  {
    if n.Nest? {
      forall kid | kid in n.kids ensures HandshakeOnce(kid.node) && OnceInside(kid.node) {
        IdleOnce(kid.node);
      }
    }
  }

  // ---- What reaches the agent ----------------------------------------------------------------

  /** What is on its way to the agent, or has come to it, leaves the chain in the form in which it is sent on. */
  ghost predicate InForm(schema: Schema, places: nat, w: World, events: seq<Event>) {
    && (forall m :: m in w.toAgent ==> AgentForm(schema, m) == Forward(m))
    && forall e :: e in events && e.Received? && e.at == places - 1 && e.dir == Rightward ==> AgentForm(schema, e.m) == Forward(e.m)
  }

  lemma {:induction false} ReceivedInside(schema: Schema, n: Node, mv: Move)
    requires Apply(schema, n, mv).Some? && Apply(schema, n, mv).value.event.Some?
    ensures Apply(schema, n, mv).value.event.value.at < Leaves(n)
  {
    MoveRespects(Rightward, schema, n, mv);
  }

  /** In every run the agent gets only what it is to get as it is: no MCP message for a bridge, no handshake of a proxy,
      no session with servers that are still to be redirected. */
  lemma {:induction false} AgentGetsInForm(schema: Schema, w: World, steps: seq<Step>)
    requires IdleWorld(w) && Run(schema, w, steps).Some?
    ensures Places(Run(schema, w, steps).value.world) == Places(w)
    ensures InForm(schema, Places(w), Run(schema, w, steps).value.world, Run(schema, w, steps).value.events)
  {
    if steps != [] {
      var init, last := steps[..|steps| - 1], steps[|steps| - 1];
      AgentGetsInForm(schema, w, init);
      var before := Run(schema, w, init).value;
      StepIsLinkStep(Rightward, schema, before.world, last);
      StepInForm(schema, before.world, before.events, last);
    }
  }

  lemma StepInForm(schema: Schema, w: World, events: seq<Event>, step: Step)
    requires InForm(schema, Places(w), w, events) && Advance(schema, w, step).Some?
    ensures var r := Advance(schema, w, step).value;
      InForm(schema, Places(w), r.world, events + if r.event.Some? then [r.event.value] else [])
  {
    match step
    case AgentReceives => assert w.toAgent[0] in w.toAgent;
    case Conduct(mv) =>
      ConductMoves(schema, w, mv);
      if Apply(schema, w.root, mv).value.event.Some? {
        ReceivedInside(schema, w.root, mv);
      }
    case _ =>
  }

  // ---- No message is stuck -------------------------------------------------------------------

  predicate Quiet(m: Traffic) { !IsCall(m, METHOD_INITIALIZE) }

  predicate QuietWire(w: Wire) {
    if IsWrapped(w) then Quiet(Inner(w)) else !IsCall(w, METHOD_INITIALIZE_PROXY) && Quiet(w)
  }

  /** Every conductor has had its handshake and none is under way. */
  predicate AfterHandshake(n: Node) {
    n.Nest? ==>
      && n.ready
      && (forall r :: r in n.mailbox ==> Quiet(r.m))
      && (forall kid :: kid in n.kids ==>
            && (forall w :: w in kid.down ==> QuietWire(w))
            && (forall w :: w in kid.up ==> QuietWire(w))
            && AfterHandshake(kid.node))
  }

  /** A move that needs no component to send: pumping, routing, and components taking what has arrived. */
  predicate Delivers(mv: Move) {
    match mv
    case Inside(_, sub) => Delivers(sub)
    case Pump(_) => true
    case Route => true
    case Feed(_) => true
    case _ => false
  }

  /** After the handshake, as long as anything is in flight inside a node, something can be delivered. */
  lemma {:induction false} NothingIsStuck(schema: Schema, n: Node) returns (mv: Move)
    requires InRange(n) && AfterHandshake(n) && !Idle(n)
    ensures Delivers(mv) && Apply(schema, n, mv).Some?
  {
    if n.mailbox != [] {
      mv := Route;
      assert n.mailbox[0] in n.mailbox;
      RouteNeverAborts(schema, n);
    } else {
      var kid :| kid in n.kids && !(kid.down == [] && kid.up == [] && Idle(kid.node));
      var i :| 0 <= i < |n.kids| && n.kids[i] == kid;
      if kid.down != [] {
        assert kid.down[0] in kid.down;
        mv := Feed(i);
      } else if kid.up != [] {
        assert kid.up[0] in kid.up;
        mv := Pump(i);
      } else {
        var sub := NothingIsStuck(schema, kid.node);
        mv := Inside(i, sub);
      }
    }
  }

  /** And traffic without handshakes keeps it so. */
  lemma {:induction false} MoveKeepsAfterHandshake(schema: Schema, n: Node, mv: Move)
    requires AfterHandshake(n) && Apply(schema, n, mv).Some?
    requires mv.Take? ==> Quiet(mv.m)
    requires var e := Apply(schema, n, mv).value.event; e.Some? ==> Quiet(e.value.m)
    ensures var o := Apply(schema, n, mv).value;
      AfterHandshake(o.node) && (o.gives.Some? ==> Quiet(o.gives.value.m))
    decreases mv
  {
    if n.Nest? {
      match mv
      case Inside(i, sub) =>
        assert n.kids[i] in n.kids;
        MoveKeepsAfterHandshake(schema, n.kids[i].node, sub);
        InsideKeepsAfterHandshake(n, i, Apply(schema, n.kids[i].node, sub).value);
      case Feed(i) => FeedKeepsAfterHandshake(n, i);
      case Pump(i) => PumpKeepsAfterHandshake(n, i);
      case Route => RouteKeepsAfterHandshake(schema, n);
      case _ =>
    }
  }

  lemma {:induction false} FeedKeepsAfterHandshake(n: Node, i: nat)
    requires n.Nest? && AfterHandshake(n) && ApplyFeed(n, i).Some?
    ensures AfterHandshake(ApplyFeed(n, i).value.node)
  {
    assert n.kids[i] in n.kids && n.kids[i].down[0] in n.kids[i].down;
  }

  lemma {:induction false} PumpKeepsAfterHandshake(n: Node, i: nat)
    requires n.Nest? && AfterHandshake(n) && ApplyPump(n, i).Some?
    ensures AfterHandshake(ApplyPump(n, i).value.node)
  {
    assert n.kids[i] in n.kids && n.kids[i].up[0] in n.kids[i].up;
  }

  lemma {:induction false} InsideKeepsAfterHandshake(n: Node, i: nat, o: Outcome)
    requires n.Nest? && AfterHandshake(n) && i < |n.kids|
    requires AfterHandshake(o.node) && (o.gives.Some? ==> Quiet(o.gives.value.m))
    ensures AfterHandshake(n.(kids := n.kids[i := AfterInside(n, i, o)]))
  {
    assert n.kids[i] in n.kids;
    if o.gives.Some? {
      UnwrapWrap(o.gives.value.m);
    }
  }

  lemma {:induction false} RouteKeepsAfterHandshake(schema: Schema, n: Node)
    requires n.Nest? && AfterHandshake(n) && n.mailbox != [] && RouteEntry(schema, n).Some?
    ensures var o := RouteEntry(schema, n).value;
      AfterHandshake(o.node) && (o.gives.Some? ==> Quiet(o.gives.value.m))
  {
    var m, o := n.mailbox[0].m, RouteEntry(schema, n).value.node;
    assert n.mailbox[0] in n.mailbox;
    UnwrapWrap(m);
    assert o.mailbox == n.mailbox[1..];
    forall kid | kid in o.kids
      ensures (forall w :: w in kid.down ==> QuietWire(w)) && (forall w :: w in kid.up ==> QuietWire(w)) && AfterHandshake(kid.node)
    {
      var i :| 0 <= i < |o.kids| && o.kids[i] == kid;
      assert n.kids[i] in n.kids && kid.node == n.kids[i].node;
    }
  }
}
