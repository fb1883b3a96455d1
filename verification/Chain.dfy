// A whole chain: a client, an agent-mode conductor with components nested to any depth, an agent.

module Chain {
  import opened Outcomes
  import opened Messages
  import opened Envelope
  import opened Routing
  import opened GapLists
  import opened ProxyTree
  import opened ProxyTreeMoves

  /** The queues between the client, the outermost conductor and the agent. */
  datatype World = World(
    fromClient: seq<Traffic>, toClient: seq<Traffic>,
    fromAgent: seq<Traffic>, toAgent: seq<Traffic>,
    root: Node)

  datatype Step =
    | ClientSends(m: Traffic)
    | AgentSends(m: Traffic)
    | ClientReceives
    | AgentReceives
    | FromClient            // the conductor's handler for client messages
    | FromAgent             // the conductor's handler for agent messages
    | Conduct(mv: Move)       // a move of the conductor or of a component

  /** Places are counted from the client, 0, over the leaves from left to right, to the agent. */
  datatype Stepped = Stepped(world: World, event: Option<Event>)

  function Places(w: World): nat { Leaves(w.root) + 2 }

  function Advance(schema: Schema, w: World, step: Step): Option<Stepped> {
    match step
    case ClientSends(m) => Some(Stepped(w.(fromClient := w.fromClient + [m]), Some(Sent(0, Rightward, m))))
    case AgentSends(m) =>
      // The agent is spawned together with the outermost proxies.
      if w.root.Nest? && !w.root.ready then None else
      Some(Stepped(w.(fromAgent := w.fromAgent + [m]), Some(Sent(Places(w) - 1, Leftward, m))))
    case ClientReceives =>
      if w.toClient == [] then None else
      Some(Stepped(w.(toClient := w.toClient[1..]), Some(Received(0, Leftward, w.toClient[0]))))
    case AgentReceives =>
      if w.toAgent == [] then None else
      Some(Stepped(w.(toAgent := w.toAgent[1..]), Some(Received(Places(w) - 1, Rightward, w.toAgent[0]))))
    case FromClient =>
      if w.root.Leaf? || w.fromClient == [] then None else
      var o := ApplyTake(w.root, Give(Rightward, w.fromClient[0]));
      Some(Stepped(w.(fromClient := w.fromClient[1..], root := o.node), None))
    case FromAgent =>
      if w.root.Leaf? || w.fromAgent == [] then None else
      var o := ApplyTake(w.root, Give(Leftward, w.fromAgent[0]));
      Some(Stepped(w.(fromAgent := w.fromAgent[1..], root := o.node), None))
    case Conduct(mv) =>
      if w.root.Leaf? || mv.Take? then None else
      match Apply(schema, w.root, mv)
      case None => None
      case Some(o) =>
        // Bridged messages and redirected sessions leave the chain in another form.
        match o.gives
        case Some(Give(Rightward, m)) =>
          if AgentForm(schema, m) != Forward(m) then None else Some(Stepped(Moved(w, o), ShiftEvent(o.event, 1)))
        case _ => Some(Stepped(Moved(w, o), ShiftEvent(o.event, 1)))
  }

  /** The conductor has moved, and what it gives has joined the queue at that end. */
  function Moved(w: World, o: Outcome): World {
    match o.gives
    case None => w.(root := o.node)
    case Some(Give(Leftward, m)) => w.(root := o.node, toClient := w.toClient + [m])
    case Some(Give(Rightward, m)) => w.(root := o.node, toAgent := w.toAgent + [m])
  }

  function First(dir: Direction, w: World): seq<Traffic> {
    Erased(if dir == Rightward then w.fromClient else w.fromAgent)
  }

  function Last(dir: Direction, w: World): seq<Traffic> {
    Erased(if dir == Rightward then w.toAgent else w.toClient)
  }

  /** The messages in flight between each two neighbouring places, in the direction of travel, up to the
      parameters of handshakes. */
  function InFlight(dir: Direction, w: World): Gaps<Traffic> {
    Join([First(dir, w)], Join(GapsOf(dir, w.root), [Last(dir, w)]))
  }

  // ---- One step ------------------------------------------------------------------------------

  /** How an event changes what is in flight: the spec of a row of plain first-in-first-out links. */
  ghost predicate LinkStep(dir: Direction, places: nat, g: Gaps<Traffic>, e: Option<Event>, g': Gaps<Traffic>) {
    match e
    case None => g' == g
    case Some(Sent(at, d, m)) =>
      if d != dir then g' == g else
      at < places && Travel(dir, places, at) < |g| && g' == Append(g, Travel(dir, places, at), Erase(m))
    case Some(Received(at, d, m)) =>
      if d != dir then g' == g else
      at < places && Travel(dir, places, at) > 0 && AtHead(g, Travel(dir, places, at) - 1, Erase(m))
      && g' == Pop(g, Travel(dir, places, at) - 1)
  }

  /** Every step of the chain, with its queues, mailboxes and nested conductors, is a step of the links. */
  lemma StepIsLinkStep(dir: Direction, schema: Schema, w: World, step: Step)
    requires Advance(schema, w, step).Some?
    ensures var r := Advance(schema, w, step).value;
      && Places(r.world) == Places(w)
      && LinkStep(dir, Places(w), InFlight(dir, w), r.event, InFlight(dir, r.world))
  {
    match step
    case ClientSends(_) => SendIsLinkStep(dir, schema, w, step);
    case AgentSends(_) => SendIsLinkStep(dir, schema, w, step);
    case ClientReceives => ReceiveIsLinkStep(dir, schema, w, step);
    case AgentReceives => ReceiveIsLinkStep(dir, schema, w, step);
    case FromClient => EnterRespects(dir, w, Give(Rightward, w.fromClient[0]));
    case FromAgent => EnterRespects(dir, w, Give(Leftward, w.fromAgent[0]));
    case Conduct(mv) => InnerRespects(dir, schema, w, mv);
  }

  /** The conductor takes the oldest message of a queue before it. */
  lemma {:induction false} EnterRespects(dir: Direction, w: World, g: Give)
    requires w.root.Nest?
    requires var queue := if g.dir == Rightward then w.fromClient else w.fromAgent; queue != [] && queue[0] == g.m
    ensures var root := ApplyTake(w.root, g).node;
      var w' := if g.dir == Rightward then w.(fromClient := w.fromClient[1..], root := root)
                else w.(fromAgent := w.fromAgent[1..], root := root);
      Places(w') == Places(w) && InFlight(dir, w') == InFlight(dir, w)
  {
    TakeRespects(dir, w.root, g);
    if g.dir == dir {
      ErasedRest(if dir == Rightward then w.fromClient else w.fromAgent);
      Entered(First(dir, w), GapsOf(dir, w.root), Last(dir, w));
    }
  }

  lemma {:induction false} Entered(first: seq<Traffic>, g: Gaps<Traffic>, last: seq<Traffic>)
    requires first != []
    ensures Join([first[1..]], Join(Append(g, 0, first[0]), [last])) == Join([first], Join(g, [last]))
  {
    TakeFromBuffer<Traffic>(first, Join(g, [last]), NoChange);
    JoinAppendLeft(g, [last], 0, first[0]);
  }

  /** A change inside the conductor, seen from outside. */
  lemma {:induction false} ChangeInChain(first: seq<Traffic>, g: Gaps<Traffic>, last: seq<Traffic>, c: Change<Traffic>)
    requires Possible(g, c)
    ensures var whole := Join([first], Join(g, [last]));
            Possible(whole, c) && Join([first], Join(After(g, c), [last])) == After(whole, c)
  {
    ChangeBefore(g, [last], c);
    ChangeBehind([first], Join(g, [last]), c);
    assert Shift(c, 0) == c;
  }

  /** And when the conductor also gives a message to the queue after it. */
  lemma {:induction false} GiveInChain(first: seq<Traffic>, g: Gaps<Traffic>, last: seq<Traffic>, c: Change<Traffic>, m: Traffic)
    requires Possible(g, c) && AtHead(After(g, c), |g| - 1, m)
    ensures var whole := Join([first], Join(g, [last]));
      && Possible(whole, c)
      && Join([first], Join(Pop(After(g, c), |g| - 1), [last + [m]])) == After(whole, c)
  {
    GiveToBuffer(g, last, c, m);
    ChangeBehind([first], Join(g, [last]), c);
    assert Shift(c, 0) == c;
  }

  /** A change inside the conductor is the same change of the chain. */
  lemma {:induction false} MovedChanges(dir: Direction, w: World, o: Outcome)
    requires Respects(dir, w.root, None, o)
    ensures var c := ChangeOf(dir, Leaves(w.root), o.event);
      Possible(InFlight(dir, w), c) && InFlight(dir, Moved(w, o)) == After(InFlight(dir, w), c)
  {
    var c, g := ChangeOf(dir, Leaves(w.root), o.event), GapsOf(dir, w.root);
    assert First(dir, Moved(w, o)) == First(dir, w);
    if o.gives.Some? && o.gives.value.dir == dir {
      ErasedAppend(if dir == Rightward then w.toAgent else w.toClient, o.gives.value.m);
      GiveInChain(First(dir, w), g, Last(dir, w), c, Erase(o.gives.value.m));
    } else {
      ChangeInChain(First(dir, w), g, Last(dir, w), c);
    }
  }

  /** Leaf places are one to the right of the client, in the chain as in its changes. */
  lemma {:induction false} EventInChain(dir: Direction, leaves: nat, e: Option<Event>, g: Gaps<Traffic>)
    requires |g| == leaves + 1 && (e.Some? ==> e.value.at < leaves)
    requires Possible(g, ChangeOf(dir, leaves, e))
    ensures LinkStep(dir, leaves + 2, g, ShiftEvent(e, 1), After(g, ChangeOf(dir, leaves, e)))
  {
  }

  lemma {:induction false} InnerRespects(dir: Direction, schema: Schema, w: World, mv: Move)
    requires Advance(schema, w, Conduct(mv)).Some?
    ensures var r := Advance(schema, w, Conduct(mv)).value;
      && Places(r.world) == Places(w)
      && LinkStep(dir, Places(w), InFlight(dir, w), r.event, InFlight(dir, r.world))
  {
    ConductMoves(schema, w, mv);
    MoveRespects(dir, schema, w.root, mv);
    GapCount(dir, w.root);
    ConductRespects(dir, w, Apply(schema, w.root, mv).value);
  }

  lemma ConductMoves(schema: Schema, w: World, mv: Move)
    requires Advance(schema, w, Conduct(mv)).Some?
    ensures w.root.Nest? && !mv.Take? && Apply(schema, w.root, mv).Some?
    ensures var o := Apply(schema, w.root, mv).value;
      Advance(schema, w, Conduct(mv)).value == Stepped(Moved(w, o), ShiftEvent(o.event, 1))
  {
  }

  lemma {:induction false} ConductRespects(dir: Direction, w: World, o: Outcome)
    requires Respects(dir, w.root, None, o) && |GapsOf(dir, w.root)| == Leaves(w.root) + 1
    ensures Places(Moved(w, o)) == Places(w)
    ensures LinkStep(dir, Places(w), InFlight(dir, w), ShiftEvent(o.event, 1), InFlight(dir, Moved(w, o)))
  {
    MovedChanges(dir, w, o);
    EventInChain(dir, Leaves(w.root), o.event, InFlight(dir, w));
  }

  /** The client or the agent sends a message. */
  lemma {:induction false} SendRespects(dir: Direction, w: World, g: Give)
    ensures var w' := if g.dir == Rightward then w.(fromClient := w.fromClient + [g.m])
                      else w.(fromAgent := w.fromAgent + [g.m]);
      InFlight(dir, w') == if g.dir == dir then Append(InFlight(dir, w), 0, Erase(g.m)) else InFlight(dir, w)
  {
    if g.dir == dir {
      ErasedAppend(if dir == Rightward then w.fromClient else w.fromAgent, g.m);
      JoinAppendLeft([First(dir, w)], Join(GapsOf(dir, w.root), [Last(dir, w)]), 0, Erase(g.m));
    }
  }

  lemma {:induction false} SendIsLinkStep(dir: Direction, schema: Schema, w: World, step: Step)
    requires Advance(schema, w, step).Some? && (step.ClientSends? || step.AgentSends?)
    ensures var r := Advance(schema, w, step).value;
      && Places(r.world) == Places(w)
      && LinkStep(dir, Places(w), InFlight(dir, w), r.event, InFlight(dir, r.world))
  {
    GapCount(dir, w.root);
    SendRespects(dir, w, Give(if step.ClientSends? then Rightward else Leftward, step.m));
  }

  lemma {:induction false} ReceiveIsLinkStep(dir: Direction, schema: Schema, w: World, step: Step)
    requires Advance(schema, w, step).Some? && (step.ClientReceives? || step.AgentReceives?)
    ensures var r := Advance(schema, w, step).value;
      && Places(r.world) == Places(w)
      && LinkStep(dir, Places(w), InFlight(dir, w), r.event, InFlight(dir, r.world))
  {
    GapCount(dir, w.root);
    if step.ClientReceives? {
      ReceiveRespects(dir, w, Leftward);
      EndLinkStep(dir, Places(w), InFlight(dir, w), Received(0, Leftward, w.toClient[0]),
                  InFlight(dir, Advance(schema, w, step).value.world));
    } else {
      ReceiveRespects(dir, w, Rightward);
      EndLinkStep(dir, Places(w), InFlight(dir, w), Received(Places(w) - 1, Rightward, w.toAgent[0]),
                  InFlight(dir, Advance(schema, w, step).value.world));
    }
  }

  lemma EndLinkStep(dir: Direction, places: nat, g: Gaps<Traffic>, e: Event, g': Gaps<Traffic>)
    requires places >= 2 && |g| == places - 1 && e.Received? && e.at == if e.dir == Rightward then places - 1 else 0
    requires if e.dir == dir then AtHead(g, |g| - 1, Erase(e.m)) && g' == Pop(g, |g| - 1) else g' == g
    ensures LinkStep(dir, places, g, Some(e), g')
  {
  }

  /** The client or the agent takes a message. */
  lemma {:induction false} ReceiveRespects(dir: Direction, w: World, d: Direction)
    requires (if d == Rightward then w.toAgent else w.toClient) != []
    ensures var queue := if d == Rightward then w.toAgent else w.toClient;
      var w' := if d == Rightward then w.(toAgent := queue[1..]) else w.(toClient := queue[1..]);
      var g := InFlight(dir, w);
      if d == dir then AtHead(g, |g| - 1, Erase(queue[0])) && InFlight(dir, w') == Pop(g, |g| - 1)
      else InFlight(dir, w') == g
  {
    if d == dir {
      ErasedRest(if d == Rightward then w.toAgent else w.toClient);
      LastOfChain([First(dir, w)], GapsOf(dir, w.root), Last(dir, w));
    }
  }

  lemma {:induction false} LastOfChain(a: Gaps<Traffic>, g: Gaps<Traffic>, last: seq<Traffic>)
    requires last != []
    ensures var whole := Join(a, Join(g, [last]));
      && AtHead(whole, |whole| - 1, last[0])
      && Join(a, Join(g, [last[1..]])) == Pop(whole, |whole| - 1)
  {
    var tail := Join(g, [last]);
    assert (last + g[|g| - 1])[1..] == last[1..] + g[|g| - 1];
    assert Join(g, [last[1..]]) == Pop(tail, |tail| - 1);
    JoinPopRight(a, tail, |tail| - 1, last[0]);
  }
}
