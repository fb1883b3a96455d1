// What holds over whole runs of a chain: nothing is lost, repeated, altered or overtaken between
// neighbours, however the components in between are nested.

module ChainRuns {
  import opened Outcomes
  import opened Routing
  import opened GapLists
  import opened ProxyTree
  import opened ProxyTreeMoves
  import opened Chain

  datatype Trace = Trace(world: World, events: seq<Event>)

  /** All steps of a run in order, with the visible events they cause; None if one is not possible. */
  function Run(schema: Schema, w: World, steps: seq<Step>): Option<Trace> {
    if steps == [] then Some(Trace(w, [])) else
    match Run(schema, w, steps[..|steps| - 1])
    case None => None
    case Some(t) =>
      match Advance(schema, t.world, steps[|steps| - 1])
      case None => None
      case Some(r) => Some(Trace(r.world, t.events + if r.event.Some? then [r.event.value] else []))
  }

  /** The messages that the component at place `at` sent in direction `dir`, in order, up to the parameters
      of handshakes. */
  function SentBy(dir: Direction, at: nat, events: seq<Event>): seq<Traffic> {
    if events == [] then [] else
    var e := events[|events| - 1];
    SentBy(dir, at, events[..|events| - 1]) + if e.Sent? && e.at == at && e.dir == dir then [Erase(e.m)] else []
  }

  function ReceivedBy(dir: Direction, at: nat, events: seq<Event>): seq<Traffic> {
    if events == [] then [] else
    var e := events[|events| - 1];
    ReceivedBy(dir, at, events[..|events| - 1]) + if e.Received? && e.at == at && e.dir == dir then [Erase(e.m)] else []
  }

  /** The place met `t` steps into the journey: the client is first rightward, the agent leftward. */
  function PlaceAt(dir: Direction, places: nat, t: nat): (at: nat)
    requires t < places
    ensures at < places && Travel(dir, places, at) == t
  {
    if dir == Rightward then t else places - 1 - t
  }

  // ---- The ledger ----------------------------------------------------------------------------

  lemma {:induction false} LogsOfOne(dir: Direction, at: nat, events: seq<Event>, e: Event)
    ensures SentBy(dir, at, events + [e])
         == SentBy(dir, at, events) + if e.Sent? && e.at == at && e.dir == dir then [Erase(e.m)] else []
    ensures ReceivedBy(dir, at, events + [e])
         == ReceivedBy(dir, at, events) + if e.Received? && e.at == at && e.dir == dir then [Erase(e.m)] else []
  {
    assert (events + [e])[..|events|] == events;
  }

  /** What neighbours `t` and `t + 1` hold between them: sent by the one, not yet received by the other. */
  ghost predicate Balanced(dir: Direction, g0: Gaps<Traffic>, g: Gaps<Traffic>, places: nat, t: nat, events: seq<Event>) {
    && |g0| == |g| == places - 1 && t + 1 < places
    && g0[t] + SentBy(dir, PlaceAt(dir, places, t), events)
       == ReceivedBy(dir, PlaceAt(dir, places, t + 1), events) + g[t]
  }

  lemma {:induction false} BalanceStep(dir: Direction, g0: Gaps<Traffic>, g: Gaps<Traffic>, places: nat, t: nat,
                                       events: seq<Event>, e: Event, g': Gaps<Traffic>)
    requires Balanced(dir, g0, g, places, t, events) && LinkStep(dir, places, g, Some(e), g')
    ensures Balanced(dir, g0, g', places, t, events + [e])
  {
    var from, to := PlaceAt(dir, places, t), PlaceAt(dir, places, t + 1);
    LogsOfOne(dir, from, events, e);
    LogsOfOne(dir, to, events, e);
    var sent, received := SentBy(dir, from, events), ReceivedBy(dir, to, events);
    if e.dir == dir && e.Sent? && e.at == from {
      var m := Erase(e.m);
      assert g0[t] + (sent + [m]) == (g0[t] + sent) + [m];
      assert received + (g[t] + [m]) == (received + g[t]) + [m];
    } else if e.dir == dir && e.Received? && e.at == to {
      var m := Erase(e.m);
      assert g[t] == [m] + g'[t];
      assert received + ([m] + g'[t]) == (received + [m]) + g'[t];
    }
    assert sent + [] == sent && received + [] == received;
  }

  /** In every run, between every two neighbours and in both directions, the messages in flight at the
      start and those sent since are, in order, those received and those still in flight. */
  lemma {:induction false} Ledger(dir: Direction, schema: Schema, w: World, steps: seq<Step>, t: nat)
    requires Run(schema, w, steps).Some? && t + 1 < Places(w)
    ensures var trace := Run(schema, w, steps).value;
      && Places(trace.world) == Places(w)
      && Balanced(dir, InFlight(dir, w), InFlight(dir, trace.world), Places(w), t, trace.events)
  {
    GapCount(dir, w.root);
    if steps != [] {
      var init, last := steps[..|steps| - 1], steps[|steps| - 1];
      Ledger(dir, schema, w, init, t);
      var before := Run(schema, w, init).value;
      StepIsLinkStep(dir, schema, before.world, last);
      var r := Advance(schema, before.world, last).value;
      GapCount(dir, r.world.root);
      if r.event.Some? {
        BalanceStep(dir, InFlight(dir, w), InFlight(dir, before.world), Places(w), t, before.events,
                    r.event.value, InFlight(dir, r.world));
      } else {
        assert before.events + [] == before.events;
      }
    }
  }

  // ---- Chains that start empty ---------------------------------------------------------------

  /** Nothing is in flight anywhere inside the node. */
  predicate Idle(n: Node) {
    n.Nest? ==> n.mailbox == [] && forall k :: k in n.kids ==> k.down == [] && k.up == [] && Idle(k.node)
  }

  predicate IdleWorld(w: World) {
    w.fromClient == [] && w.toClient == [] && w.fromAgent == [] && w.toAgent == [] && Idle(w.root)
  }

  ghost predicate AllEmpty(g: Gaps<Traffic>) { forall i :: 0 <= i < |g| ==> g[i] == [] }

  lemma {:induction false} EmptyLine(mails: seq<seq<Traffic>>, stages: seq<Stage<Traffic>>)
    requires |mails| == |stages| + 1
    requires forall p :: 0 <= p < |mails| ==> mails[p] == []
    requires forall p :: 0 <= p < |stages| ==> stages[p].down == [] && stages[p].up == [] && AllEmpty(stages[p].inside)
    ensures AllEmpty(Line(mails, stages))
  {
    if stages != [] {
      var ms, ss := mails[1..], stages[1..];
      assert forall p :: 0 <= p < |ms| ==> ms[p] == mails[p + 1];
      assert forall p :: 0 <= p < |ss| ==> ss[p] == stages[p + 1];
      EmptyLine(ms, ss);
      assert AllEmpty(stages[0].inside);
      EmptyJoin(stages[0].inside, [stages[0].up]);
      EmptyJoin([stages[0].down], Join(stages[0].inside, [stages[0].up]));
      EmptyJoin([mails[0]], StageGaps(stages[0]));
      EmptyJoin(Join([mails[0]], StageGaps(stages[0])), Line(ms, ss));
    }
  }

  lemma EmptyJoin(g: Gaps<Traffic>, h: Gaps<Traffic>)
    requires AllEmpty(g) && AllEmpty(h)
    ensures AllEmpty(Join(g, h))
  {
    assert g[|g| - 1] == [] && h[0] == [];
  }

  lemma {:induction false} IdleGaps(dir: Direction, n: Node)
    requires Idle(n)
    ensures AllEmpty(GapsOf(dir, n))
  {
    if n.Nest? {
      var stages := StagesOf(dir, n.kids);
      forall p | 0 <= p < |stages|
        ensures stages[p].down == [] && stages[p].up == [] && AllEmpty(stages[p].inside)
      {
        var kid := n.kids[Place(dir, |n.kids|, p)];
        assert stages[p] == StageOf(dir, kid);
        assert kid in n.kids;
        IdleGaps(dir, kid.node);
      }
      EmptyLine(Mails(dir, n.mailbox, |n.kids|), stages);
    }
  }

  lemma IdleInFlight(dir: Direction, w: World)
    requires IdleWorld(w)
    ensures AllEmpty(InFlight(dir, w))
  {
    IdleGaps(dir, w.root);
    assert Last(dir, w) == [] && First(dir, w) == [];
    EmptyJoin(GapsOf(dir, w.root), [Last(dir, w)]);
    EmptyJoin([First(dir, w)], Join(GapsOf(dir, w.root), [Last(dir, w)]));
  }

  /** From an empty start, what a component received is a prefix of what its neighbour sent, and the
      rest is exactly what is in flight between them. */
  lemma {:induction false} LedgerFromIdle(dir: Direction, schema: Schema, w: World, steps: seq<Step>, t: nat)
    requires IdleWorld(w) && Run(schema, w, steps).Some? && t + 1 < Places(w)
    ensures var trace := Run(schema, w, steps).value;
      && |InFlight(dir, trace.world)| == Places(w) - 1
      && SentBy(dir, PlaceAt(dir, Places(w), t), trace.events)
         == ReceivedBy(dir, PlaceAt(dir, Places(w), t + 1), trace.events) + InFlight(dir, trace.world)[t]
  {
    Ledger(dir, schema, w, steps, t);
    IdleInFlight(dir, w);
    var sent := SentBy(dir, PlaceAt(dir, Places(w), t), Run(schema, w, steps).value.events);
    assert [] + sent == sent;
  }

  /** Each component has received a prefix of what its neighbour sent. */
  ghost predicate InOrder(dir: Direction, places: nat, events: seq<Event>) {
    forall t :: 0 < t < places ==>
      ReceivedBy(dir, PlaceAt(dir, places, t), events) <= SentBy(dir, PlaceAt(dir, places, t - 1), events)
  }

  /** Each component has received all that its neighbour sent. */
  ghost predicate Settled(dir: Direction, places: nat, events: seq<Event>) {
    forall t :: 0 < t < places ==>
      ReceivedBy(dir, PlaceAt(dir, places, t), events) == SentBy(dir, PlaceAt(dir, places, t - 1), events)
  }

  lemma {:induction false} RunsAreInOrder(dir: Direction, schema: Schema, w: World, steps: seq<Step>)
    requires IdleWorld(w) && Run(schema, w, steps).Some?
    ensures var trace := Run(schema, w, steps).value;
      && InOrder(dir, Places(w), trace.events)
      && (Settled(dir, Places(w), trace.events) <==> AllEmpty(InFlight(dir, trace.world)))
  {
    var trace, places := Run(schema, w, steps).value, Places(w);
    var g := InFlight(dir, trace.world);
    LedgerFromIdle(dir, schema, w, steps, 0);
    forall t | 0 <= t < |g| ensures Owes(dir, places, trace.events, t, g[t]) {
      LedgerFromIdle(dir, schema, w, steps, t);
    }
    OrderFromDebts(dir, places, trace.events, g);
  }

  /** The neighbours at `t` and `t + 1` have exactly `q` between them. */
  ghost predicate Owes(dir: Direction, places: nat, events: seq<Event>, t: nat, q: seq<Traffic>)
    requires t + 1 < places
  {
    SentBy(dir, PlaceAt(dir, places, t), events) == ReceivedBy(dir, PlaceAt(dir, places, t + 1), events) + q
  }

  lemma {:induction false} OrderFromDebts(dir: Direction, places: nat, events: seq<Event>, g: Gaps<Traffic>)
    requires |g| == places - 1 && forall t :: 0 <= t < |g| ==> Owes(dir, places, events, t, g[t])
    ensures InOrder(dir, places, events)
    ensures Settled(dir, places, events) <==> AllEmpty(g)
  {
    forall t | 0 < t < places
      ensures ReceivedBy(dir, PlaceAt(dir, places, t), events) <= SentBy(dir, PlaceAt(dir, places, t - 1), events)
      ensures ReceivedBy(dir, PlaceAt(dir, places, t), events) == SentBy(dir, PlaceAt(dir, places, t - 1), events)
          <==> g[t - 1] == []
    {
      assert Owes(dir, places, events, t - 1, g[t - 1]);
    }
    if Settled(dir, places, events) {
      forall t | 0 <= t < |g| ensures g[t] == [] {
        var next := t + 1;
        assert ReceivedBy(dir, PlaceAt(dir, places, next), events) == SentBy(dir, PlaceAt(dir, places, next - 1), events);
      }
    }
  }

  // ---- Forwarding proxies --------------------------------------------------------------------

  /** What of a message is looked at, when proxies may change the rest. */
  type View = Traffic -> Traffic

  function Seen(view: View, ms: seq<Traffic>): (r: seq<Traffic>)
    ensures |r| == |ms|
  {
    seq(|ms|, i requires 0 <= i < |ms| => view(ms[i]))
  }

  lemma SeenWhole(ms: seq<Traffic>)
    ensures Seen(m => m, ms) == ms
  {
  }

  lemma SeenPrefix(view: View, a: seq<Traffic>, b: seq<Traffic>)
    requires a <= b
    ensures Seen(view, a) <= Seen(view, b)
  {
  }

  /** Every proxy has forwarded, in order and as far as `view` shows unaltered, a prefix of what it received. */
  ghost predicate AllForward(view: View, dir: Direction, places: nat, events: seq<Event>) {
    forall t :: 0 < t < places - 1 ==>
      Seen(view, SentBy(dir, PlaceAt(dir, places, t), events)) <= Seen(view, ReceivedBy(dir, PlaceAt(dir, places, t), events))
  }

  /** Every proxy has forwarded all it received. */
  ghost predicate AllForwarded(view: View, dir: Direction, places: nat, events: seq<Event>) {
    forall t :: 0 < t < places - 1 ==>
      Seen(view, SentBy(dir, PlaceAt(dir, places, t), events)) == Seen(view, ReceivedBy(dir, PlaceAt(dir, places, t), events))
  }

  lemma {:induction false} PrefixOfFirst(view: View, dir: Direction, places: nat, events: seq<Event>, t: nat)
    requires InOrder(dir, places, events) && AllForward(view, dir, places, events) && 0 < t < places
    ensures var received := Seen(view, ReceivedBy(dir, PlaceAt(dir, places, t), events));
      && received <= Seen(view, SentBy(dir, PlaceAt(dir, places, 0), events))
      && (t > 1 ==> received <= Seen(view, ReceivedBy(dir, PlaceAt(dir, places, t - 1), events)))
  {
    var received, sent := ReceivedBy(dir, PlaceAt(dir, places, t), events), SentBy(dir, PlaceAt(dir, places, t - 1), events);
    SeenPrefix(view, received, sent);
    if t > 1 {
      PrefixOfFirst(view, dir, places, events, t - 1);
      var a, b, c := Seen(view, received), Seen(view, sent),
        Seen(view, ReceivedBy(dir, PlaceAt(dir, places, t - 1), events));
      assert a <= b && b <= c;
    }
  }

  /** A chain of forwarding proxies is a direct link: in every run each component has received, in order,
      a prefix of what the client (or, leftward, the agent) sent, and of what the component before it received. */
  lemma {:induction false} ChainIsTransparent(view: View, dir: Direction, schema: Schema, w: World, steps: seq<Step>, t: nat)
    requires IdleWorld(w) && Run(schema, w, steps).Some? && 0 < t < Places(w)
    requires AllForward(view, dir, Places(w), Run(schema, w, steps).value.events)
    ensures var events, places := Run(schema, w, steps).value.events, Places(w);
      var received := Seen(view, ReceivedBy(dir, PlaceAt(dir, places, t), events));
      && received <= Seen(view, SentBy(dir, PlaceAt(dir, places, 0), events))
      && (t > 1 ==> received <= Seen(view, ReceivedBy(dir, PlaceAt(dir, places, t - 1), events)))
  {
    RunsAreInOrder(dir, schema, w, steps);
    PrefixOfFirst(view, dir, Places(w), Run(schema, w, steps).value.events, t);
  }

  lemma {:induction false} AllOfFirst(view: View, dir: Direction, places: nat, events: seq<Event>, t: nat)
    requires Settled(dir, places, events) && AllForwarded(view, dir, places, events) && 0 < t < places
    ensures Seen(view, ReceivedBy(dir, PlaceAt(dir, places, t), events)) == Seen(view, SentBy(dir, PlaceAt(dir, places, 0), events))
  {
    if t > 1 {
      AllOfFirst(view, dir, places, events, t - 1);
    }
  }

  /** Once nothing is in flight and every proxy has forwarded all it received, everyone has everything. */
  lemma {:induction false} ChainDelivers(view: View, dir: Direction, schema: Schema, w: World, steps: seq<Step>, t: nat)
    requires IdleWorld(w) && Run(schema, w, steps).Some? && 0 < t < Places(w)
    requires AllEmpty(InFlight(dir, Run(schema, w, steps).value.world))
    requires AllForwarded(view, dir, Places(w), Run(schema, w, steps).value.events)
    ensures var events, places := Run(schema, w, steps).value.events, Places(w);
      Seen(view, ReceivedBy(dir, PlaceAt(dir, places, t), events)) == Seen(view, SentBy(dir, PlaceAt(dir, places, 0), events))
  {
    RunsAreInOrder(dir, schema, w, steps);
    AllOfFirst(view, dir, Places(w), Run(schema, w, steps).value.events, t);
  }

  // ---- Flattening ----------------------------------------------------------------------------

  /** How a component behaves in one direction: what it has sent, given what it has received. */
  type Behaviour = seq<Traffic> -> seq<Traffic>

  ghost predicate Behaves(dir: Direction, proxies: seq<Behaviour>, events: seq<Event>) {
    forall i :: 0 <= i < |proxies| ==> BehavesAt(dir, proxies, events, i)
  }

  ghost predicate BehavesAt(dir: Direction, proxies: seq<Behaviour>, events: seq<Event>, i: nat)
    requires i < |proxies|
  {
    SentBy(dir, i + 1, events) == proxies[i](ReceivedBy(dir, i + 1, events))
  }

  lemma {:induction false} SameTraffic(dir: Direction, proxies: seq<Behaviour>, events: seq<Event>, events': seq<Event>, t: nat)
    requires t + 1 < |proxies| + 2
    requires Settled(dir, |proxies| + 2, events) && Settled(dir, |proxies| + 2, events')
    requires Behaves(dir, proxies, events) && Behaves(dir, proxies, events')
    requires var first := PlaceAt(dir, |proxies| + 2, 0); SentBy(dir, first, events) == SentBy(dir, first, events')
    ensures var at, next := PlaceAt(dir, |proxies| + 2, t), PlaceAt(dir, |proxies| + 2, t + 1);
      && SentBy(dir, at, events) == SentBy(dir, at, events')
      && ReceivedBy(dir, next, events) == ReceivedBy(dir, next, events')
  {
    if t > 0 {
      SameTraffic(dir, proxies, events, events', t - 1);
      var i := PlaceAt(dir, |proxies| + 2, t) - 1;
      assert BehavesAt(dir, proxies, events, i) && BehavesAt(dir, proxies, events', i);
    }
    assert 0 < t + 1 < |proxies| + 2;
  }

  /** These events are those of a run from an idle chain in which everything sent has arrived. */
  ghost predicate IsSettledRun(dir: Direction, schema: Schema, w: World, steps: seq<Step>, events: seq<Event>) {
    && IdleWorld(w)
    && match Run(schema, w, steps)
       case None => false
       case Some(t) => t.events == events && AllEmpty(InFlight(dir, t.world))
  }

  /** Two chains over the same proxies, nested in any two ways: once everything sent has arrived, every
      component has received and sent the same messages in the same order in both. */
  lemma {:induction false} NestingIsInvisible(dir: Direction, schema: Schema, proxies: seq<Behaviour>,
                                              w: World, steps: seq<Step>, events: seq<Event>,
                                              w': World, steps': seq<Step>, events': seq<Event>, t: nat)
    requires Places(w) == Places(w') == |proxies| + 2 && t + 1 < Places(w)
    requires IsSettledRun(dir, schema, w, steps, events) && IsSettledRun(dir, schema, w', steps', events')
    requires Behaves(dir, proxies, events) && Behaves(dir, proxies, events')
    requires var first := PlaceAt(dir, Places(w), 0); SentBy(dir, first, events) == SentBy(dir, first, events')
    ensures SentBy(dir, PlaceAt(dir, Places(w), t), events) == SentBy(dir, PlaceAt(dir, Places(w), t), events')
    ensures ReceivedBy(dir, PlaceAt(dir, Places(w), t + 1), events) == ReceivedBy(dir, PlaceAt(dir, Places(w), t + 1), events')
  {
    RunsAreInOrder(dir, schema, w, steps);
    RunsAreInOrder(dir, schema, w', steps');
    SameTraffic(dir, proxies, events, events', t);
  }

  // ---- Runs put together ----------------------------------------------------------------------

  /** Some run from `w` shows exactly `events` and ends in `w'`. */
  ghost predicate Shows(schema: Schema, w: World, events: seq<Event>, w': World) {
    exists steps :: EndsIn(schema, w, steps, Trace(w', events))
  }

  /** The trigger leaves it to `ShownBy` and `RunOf` to look at the run. */
  ghost predicate EndsIn(schema: Schema, w: World, steps: seq<Step>, t: Trace) {
    forall u {:trigger RunsTo(schema, w, steps, u)} :: RunsTo(schema, w, steps, u) <==> u == t
  }

  predicate RunsTo(schema: Schema, w: World, steps: seq<Step>, t: Trace) {
    Run(schema, w, steps) == Some(t)
  }

  lemma ShownBy(schema: Schema, w: World, steps: seq<Step>, t: Trace)
    requires Run(schema, w, steps) == Some(t)
    ensures Shows(schema, w, t.events, t.world)
  {
    forall u ensures RunsTo(schema, w, steps, u) <==> u == t {
    }
    assert EndsIn(schema, w, steps, t);
  }

  lemma RunOf(schema: Schema, w: World, events: seq<Event>, w': World) returns (steps: seq<Step>)
    requires Shows(schema, w, events, w')
    ensures Run(schema, w, steps) == Some(Trace(w', events))
  {
    steps :| EndsIn(schema, w, steps, Trace(w', events));
    assert RunsTo(schema, w, steps, Trace(w', events));
  }

  lemma OneStep(schema: Schema, w: World, step: Step)
    requires Advance(schema, w, step).Some?
    ensures var r := Advance(schema, w, step).value;
      Shows(schema, w, if r.event.Some? then [r.event.value] else [], r.world)
  {
    var r := Advance(schema, w, step).value;
    assert [step][..0] == [];
    var shown := if r.event.Some? then [r.event.value] else [];
    assert [] + shown == shown;
    ShownBy(schema, w, [step], Trace(r.world, shown));
  }

  lemma {:induction false} RunAppend(schema: Schema, w: World, steps: seq<Step>, more: seq<Step>)
    requires Run(schema, w, steps).Some?
    requires Run(schema, Run(schema, w, steps).value.world, more).Some?
    ensures var t, u := Run(schema, w, steps).value, Run(schema, Run(schema, w, steps).value.world, more).value;
      Run(schema, w, steps + more) == Some(Trace(u.world, t.events + u.events))
  {
    if more == [] {
      assert steps + more == steps;
      assert Run(schema, w, steps).value.events + [] == Run(schema, w, steps).value.events;
    } else {
      var init, last := more[..|more| - 1], more[|more| - 1];
      RunAppend(schema, w, steps, init);
      assert (steps + more)[..|steps + more| - 1] == steps + init && (steps + more)[|steps + more| - 1] == last;
      var t, u := Run(schema, w, steps).value, Run(schema, Run(schema, w, steps).value.world, init).value;
      var r := Advance(schema, u.world, last).value;
      var shown := if r.event.Some? then [r.event.value] else [];
      assert t.events + u.events + shown == t.events + (u.events + shown);
    }
  }

  lemma Then(schema: Schema, w: World, events: seq<Event>, w': World, more: seq<Event>, w'': World)
    requires Shows(schema, w, events, w') && Shows(schema, w', more, w'')
    ensures Shows(schema, w, events + more, w'')
  {
    var steps := RunOf(schema, w, events, w');
    var steps' := RunOf(schema, w', more, w'');
    RunAppend(schema, w, steps, steps');
    ShownBy(schema, w, steps + steps', Trace(w'', events + more));
  }

  lemma ThenSilently(schema: Schema, w: World, w': World, w'': World)
    requires Shows(schema, w, [], w') && Shows(schema, w', [], w'')
    ensures Shows(schema, w, [], w'')
  {
    var nothing: seq<Event> := [];
    Then(schema, w, nothing, w', nothing, w'');
    assert nothing + nothing == [];
  }
}
