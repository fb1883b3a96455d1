// In each direction of travel taken by itself, all nestings of the same proxies show the same.

module DirectionRuns {
  import opened Outcomes
  import opened Messages
  import opened Routing
  import opened GapLists
  import opened ProxyTree
  import opened ProxyTreeMoves
  import opened Chain
  import opened ChainRuns
  import opened ChainSafety
  import opened Flattening
  import opened Rows
  import opened RowChains
  import opened FlatteningRuns

  // ---- A nested chain's links ----------------------------------------------------------------

  predicate IdleKid(kid: Kid) { kid.down == [] && kid.up == [] && Idle(kid.node) }

  lemma {:induction false} IdleShape(s: Shape, links: seq<Kid>)
    requires |links| == Size(s) && forall kid :: kid in links ==> IdleKid(kid)
    ensures IdleKid(KidOf(s, links))
    decreases s
  {
    match s
    case One => assert links[0] in links;
    case Group(parts) =>
      var kids := KidsOf(parts, links);
      forall i | 0 <= i < |parts| ensures IdleKid(kids[i]) {
        KidsAt(parts, links, i);
        OffsetGrows(parts, i + 1, |parts|);
        assert forall kid :: kid in Sub(parts, links, i) ==> kid in links;
        IdleShape(parts[i], Sub(parts, links, i));
      }
  }

  lemma IdleNesting(parts: seq<Shape>)
    ensures IdleWorld(NestedChain(parts)) && Places(NestedChain(parts)) == SizeOf(parts) + 2
  {
    var links := seq(SizeOf(parts), _ => IDLE);
    IdleShape(Group(parts), links);
    LeavesOfLeaves(links);
    LeavesOfShape(Group(parts), links);
  }

  lemma {:induction false} RunLinks(dir: Direction, schema: Schema, w: World, steps: seq<Step>)
    requires IdleWorld(w) && Run(schema, w, steps).Some?
    ensures var t := Run(schema, w, steps).value;
      Places(t.world) == Places(w) && Links(dir, Places(w), t.events) == Some(InFlight(dir, t.world))
  {
    if steps == [] {
      IdleInFlight(dir, w);
      GapCount(dir, w.root);
      assert InFlight(dir, w) == seq(Places(w) - 1, _ => []);
    } else {
      var init, last := steps[..|steps| - 1], steps[|steps| - 1];
      RunLinks(dir, schema, w, init);
      var before := Run(schema, w, init).value;
      StepLinks(dir, schema, before.world, last, Places(w), before.events);
      assert Run(schema, w, steps).value.events == before.events + Shown(Advance(schema, before.world, last).value);
    }
  }

  lemma StepLinks(dir: Direction, schema: Schema, w: World, step: Step, places: nat, events: seq<Event>)
    requires places >= 2 && Places(w) == places && Links(dir, places, events) == Some(InFlight(dir, w))
    requires Advance(schema, w, step).Some?
    ensures var r := Advance(schema, w, step).value;
      Places(r.world) == places && Links(dir, places, events + Shown(r)) == Some(InFlight(dir, r.world))
  {
    var r := Advance(schema, w, step).value;
    StepIsLinkStep(dir, schema, w, step);
    if r.event.Some? {
      assert (events + Shown(r))[..|events|] == events;
      LinkStepIs(dir, places, InFlight(dir, w), r.event.value, InFlight(dir, r.world));
    } else {
      assert events + [] == events;
    }
  }

  lemma LinkStepIs(dir: Direction, places: nat, g: Gaps<Traffic>, e: Event, g': Gaps<Traffic>)
    requires |g| == places - 1 && LinkStep(dir, places, g, Some(e), g')
    ensures LinkAfter(dir, places, g, e) == Some(g')
  {
  }

  /** The agent is only ever sent what leaves the chain as it is. */
  lemma {:induction false} AgentGetsPlain(schema: Schema, w: World, steps: seq<Step>)
    requires w.toAgent == [] && Run(schema, w, steps).Some?
    ensures var t := Run(schema, w, steps).value;
      && Places(t.world) == Places(w)
      && (forall m :: m in t.world.toAgent ==> AgentForm(schema, m) == Forward(m))
      && (forall e :: e in t.events && e.Received? && e.at == Places(w) - 1 ==> AgentForm(schema, e.m) == Forward(e.m))
  {
    if steps != [] {
      var init, last := steps[..|steps| - 1], steps[|steps| - 1];
      AgentGetsPlain(schema, w, init);
      var before := Run(schema, w, init).value;
      StepIsLinkStep(Rightward, schema, before.world, last);
      AgentStepPlain(schema, before.world, last);
    }
  }

  lemma AgentStepPlain(schema: Schema, w: World, step: Step)
    requires Advance(schema, w, step).Some? && forall m :: m in w.toAgent ==> AgentForm(schema, m) == Forward(m)
    ensures var r := Advance(schema, w, step).value;
      && (forall m :: m in r.world.toAgent ==> AgentForm(schema, m) == Forward(m))
      && (r.event.Some? && r.event.value.Received? && r.event.value.at == Places(w) - 1 ==>
            AgentForm(schema, r.event.value.m) == Forward(r.event.value.m))
  {
    if step.Conduct? {
      MoveRespects(Rightward, schema, w.root, step.mv);
    }
  }

  // ---- Messages that wait with their senders -------------------------------------------------

  ghost predicate QuietGaps(g: Gaps<Traffic>) { forall t :: 0 <= t < |g| ==> AllQuiet(g[t]) }

  /** Everything in flight has yet to leave its sender. */
  function LazyRow(dir: Direction, places: nat, g: Gaps<Traffic>): (r: Row<Calm>)
    requires |g| == places - 1 && forall t :: 0 <= t < |g| ==> AllQuiet(g[t])
    ensures Fits(places, r)
  {
    Row(seq(places, _ => []),
        seq(places, at requires 0 <= at < places =>
          if Travel(dir, places, at) < places - 1 then Gives(dir, g[Travel(dir, places, at)]) else []))
  }

  lemma LazySent(dir: Direction, places: nat, g: Gaps<Traffic>, e: Event, g': Gaps<Traffic>)
    requires |g| == places - 1 && QuietGaps(g) && LinkAfter(dir, places, g, e) == Some(g')
    requires e.dir == dir && e.Sent? && Quiet(e.m)
    ensures QuietGaps(g') && Do(LazyRow(dir, places, g), Happens(e)) == Some(LazyRow(dir, places, g'))
  {
    var t := Travel(dir, places, e.at);
    assert Erase(e.m) == e.m;
    assert Gives(dir, g[t] + [e.m]) == Gives(dir, g[t]) + [Give(dir, e.m)];
    assert Do(LazyRow(dir, places, g), Happens(e)).value.up == LazyRow(dir, places, g').up;
  }

  /** What is received leaves its sender only now. */
  lemma LazyReceived(dir: Direction, places: nat, g: Gaps<Traffic>, e: Event, g': Gaps<Traffic>) returns (from: nat)
    requires |g| == places - 1 && QuietGaps(g) && LinkAfter(dir, places, g, e) == Some(g')
    requires e.dir == dir && e.Received? && Quiet(e.m)
    ensures QuietGaps(g') && from + 1 < places + 1
    ensures var row := LazyRow(dir, places, g);
      && Do(row, Moves(from)).Some? && row.up[from][0] == Give(dir, e.m)
      && (dir == Leftward || from + 1 == e.at) && (dir == Leftward ==> from == e.at + 1)
      && Do(Do(row, Moves(from)).value, Happens(e)) == Some(LazyRow(dir, places, g'))
  {
    var t := Travel(dir, places, e.at) - 1;
    from := PlaceAt(dir, places, t);
    GivesTail(dir, g[t]);
    var row, row' := LazyRow(dir, places, g), LazyRow(dir, places, g');
    var moved := Passed(row, from, dir);
    assert Next(from, dir) == e.at && HasNext(places, from, dir);
    assert moved.down[e.at] == [Give(dir, e.m)];
    var done := Do(moved, Happens(e)).value;
    forall b | 0 <= b < places ensures done.down[b] == row'.down[b] {
    }
    assert done.down == row'.down;
    assert done.up == row'.up;
  }

  lemma LazyStep(schema: Schema, parts: seq<Shape>, dir: Direction, g: Gaps<Traffic>, e: Event, g': Gaps<Traffic>)
    requires |g| == SizeOf(parts) + 1 && QuietGaps(g) && LinkAfter(dir, SizeOf(parts) + 2, g, e) == Some(g')
    requires e.dir == dir && Quiet(e.m)
    requires e.Received? && e.at == SizeOf(parts) + 1 ==> AgentForm(schema, e.m) == Forward(e.m)
    ensures QuietGaps(g')
    ensures var places, nodes := SizeOf(parts) + 2, Proxies(SizeOf(parts));
      Shows(schema, RowWorld(parts, nodes, LazyRow(dir, places, g)), [e], RowWorld(parts, nodes, LazyRow(dir, places, g')))
  {
    var places, nodes := SizeOf(parts) + 2, Proxies(SizeOf(parts));
    var row := LazyRow(dir, places, g);
    if e.Sent? {
      LazySent(dir, places, g, e, g');
      ProxyOpShown(schema, parts, row, Happens(e));
    } else {
      var from := LazyReceived(dir, places, g, e, g');
      ProxyOpShown(schema, parts, row, Moves(from));
      var moved := Do(row, Moves(from)).value;
      ProxyOpShown(schema, parts, moved, Happens(e));
      Then(schema, RowWorld(parts, nodes, row), [], RowWorld(parts, nodes, moved), [e],
           RowWorld(parts, nodes, LazyRow(dir, places, g')));
      assert [] + [e] == [e];
    }
  }

  // ---- Every run -----------------------------------------------------------------------------

  /** What is sent and received in one direction. */
  function InDirection(dir: Direction, events: seq<Event>): seq<Event> {
    if events == [] then [] else
    var e := events[|events| - 1];
    InDirection(dir, events[..|events| - 1]) + if e.dir == dir then [e] else []
  }

  /** Events along plain links, of which the agent receives none that it could not be sent. */
  ghost predicate Linked(schema: Schema, dir: Direction, places: nat, events: seq<Event>)
    requires places >= 2
  {
    && Links(dir, places, events).Some?
    && (forall e :: e in events ==> Quiet(e.m))
    && (forall e :: e in events && e.Received? && e.at == places - 1 ==> AgentForm(schema, e.m) == Forward(e.m))
  }

  lemma LazyStart(dir: Direction, places: nat)
    requires places >= 2
    ensures var g: Gaps<Traffic> := seq(places - 1, _ => []); QuietGaps(g) && LazyRow(dir, places, g) == Still(places)
  {
    var g: Gaps<Traffic> := seq(places - 1, _ => []);
    assert Gives(dir, []) == [];
    assert LazyRow(dir, places, g).up == Still<Calm>(places).up;
    assert LazyRow(dir, places, g).down == Still<Calm>(places).down;
  }

  lemma {:induction false} LazyRun(schema: Schema, parts: seq<Shape>, dir: Direction, events: seq<Event>)
    requires Linked(schema, dir, SizeOf(parts) + 2, events)
    ensures var places, nodes := SizeOf(parts) + 2, Proxies(SizeOf(parts));
      var g := Links(dir, places, events).value;
      && QuietGaps(g)
      && Shows(schema, NestedChain(parts), InDirection(dir, events), RowWorld(parts, nodes, LazyRow(dir, places, g)))
  {
    var places, nodes := SizeOf(parts) + 2, Proxies(SizeOf(parts));
    var g' := Links(dir, places, events).value;
    if events == [] {
      StillChain(parts);
      LazyStart(dir, places);
      NothingToDo(schema, NestedChain(parts));
    } else {
      var init, e := events[..|events| - 1], events[|events| - 1];
      assert e in events && forall x :: x in init ==> x in events;
      LazyRun(schema, parts, dir, init);
      var g := Links(dir, places, init).value;
      if e.dir == dir {
        LazyStep(schema, parts, dir, g, e, g');
        Then(schema, NestedChain(parts), InDirection(dir, init), RowWorld(parts, nodes, LazyRow(dir, places, g)), [e],
             RowWorld(parts, nodes, LazyRow(dir, places, g')));
      } else {
        assert g' == g && InDirection(dir, init) + [] == InDirection(dir, init);
      }
    }
  }

  /** In each direction nesting is invisible: what the proxies, the client and the agent send and receive in that
      direction, in any run without further handshakes of any nesting, they can send and receive, in the same
      order, in any other nesting of the same proxies, all in one conductor among them. */
  lemma EachDirectionFlattens(schema: Schema, dir: Direction, parts: seq<Shape>, steps: seq<Step>, parts': seq<Shape>)
    requires SizeOf(parts') == SizeOf(parts) && Run(schema, NestedChain(parts), steps).Some?
    requires forall e :: e in Run(schema, NestedChain(parts), steps).value.events ==> Quiet(e.m)
    ensures var shown := InDirection(dir, Run(schema, NestedChain(parts), steps).value.events);
      CanShow(schema, NestedChain(parts'), shown) && CanShow(schema, FlatChain(SizeOf(parts)), shown)
  {
    var events := Run(schema, NestedChain(parts), steps).value.events;
    IdleNesting(parts);
    RunLinks(dir, schema, NestedChain(parts), steps);
    AgentGetsPlain(schema, NestedChain(parts), steps);
    LazyRun(schema, parts', dir, events);
    var ones := OneShapes(SizeOf(parts));
    LazyRun(schema, ones, dir, events);
  }
}
