// A nesting shows only what the same proxies show in one conductor if and only if all its groups are harmless.

module NestingExactly {
  import opened Outcomes
  import opened Routing
  import opened ProxyTree
  import opened ProxyTreeMoves
  import opened Chain
  import opened ChainRuns
  import opened ChainSafety
  import opened Flattening
  import opened FlatteningRuns
  import opened DirectionRuns
  import opened Rows
  import opened RowChains
  import opened Delays
  import opened OneProxy
  import opened CoreMoves
  import opened Groupings
  import opened HarmlessRuns
  import NestingOrder
  import H = HarmlessRows
  import G = GapLists

  // ---- Harmless groups around one proxy ------------------------------------------------------

  predicate AllLeaves(links: seq<Kid>) { forall i :: 0 <= i < |links| ==> links[i].node == Leaf }

  lemma KidNode(parts: seq<Shape>, links: seq<Kid>, i: nat)
    requires |links| == SizeOf(parts) && i < |parts| && AllLeaves(links)
    ensures Leaves(KidsOf(parts, links)[i].node) == Size(parts[i]) && AllLeaves(Sub(parts, links, i))
  {
    var sub := Sub(parts, links, i);
    forall t | 0 <= t < |sub| ensures sub[t].node == Leaf {
      SubAt(parts, links, i, t);
    }
    LeavesOfLeaves(sub);
    LeavesOfKid(parts, links, i);
  }

  lemma LeavesOfKid(parts: seq<Shape>, links: seq<Kid>, i: nat)
    requires |links| == SizeOf(parts) && i < |parts|
    ensures Leaves(KidsOf(parts, links)[i].node) == LeavesOf(Sub(parts, links, i))
  {
    KidsAt(parts, links, i);
    LeavesOfShape(parts[i], Sub(parts, links, i));
  }

  /** The part that holds the one proxy; those before it and after it hold none. */
  lemma TheOne(parts: seq<Shape>) returns (p: nat)
    requires SizeOf(parts) == 1
    ensures p < |parts| && Size(parts[p]) == 1 && Offset(parts, p) == 0
    ensures forall i :: 0 <= i < |parts| && i != p ==> Size(parts[i]) == 0
    ensures forall i :: 0 <= i < |parts| ==> Offset(parts, i) == if i <= p then 0 else 1
  {
    p := WhichPart(parts, |parts|, 0);
    forall i | 0 <= i < |parts|
      ensures i != p ==> Size(parts[i]) == 0
      ensures Offset(parts, i) == if i <= p then 0 else 1
    {
      OffsetsApart(parts, p, i);
    }
  }

  /** A harmless group around the first, the last or another proxy of the chain. */
  lemma {:induction false} OneShape(s: Shape, links: seq<Kid>, before: nat, n: nat)
    requires |links| == Size(s) == 1 && AllLeaves(links) && n >= 2 && before < n
    requires s.Group? ==> AllHarmless(s.parts, before, n)
    ensures var node := KidOf(s, links).node;
      && (before == 0 ==> Single(Rightward, node)) && (before == n - 1 ==> Single(Leftward, node))
      && (0 < before < n - 1 ==> Pure(node))
    decreases s
  {
    match s
    case One =>
    case Group(parts) =>
      var p := TheOne(parts);
      OneGroup(parts, links, before, n, p);
      assert HarmlessAt(parts, p, before, n);
      KidNode(parts, links, p);
      KidsAt(parts, links, p);
      OneShape(parts[p], Sub(parts, links, p), before, n);
      OneConductor(parts, links, before, n, p);
  }

  /** Groups without proxies are only on the side of an end. */
  lemma OneGroup(parts: seq<Shape>, links: seq<Kid>, before: nat, n: nat, p: nat)
    requires |links| == SizeOf(parts) == 1 && n >= 2 && before < n && AllHarmless(parts, before, n) && p < |parts|
    requires forall i :: 0 <= i < |parts| && i != p ==> Size(parts[i]) == 0
    requires forall i :: 0 <= i < |parts| ==> Offset(parts, i) == if i <= p then 0 else 1
    ensures before == 0 ==> p == |parts| - 1
    ensures before == n - 1 ==> p == 0
    ensures 0 < before < n - 1 ==> p == 0 && |parts| == 1
  {
    if p > 0 {
      assert HarmlessAt(parts, 0, before, n);
    }
    if p < |parts| - 1 {
      assert HarmlessAt(parts, |parts| - 1, before, n);
    }
  }

  lemma OneConductor(parts: seq<Shape>, links: seq<Kid>, before: nat, n: nat, p: nat)
    requires |links| == SizeOf(parts) == 1 && AllLeaves(links) && n >= 2 && before < n && p < |parts|
    requires forall i :: 0 <= i < |parts| && i != p ==> Size(parts[i]) == 0
    requires before == 0 ==> p == |parts| - 1
    requires before == n - 1 ==> p == 0
    requires 0 < before < n - 1 ==> p == 0 && |parts| == 1
    requires var node := KidsOf(parts, links)[p].node;
      && (before == 0 ==> Single(Rightward, node)) && (before == n - 1 ==> Single(Leftward, node))
      && (0 < before < n - 1 ==> Pure(node))
    ensures var node := Resting(parts, links, []);
      && (before == 0 ==> Single(Rightward, node)) && (before == n - 1 ==> Single(Leftward, node))
      && (0 < before < n - 1 ==> Pure(node))
  {
    var kids := KidsOf(parts, links);
    forall i | 0 <= i < |parts| && i != p ensures Leaves(kids[i].node) == 0 {
      KidNode(parts, links, i);
    }
  }

  // ---- The conductor that holds all proxies --------------------------------------------------

  lemma {:induction false} FindCore(parts: seq<Shape>, links: seq<Kid>, n: nat) returns (path: seq<nat>, a: nat)
    requires |links| == SizeOf(parts) == n && n >= 2 && AllLeaves(links) && AllHarmless(parts, 0, n)
    ensures OnPath(Resting(parts, links, []), path) && IsCore(Deep(Resting(parts, links, []), path), a, n)
    decreases parts
  {
    if b: nat :| b < |parts| && Size(parts[b]) == n {
      AllInOne(parts, links, n, b);
      assert HarmlessAt(parts, b, 0, n);
      var ps := parts[b].parts;
      var rest;
      rest, a := FindCore(ps, links, n);
      GroupAt(parts, links, b, ps);
      path := [b] + rest;
      assert path[1..] == rest;
    } else {
      path := [];
      a := FirstProxy(parts, n);
      EachInOne(parts, links, n, a);
    }
  }

  lemma AllInOne(parts: seq<Shape>, links: seq<Kid>, n: nat, b: nat)
    requires |links| == SizeOf(parts) == n && n >= 2 && AllLeaves(links) && b < |parts| && Size(parts[b]) == n
    ensures parts[b].Group? && Offset(parts, b) == 0 && Sub(parts, links, b) == links
    ensures forall i :: 0 <= i < |parts| && i != b ==> Leaves(KidsOf(parts, links)[i].node) == 0
  {
    OffsetsApart(parts, b, b);
    assert links[0..n] == links;
    forall i | 0 <= i < |parts| && i != b ensures Leaves(KidsOf(parts, links)[i].node) == 0 {
      OffsetsApart(parts, b, i);
      KidNode(parts, links, i);
    }
  }

  /** The part with the first proxy. */
  lemma FirstProxy(parts: seq<Shape>, n: nat) returns (a: nat)
    requires SizeOf(parts) == n && n >= 2
    ensures a < |parts| && Offset(parts, a) == 0 && Size(parts[a]) > 0
  {
    a := WhichPart(parts, |parts|, 0);
  }

  lemma {:induction false} OneAfterOther(parts: seq<Shape>, n: nat, a: nat, j: nat)
    requires SizeOf(parts) == n && n >= 2 && AllHarmless(parts, 0, n) && j <= n
    requires forall i :: 0 <= i < |parts| ==> Size(parts[i]) != n
    requires a < |parts| && Offset(parts, a) == 0 && Size(parts[a]) > 0
    ensures a + j <= |parts| && Offset(parts, a + j) == j
    ensures j < n ==> a + j < |parts| && Size(parts[a + j]) == 1
    decreases j
  {
    if j > 0 {
      OneAfterOther(parts, n, a, j - 1);
    }
    if j < n {
      if a + j == |parts| {
        assert false;
      }
      assert HarmlessAt(parts, a + j, 0, n);
    }
  }

  lemma EachInOne(parts: seq<Shape>, links: seq<Kid>, n: nat, a: nat)
    requires |links| == SizeOf(parts) == n && n >= 2 && AllLeaves(links) && AllHarmless(parts, 0, n)
    requires forall i :: 0 <= i < |parts| ==> Size(parts[i]) != n
    requires a < |parts| && Offset(parts, a) == 0 && Size(parts[a]) > 0
    ensures IsCore(Resting(parts, links, []), a, n)
  {
    var node := Resting(parts, links, []);
    OneAfterOther(parts, n, a, n);
    forall j | 0 <= j < n ensures CoreKid(node, a, n, j) {
      OneAfterOther(parts, n, a, j);
      ItsPart(parts, links, n, a, j);
    }
    forall i | 0 <= i < |parts| && !(a <= i < a + n) ensures Leaves(node.kids[i].node) == 0 {
      if i < a {
        OffsetsApart(parts, a, i);
      } else {
        OffsetGrows(parts, a + n, i);
        OffsetGrows(parts, i + 1, |parts|);
      }
      KidNode(parts, links, i);
    }
  }

  lemma ItsPart(parts: seq<Shape>, links: seq<Kid>, n: nat, a: nat, j: nat)
    requires |links| == SizeOf(parts) == n && n >= 2 && AllLeaves(links) && AllHarmless(parts, 0, n)
    requires j < n && a + n <= |parts| && Offset(parts, a + j) == j && Size(parts[a + j]) == 1
    ensures CoreKid(Resting(parts, links, []), a, n, j)
  {
    assert HarmlessAt(parts, a + j, 0, n);
    KidNode(parts, links, a + j);
    KidsAt(parts, links, a + j);
    OneShape(parts[a + j], Sub(parts, links, a + j), j, n);
    if H.Interior(n, j) {
      PureIsSingle(H.DirOf(j), KidsOf(parts, links)[a + j].node);
    }
  }

  /** In harmless groups, whatever a run of two or more proxies shows a row shows. */
  lemma HarmlessAsRow(schema: Schema, parts: seq<Shape>, steps: seq<Step>)
    requires SizeOf(parts) >= 2 && IsHarmless(parts) && Run(schema, NestedChain(parts), steps).Some?
    requires forall e :: e in Run(schema, NestedChain(parts), steps).value.events ==> Quiet(e.m)
    ensures RowShows(SizeOf(parts) + 2, Run(schema, NestedChain(parts), steps).value.events)
  {
    var n := SizeOf(parts);
    var path, a := FindCore(parts, seq(n, _ => IDLE), n);
    IdleNesting(parts);
    assert Arranged(NestedChain(parts), path, a, n);
    ArrangedAsRow(schema, NestedChain(parts), steps, path, a, n);
  }

  lemma ArrangedAsRow(schema: Schema, w: World, steps: seq<Step>, path: seq<nat>, a: nat, n: nat)
    requires Arranged(w, path, a, n) && IdleWorld(w) && n >= 2 && Places(w) == n + 2 && Run(schema, w, steps).Some?
    requires forall e :: e in Run(schema, w, steps).value.events ==> Quiet(e.m)
    ensures RowShows(n + 2, Run(schema, w, steps).value.events)
  {
    var t := Run(schema, w, steps).value;
    RunFollowed(schema, w, steps, path, a, n);
    var r := FollowedRow(t.world, path, a, n, t.events);
    BothLinked(schema, w, steps, n + 2, t.events);
    GetsShows(n + 2, t.events, r);
  }

  lemma BothLinked(schema: Schema, w: World, steps: seq<Step>, places: nat, events: seq<Event>)
    requires IdleWorld(w) && Places(w) == places && Run(schema, w, steps).Some? && Run(schema, w, steps).value.events == events
    ensures Links(Rightward, places, events).Some? && Links(Leftward, places, events).Some?
  {
    RunLinks(Rightward, schema, w, steps);
    RunLinks(Leftward, schema, w, steps);
  }

  lemma FollowedRow(w: World, path: seq<nat>, a: nat, n: nat, events: seq<Event>) returns (r: Row<Direction>)
    requires Arranged(w, path, a, n) && n >= 2 && H.Follows(n, FlowOf(w, path, a, n), events)
    ensures Gets(n + 2, events, r)
  {
    FlowSound(w, path, a, n);
    r := H.SomeRow(n, FlowOf(w, path, a, n), events);
  }

  // ---- Fewer than two proxies ----------------------------------------------------------------

  /** With one proxy or none, what is for the proxy has yet to leave the end it comes from, and what is for an end
      has come there. */
  function FewRow(places: nat, g: G.Gaps<Traffic>, h: G.Gaps<Traffic>): (r: Row<Direction>)
    requires 2 <= places <= 3 && |g| == |h| == places - 1
    ensures Fits(places, r)
  {
    if places == 2 then Row([[], []], [Repeat(Rightward, |g[0]|), Repeat(Leftward, |h[0]|)])
    else Row([Repeat(Leftward, |h[1]|), [], Repeat(Rightward, |g[1]|)], [Repeat(Rightward, |g[0]|), [], Repeat(Leftward, |h[0]|)])
  }

  /** A row follows any events that plain links can show. */
  lemma {:induction false} FewFollow(places: nat, events: seq<Event>)
    requires 2 <= places <= 3 && Links(Rightward, places, events).Some? && Links(Leftward, places, events).Some?
    requires forall e :: e in events ==> Quiet(e.m)
    ensures Gets(places, events, FewRow(places, Links(Rightward, places, events).value, Links(Leftward, places, events).value))
  {
    if events == [] {
      assert Repeat(Rightward, 0) == [] && Repeat(Leftward, 0) == [];
      SameRow(FewRow(places, seq(places - 1, _ => []), seq(places - 1, _ => [])), Still(places));
      GetsStill(places);
    } else {
      var init, e := events[..|events| - 1], events[|events| - 1];
      assert e in events && events == init + [e];
      FewFollow(places, init);
      FewStep(places, init, Links(Rightward, places, init).value, Links(Leftward, places, init).value, e,
              Links(Rightward, places, events).value, Links(Leftward, places, events).value);
    }
  }

  lemma FewStep(places: nat, events: seq<Event>, g: G.Gaps<Traffic>, h: G.Gaps<Traffic>, e: Event, g': G.Gaps<Traffic>, h': G.Gaps<Traffic>)
    requires 2 <= places <= 3 && |g| == |h| == places - 1 && Quiet(e.m)
    requires LinkAfter(Rightward, places, g, e) == Some(g') && LinkAfter(Leftward, places, h, e) == Some(h')
    requires Gets(places, events, FewRow(places, g, h))
    ensures Gets(places, events + [e], FewRow(places, g', h'))
  {
    var d, r, r' := e.dir, FewRow(places, g, h), FewRow(places, g', h');
    if e.Sent? && places == 3 && e.at == 1 {
      var q := Next(1, d);
      RepeatMore(d, |r.down[q]|);
      SameRow(r.(down := PutIn(r.down, q, d)), r');
      FewSends(events, r, e, r');
    } else if e.Sent? {
      RepeatMore(d, |r.up[e.at]|);
      SameRow(r.(up := PutIn(r.up, e.at, d)), r');
      GetsOn(places, events, r, Happens(e), r');
    } else {
      FewTakes(places, events, g, h, e, g', h', r, r');
    }
  }

  lemma FewTakes(places: nat, events: seq<Event>, g: G.Gaps<Traffic>, h: G.Gaps<Traffic>, e: Event, g': G.Gaps<Traffic>,
                 h': G.Gaps<Traffic>, r: Row<Direction>, r': Row<Direction>)
    requires 2 <= places <= 3 && |g| == |h| == places - 1 && Quiet(e.m) && e.Received?
    requires LinkAfter(Rightward, places, g, e) == Some(g') && LinkAfter(Leftward, places, h, e) == Some(h')
    requires r == FewRow(places, g, h) && r' == FewRow(places, g', h') && Gets(places, events, r)
    ensures Gets(places, events + [e], r')
  {
    var d := e.dir;
    if places == 3 && e.at != 1 {
      RepeatMore(d, |r'.down[e.at]|);
      assert r.down[e.at][1..] == r'.down[e.at];
      SameRow(r.(down := TakeFrom(r.down, e.at)), r');
      GetsOn(places, events, r, Happens(e), r');
    } else {
      var from := Next(e.at, Opposite(d));
      RepeatMore(d, |r'.up[from]|);
      assert r.up[from][1..] == r'.up[from];
      SameRow(r.(up := TakeFrom(r.up, from)), r');
      FewReceives(places, events, r, e, r');
    }
  }

  lemma FewSends(events: seq<Event>, r: Row<Direction>, e: Event, r': Row<Direction>)
    requires Fits(3, r) && Gets(3, events, r) && e.Sent? && e.at == 1 && Quiet(e.m) && r.up[1] == []
    requires var q := Next(1, e.dir); r' == r.(down := PutIn(r.down, q, e.dir))
    ensures Gets(3, events + [e], r')
  {
    var mid := r.(up := PutIn(r.up, 1, e.dir));
    GetsOn(3, events, r, Happens(e), mid);
    assert mid.up[1] == [e.dir];
    SameRow(Passed(mid, 1, e.dir), r');
    GetsOn(3, events + [e], mid, Moves(1), r');
  }

  lemma FewReceives(places: nat, events: seq<Event>, r: Row<Direction>, e: Event, r': Row<Direction>)
    requires 2 <= places <= 3 && Fits(places, r) && Gets(places, events, r)
    requires e.Received? && Quiet(e.m) && HasNext(places, e.at, Opposite(e.dir))
    requires var from := Next(e.at, Opposite(e.dir));
      r.down[e.at] == [] && r.up[from] != [] && r.up[from][0] == e.dir && r' == r.(up := TakeFrom(r.up, from))
    ensures Gets(places, events + [e], r')
  {
    var from := Next(e.at, Opposite(e.dir));
    var mid := Passed(r, from, e.dir);
    GetsOn(places, events, r, Moves(from), mid);
    assert mid.down[e.at] == [e.dir] && mid.down[e.at][1..] == [];
    SameRow(mid.(down := TakeFrom(mid.down, e.at)), r');
    GetsOn(places, events, mid, Happens(e), r');
  }

  lemma FewAsRow(schema: Schema, parts: seq<Shape>, steps: seq<Step>)
    requires SizeOf(parts) < 2 && Run(schema, NestedChain(parts), steps).Some?
    requires forall e :: e in Run(schema, NestedChain(parts), steps).value.events ==> Quiet(e.m)
    ensures RowShows(SizeOf(parts) + 2, Run(schema, NestedChain(parts), steps).value.events)
  {
    var n, events := SizeOf(parts), Run(schema, NestedChain(parts), steps).value.events;
    IdleNesting(parts);
    BothLinked(schema, NestedChain(parts), steps, n + 2, events);
    FewEvents(n + 2, events);
  }

  lemma FewEvents(places: nat, events: seq<Event>)
    requires 2 <= places <= 3 && Links(Rightward, places, events).Some? && Links(Leftward, places, events).Some?
    requires forall e :: e in events ==> Quiet(e.m)
    ensures RowShows(places, events)
  {
    FewFollow(places, events);
    GetsShows(places, events, FewRow(places, Links(Rightward, places, events).value, Links(Leftward, places, events).value));
  }

  // ---- Exactly the harmless nestings ---------------------------------------------------------

  /** A run whose messages all leave the chain, should they leave it, in the form in which they came. */
  ghost predicate OrdinaryRun(schema: Schema, w: World, steps: seq<Step>) {
    Run(schema, w, steps).Some? && AllOrdinary(schema, Run(schema, w, steps).value.events)
  }

  /** Taking the nested conductors apart loses nothing: every run shows what one conductor can show, event for event
      across both directions. */
  ghost predicate KeepsOrder(schema: Schema, parts: seq<Shape>) {
    forall steps {:trigger OrdinaryRun(schema, NestedChain(parts), steps)} ::
      OrdinaryRun(schema, NestedChain(parts), steps) ==>
        CanShow(schema, FlatChain(SizeOf(parts)), Run(schema, NestedChain(parts), steps).value.events)
  }

  /** Which nestings can be taken apart: those in which every group holds one proxy, or all proxies of the chain, or
      none and is at one end of it. */
  lemma KeepsOrderIff(schema: Schema, parts: seq<Shape>)
    ensures KeepsOrder(schema, parts) <==> IsHarmless(parts)
  {
    if IsHarmless(parts) {
      forall steps | OrdinaryRun(schema, NestedChain(parts), steps)
        ensures CanShow(schema, FlatChain(SizeOf(parts)), Run(schema, NestedChain(parts), steps).value.events)
      {
        var events := Run(schema, NestedChain(parts), steps).value.events;
        assert forall e :: e in events ==> Quiet(e.m);
        if SizeOf(parts) >= 2 {
          HarmlessAsRow(schema, parts, steps);
        } else {
          FewAsRow(schema, parts, steps);
        }
        OneConductorIsARow(schema, SizeOf(parts), events);
      }
    } else {
      var p, dir := NestingOrder.HarmfulShows(schema, parts);
      HarmfulLoses(schema, parts, p, dir);
    }
  }

  lemma HarmfulLoses(schema: Schema, parts: seq<Shape>, p: nat, dir: Direction)
    requires NestingOrder.Roomy(SizeOf(parts) + 2, p, dir)
    requires CanShow(schema, NestedChain(parts), NestingOrder.Five(p, dir))
    ensures !KeepsOrder(schema, parts)
  {
    var events := NestingOrder.Five(p, dir);
    var w :| Shows(schema, NestedChain(parts), events, w);
    var steps := RunOf(schema, NestedChain(parts), events, w);
    NestingOrder.FiveOrdinary(schema, p, dir);
    assert OrdinaryRun(schema, NestedChain(parts), steps);
    NestingOrder.FlatNeverDoes(schema, SizeOf(parts), p, dir);
  }
}
