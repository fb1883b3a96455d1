// Proxies grouped into conductors in any way can do whatever a row of places can do.

module RowChains {
  import opened Outcomes
  import opened Messages
  import opened Routing
  import opened GapLists
  import opened ProxyTree
  import opened ProxyTreeMoves
  import opened Chain
  import opened ChainRuns
  import opened ChainSafety
  import opened Flattening
  import opened Rows

  // ---- Silent moves of the outermost conductor -----------------------------------------------

  /** What of these is given to the client, or to the agent. */
  function Going(dir: Direction, gives: seq<Give>): seq<Traffic> {
    if gives == [] then [] else
    Going(dir, gives[..|gives| - 1]) + if gives[|gives| - 1].dir == dir then [gives[|gives| - 1].m] else []
  }

  lemma {:induction false} GoingOn(dir: Direction, gives: seq<Give>, more: seq<Give>)
    ensures Going(dir, gives + more) == Going(dir, gives) + Going(dir, more)
    decreases |more|
  {
    if more == [] {
      assert gives + more == gives;
    } else {
      var init := more[..|more| - 1];
      assert (gives + more)[..|gives + more| - 1] == gives + init;
      GoingOn(dir, gives, init);
    }
  }

  /** The chain after its conductor has moved to `root` and given these messages to the client and the agent. */
  function WithGives(w: World, root: Node, gives: seq<Give>): World {
    w.(root := root, toClient := w.toClient + Going(Leftward, gives), toAgent := w.toAgent + Going(Rightward, gives))
  }

  lemma GivesOn(w: World, root: Node, gives: seq<Give>, root': Node, more: seq<Give>)
    ensures WithGives(WithGives(w, root, gives), root', more) == WithGives(w, root', gives + more)
  {
    GoingOn(Leftward, gives, more);
    GoingOn(Rightward, gives, more);
    var a, b := Going(Leftward, gives), Going(Leftward, more);
    assert w.toClient + a + b == w.toClient + (a + b);
    var c, d := Going(Rightward, gives), Going(Rightward, more);
    assert w.toAgent + c + d == w.toAgent + (c + d);
  }

  lemma GivesNone(w: World, root: Node)
    ensures WithGives(w, root, []) == w.(root := root)
  {
    assert w.toClient + [] == w.toClient && w.toAgent + [] == w.toAgent;
  }

  lemma GoingOne(dir: Direction, g: Give)
    ensures Going(dir, [g]) == if g.dir == dir then [g.m] else []
  {
    assert [g][..0] == [] && Going(dir, []) == [];
    assert [] + [g.m] == [g.m];
  }

  lemma GiveOne(w: World, root: Node, g: Give)
    ensures WithGives(w, root, [g]) == if g.dir == Leftward then w.(root := root, toClient := w.toClient + [g.m])
                                       else w.(root := root, toAgent := w.toAgent + [g.m])
  {
    GoingOne(Leftward, g);
    GoingOne(Rightward, g);
    assert w.toClient + [] == w.toClient && w.toAgent + [] == w.toAgent;
  }

  /** The agent is sent this message as it is. */
  predicate ForAgent(schema: Schema, g: Give) {
    g.dir == Rightward ==> AgentForm(schema, g.m) == Forward(g.m)
  }

  lemma {:induction false} AllGivesPrefix(gives: seq<seq<Give>>, i: nat)
    requires i <= |gives|
    ensures forall g :: g in AllGives(gives[..i]) ==> g in AllGives(gives)
    decreases |gives|
  {
    if i < |gives| {
      AllGivesPrefix(gives[..|gives| - 1], i);
      assert gives[..|gives| - 1][..i] == gives[..i];
    } else {
      assert gives[..i] == gives;
    }
  }

  lemma HopInWorld(schema: Schema, way: Way, w: World, i: nat)
    requires way.Fits() && i < |way.moves| && Hop(schema, way, i) && w.root == way.nodes[i]
    requires forall g :: g in way.gives[i] ==> ForAgent(schema, g)
    ensures Shows(schema, w, [], WithGives(w, way.nodes[i + 1], way.gives[i]))
  {
    var o := Apply(schema, way.nodes[i], way.moves[i]).value;
    assert way.gives[i] == GivesOf(o);
    assert w.root.Nest?;
    if o.gives.Some? {
      assert o.gives.value in way.gives[i];
      GiveOne(w, o.node, o.gives.value);
    } else {
      GivesNone(w, o.node);
    }
    assert Advance(schema, w, Conduct(way.moves[i])) == Some(Stepped(WithGives(w, o.node, way.gives[i]), None));
    OneStep(schema, w, Conduct(way.moves[i]));
  }

  lemma {:induction false} WayInWorld(schema: Schema, way: Way, w: World, i: nat)
    requires IsWay(schema, way) && way.nodes[0] == w.root && i <= |way.moves|
    requires forall g :: g in AllGives(way.gives) ==> ForAgent(schema, g)
    ensures Shows(schema, w, [], WithGives(w, way.nodes[i], AllGives(way.gives[..i])))
  {
    if i == 0 {
      NothingToDo(schema, w);
      GivesNone(w, w.root);
    } else {
      WayInWorld(schema, way, w, i - 1);
      OneMoreHop(schema, way, w, i - 1);
    }
  }

  lemma OneMoreHop(schema: Schema, way: Way, w: World, j: nat)
    requires IsWay(schema, way) && j < |way.moves|
    requires forall g :: g in AllGives(way.gives) ==> ForAgent(schema, g)
    requires Shows(schema, w, [], WithGives(w, way.nodes[j], AllGives(way.gives[..j])))
    ensures Shows(schema, w, [], WithGives(w, way.nodes[j + 1], AllGives(way.gives[..j + 1])))
  {
    var before := WithGives(w, way.nodes[j], AllGives(way.gives[..j]));
    assert Hop(schema, way, j);
    assert way.gives[..j + 1][..j] == way.gives[..j];
    AllGivesPrefix(way.gives, j + 1);
    HopInWorld(schema, way, before, j);
    GivesOn(w, way.nodes[j], AllGives(way.gives[..j]), way.nodes[j + 1], way.gives[j]);
    ThenSilently(schema, w, before, WithGives(before, way.nodes[j + 1], way.gives[j]));
  }

  lemma LeadsInWorld(schema: Schema, w: World, root: Node, gives: seq<Give>)
    requires Leads(schema, w.root, root, gives) && forall g :: g in gives ==> ForAgent(schema, g)
    ensures Shows(schema, w, [], WithGives(w, root, gives))
  {
    var way := WayOf(schema, w.root, root, gives);
    WayInWorld(schema, way, w, |way.moves|);
    assert way.gives[..|way.moves|] == way.gives;
  }

  lemma NothingToDo(schema: Schema, w: World)
    ensures Shows(schema, w, [], w)
  {
    ShownBy(schema, w, [], Trace(w, []));
  }

  lemma DoesInWorld(schema: Schema, w: World, root: Node, e: Event)
    requires w.root.Nest? && Does(schema, w.root, root, e)
    ensures Shows(schema, w, [At(e, e.at + 1)], w.(root := root))
  {
    var mv := DoneBy(schema, w.root, root, e);
    ConductedMove(schema, w, mv, root, e);
    OneStep(schema, w, Conduct(mv));
  }

  lemma ConductedMove(schema: Schema, w: World, mv: Move, root: Node, e: Event)
    requires w.root.Nest? && !mv.Take? && Apply(schema, w.root, mv) == Some(Outcome(root, Some(e), None))
    ensures Advance(schema, w, Conduct(mv)) == Some(Stepped(w.(root := root), Some(At(e, e.at + 1))))
  {
  }

  // ---- A row as a chain ----------------------------------------------------------------------

  function Downs(gs: seq<Calm>): (r: seq<DownWire>)
    ensures |r| == |gs|
  {
    seq(|gs|, i requires 0 <= i < |gs| => DownForm(gs[i].dir, gs[i].m))
  }

  function Ups(gs: seq<Calm>): (r: seq<Wire>)
    ensures |r| == |gs|
  {
    seq(|gs|, i requires 0 <= i < |gs| => ToLinkUp(gs[i]))
  }

  function Bare(gs: seq<Calm>): (r: seq<Traffic>)
    ensures |r| == |gs|
  {
    seq(|gs|, i requires 0 <= i < |gs| => gs[i].m)
  }

  function KidAt(nodes: seq<Node>, r: Row<Calm>, t: nat): Kid
    requires t < |nodes| && Fits(|nodes| + 2, r)
  {
    Kid(nodes[t], Downs(r.down[t + 1]), Ups(r.up[t + 1]))
  }

  function RowLinks(nodes: seq<Node>, r: Row<Calm>): (links: seq<Kid>)
    requires Fits(|nodes| + 2, r)
    ensures |links| == |nodes|
  {
    seq(|nodes|, t requires 0 <= t < |nodes| => KidAt(nodes, r, t))
  }

  /** A chain with these components whose messages are all with their senders or with those they are for. */
  ghost function RowWorld(parts: seq<Shape>, nodes: seq<Node>, r: Row<Calm>): World
    requires |nodes| == SizeOf(parts) && Fits(|nodes| + 2, r)
  {
    var last := |nodes| + 1;
    World(Bare(r.up[0]), Bare(r.down[0]), Bare(r.up[last]), Bare(r.down[last]), Resting(parts, RowLinks(nodes, r), []))
  }

  lemma PutUpIn(nodes: seq<Node>, r: Row<Calm>, t: nat, g: Calm)
    requires t < |nodes| && Fits(|nodes| + 2, r)
    ensures var kid := KidAt(nodes, r, t);
      RowLinks(nodes, r.(up := PutIn(r.up, t + 1, g))) == RowLinks(nodes, r)[t := kid.(up := kid.up + [ToLinkUp(g)])]
  {
    assert Ups(r.up[t + 1] + [g]) == Ups(r.up[t + 1]) + [ToLinkUp(g)];
  }

  lemma PutDownIn(nodes: seq<Node>, r: Row<Calm>, t: nat, g: Calm)
    requires t < |nodes| && Fits(|nodes| + 2, r)
    ensures RowLinks(nodes, r.(down := PutIn(r.down, t + 1, g))) == PutDown(RowLinks(nodes, r), t, DownForm(g.dir, g.m))
  {
    assert Downs(r.down[t + 1] + [g]) == Downs(r.down[t + 1]) + [DownForm(g.dir, g.m)];
  }

  lemma TakenUp(nodes: seq<Node>, r: Row<Calm>, t: nat)
    requires t < |nodes| && Fits(|nodes| + 2, r) && r.up[t + 1] != []
    ensures var rest := Ups(r.up[t + 1][1..]);
      && RowLinks(nodes, r.(up := TakeFrom(r.up, t + 1))) == PutUp(RowLinks(nodes, r), t, rest)
      && RowLinks(nodes, r)[t].up == [ToLinkUp(r.up[t + 1][0])] + rest
  {
  }

  lemma TakenDown(nodes: seq<Node>, r: Row<Calm>, t: nat)
    requires t < |nodes| && Fits(|nodes| + 2, r) && r.down[t + 1] != []
    ensures var kid := KidAt(nodes, r, t);
      && kid.down != [] && OffLinkDown(kid.down[0]) == r.down[t + 1][0]
      && RowLinks(nodes, r.(down := TakeFrom(r.down, t + 1))) == RowLinks(nodes, r)[t := kid.(down := kid.down[1..])]
  {
    UnwrapWrap(r.down[t + 1][0].m);
    assert Downs(r.down[t + 1][1..]) == Downs(r.down[t + 1])[1..];
  }

  /** The ends of a row have no part in the links of its components. */
  lemma EndsAside(nodes: seq<Node>, r: Row<Calm>, r': Row<Calm>)
    requires Fits(|nodes| + 2, r) && Fits(|nodes| + 2, r')
    requires forall t :: 0 < t <= |nodes| ==> r.down[t] == r'.down[t] && r.up[t] == r'.up[t]
    ensures RowLinks(nodes, r) == RowLinks(nodes, r')
  {
    forall t | 0 <= t < |nodes| ensures KidAt(nodes, r, t) == KidAt(nodes, r', t) {
      assert r.down[t + 1] == r'.down[t + 1] && r.up[t + 1] == r'.up[t + 1];
    }
  }

  // ---- A message on its way ------------------------------------------------------------------

  /** The place a message comes to that is at boundary `b` between components. */
  function PlaceAfter(dir: Direction, b: nat): nat {
    if dir == Rightward then b + 1 else b
  }

  /** A message that reaches its place, seen in the row. */
  lemma Comes(schema: Schema, dir: Direction, parts: seq<Shape>, nodes: seq<Node>, r: Row<Calm>, root: Node, b: nat, m: Traffic,
              r': Row<Calm>)
    requires |nodes| == SizeOf(parts) && Fits(|nodes| + 2, r) && b <= |nodes| && Quiet(m)
    requires Reaches(schema, dir, root, parts, RowLinks(nodes, r), b, m)
    requires Target(dir, b, |nodes|) == None ==> ForAgent(schema, Give(dir, m))
    requires r' == r.(down := PutIn(r.down, PlaceAfter(dir, b), Give(dir, m)))
    ensures Shows(schema, RowWorld(parts, nodes, r).(root := root), [], RowWorld(parts, nodes, r'))
  {
    var target := Target(dir, b, |nodes|);
    if target.Some? {
      assert PlaceAfter(dir, b) == target.value + 1;
      ReachedInside(schema, dir, parts, root, RowLinks(nodes, r), b, m, target.value);
      ComesTo(schema, parts, nodes, r, root, target.value, Give(dir, m));
    } else {
      ReachedOutside(schema, dir, parts, root, RowLinks(nodes, r), b, m);
      ComesOut(schema, parts, nodes, r, root, PlaceAfter(dir, b), Give(dir, m));
    }
  }

  lemma ComesTo(schema: Schema, parts: seq<Shape>, nodes: seq<Node>, r: Row<Calm>, root: Node, t: nat, g: Calm)
    requires |nodes| == SizeOf(parts) && Fits(|nodes| + 2, r) && t < |nodes|
    requires Leads(schema, root, Resting(parts, PutDown(RowLinks(nodes, r), t, DownForm(g.dir, g.m)), []), [])
    ensures Shows(schema, RowWorld(parts, nodes, r).(root := root), [],
                  RowWorld(parts, nodes, r.(down := PutIn(r.down, t + 1, g))))
  {
    var w, root' := RowWorld(parts, nodes, r).(root := root), Resting(parts, PutDown(RowLinks(nodes, r), t, DownForm(g.dir, g.m)), []);
    LeadsInWorld(schema, w, root', []);
    PutDownIn(nodes, r, t, g);
    GivesNone(w, root');
  }

  lemma ComesOut(schema: Schema, parts: seq<Shape>, nodes: seq<Node>, r: Row<Calm>, root: Node, at: nat, g: Calm)
    requires |nodes| == SizeOf(parts) && Fits(|nodes| + 2, r) && ForAgent(schema, g)
    requires at == if g.dir == Rightward then |nodes| + 1 else 0
    requires Leads(schema, root, Resting(parts, RowLinks(nodes, r), []), [g])
    ensures Shows(schema, RowWorld(parts, nodes, r).(root := root), [], RowWorld(parts, nodes, r.(down := PutIn(r.down, at, g))))
  {
    var w, root' := RowWorld(parts, nodes, r).(root := root), Resting(parts, RowLinks(nodes, r), []);
    LeadsInWorld(schema, w, root', [g]);
    GiveOne(w, root', g);
    OutQueue(parts, nodes, r, at, g);
  }

  lemma OutQueue(parts: seq<Shape>, nodes: seq<Node>, r: Row<Calm>, at: nat, g: Calm)
    requires |nodes| == SizeOf(parts) && Fits(|nodes| + 2, r)
    requires at == if g.dir == Rightward then |nodes| + 1 else 0
    ensures RowWorld(parts, nodes, r.(down := PutIn(r.down, at, g)))
         == var w := RowWorld(parts, nodes, r);
            if g.dir == Leftward then w.(toClient := w.toClient + [g.m]) else w.(toAgent := w.toAgent + [g.m])
  {
    EndsAside(nodes, r, r.(down := PutIn(r.down, at, g)));
    assert Bare(r.down[at] + [g]) == Bare(r.down[at]) + [g.m];
  }

  lemma ClientStep(schema: Schema, w: World, m: Traffic, rest: seq<Traffic>)
    requires w.root.Nest? && w.root.mailbox == [] && w.fromClient == [m] + rest
    ensures Shows(schema, w, [], w.(fromClient := rest, root := w.root.(mailbox := [Entry(Rightward, |w.root.kids|, 0, m)])))
  {
    assert w.fromClient[1..] == rest;
    assert [] + [LeftToRight(0, m)] == [LeftToRight(0, m)];
    OneStep(schema, w, FromClient);
  }

  lemma AgentStep(schema: Schema, w: World, m: Traffic, rest: seq<Traffic>)
    requires w.root.Nest? && w.root.mailbox == [] && w.fromAgent == [m] + rest
    ensures Shows(schema, w, [],
      w.(fromAgent := rest, root := w.root.(mailbox := [Entry(Leftward, |w.root.kids|, |w.root.kids|, m)])))
  {
    assert w.fromAgent[1..] == rest;
    assert [] + [RightToLeft(FromSuccessor, m)] == [RightToLeft(FromSuccessor, m)];
    OneStep(schema, w, FromAgent);
  }

  lemma ClientMoves(schema: Schema, parts: seq<Shape>, nodes: seq<Node>, r: Row<Calm>, m: Traffic)
    requires |nodes| == SizeOf(parts) && Fits(|nodes| + 2, r) && r.up[0] != [] && r.up[0][0] == Give(Rightward, m)
    requires SizeOf(parts) == 0 ==> ForAgent(schema, Give(Rightward, m))
    ensures Shows(schema, RowWorld(parts, nodes, r), [], RowWorld(parts, nodes, Passed(r, 0, Rightward)))
  {
    var w, taken := RowWorld(parts, nodes, r), r.(up := TakeFrom(r.up, 0));
    var entry := Entry(Rightward, |parts|, 0, m);
    var root := Resting(parts, RowLinks(nodes, r), [entry]);
    ClientStep(schema, w, m, Bare(r.up[0][1..]));
    EndsAside(nodes, r, taken);
    Pass(schema, Rightward, parts, RowLinks(nodes, taken), 0, m);
    Comes(schema, Rightward, parts, nodes, taken, root, 0, m, Passed(r, 0, Rightward));
    assert w.(fromClient := Bare(r.up[0][1..]), root := root) == RowWorld(parts, nodes, taken).(root := root);
    ThenSilently(schema, w, RowWorld(parts, nodes, taken).(root := root), RowWorld(parts, nodes, Passed(r, 0, Rightward)));
  }

  lemma AgentMoves(schema: Schema, parts: seq<Shape>, nodes: seq<Node>, r: Row<Calm>, m: Traffic)
    requires |nodes| == SizeOf(parts) && Fits(|nodes| + 2, r)
    requires var last := |nodes| + 1; r.up[last] != [] && r.up[last][0] == Give(Leftward, m)
    ensures Shows(schema, RowWorld(parts, nodes, r), [], RowWorld(parts, nodes, Passed(r, |nodes| + 1, Leftward)))
  {
    var last := |nodes| + 1;
    var w, taken := RowWorld(parts, nodes, r), r.(up := TakeFrom(r.up, last));
    var entry := Entry(Leftward, |parts|, |parts|, m);
    var root := Resting(parts, RowLinks(nodes, r), [entry]);
    AgentStep(schema, w, m, Bare(r.up[last][1..]));
    EndsAside(nodes, r, taken);
    Pass(schema, Leftward, parts, RowLinks(nodes, taken), |parts|, m);
    Comes(schema, Leftward, parts, nodes, taken, root, |nodes|, m, Passed(r, last, Leftward));
    assert w.(fromAgent := Bare(r.up[last][1..]), root := root) == RowWorld(parts, nodes, taken).(root := root);
    ThenSilently(schema, w, RowWorld(parts, nodes, taken).(root := root), RowWorld(parts, nodes, Passed(r, last, Leftward)));
  }

  lemma ComponentMoves(schema: Schema, parts: seq<Shape>, nodes: seq<Node>, r: Row<Calm>, t: nat, dir: Direction, m: Traffic)
    requires |nodes| == SizeOf(parts) && Fits(|nodes| + 2, r) && t < |nodes|
    requires r.up[t + 1] != [] && r.up[t + 1][0] == Give(dir, m)
    requires t + 1 == |nodes| ==> ForAgent(schema, Give(dir, m))
    ensures Shows(schema, RowWorld(parts, nodes, r), [], RowWorld(parts, nodes, Passed(r, t + 1, dir)))
  {
    var taken, links := r.(up := TakeFrom(r.up, t + 1)), RowLinks(nodes, r);
    TakenUp(nodes, r, t);
    Leave(schema, dir, parts, links, t, m, Ups(r.up[t + 1][1..]));
    Comes(schema, dir, parts, nodes, taken, Resting(parts, links, []), if dir == Rightward then t + 1 else t, m,
          Passed(r, t + 1, dir));
    assert RowWorld(parts, nodes, taken).(root := Resting(parts, links, [])) == RowWorld(parts, nodes, r);
  }

  // ---- Every operation -----------------------------------------------------------------------

  /** The place of the chain that is place `at` of the row. */
  function WorldPlace(nodes: seq<Node>, at: nat): nat
    requires at < |nodes| + 2
  {
    if at == 0 then 0 else 1 + LeavesOf(RowLinks(nodes, Still(|nodes| + 2))[..at - 1])
  }

  lemma SamePlace(nodes: seq<Node>, r: Row<Calm>, at: nat)
    requires at < |nodes| + 2 && Fits(|nodes| + 2, r)
    ensures WorldPlace(nodes, at) == if at == 0 then 0 else 1 + LeavesOf(RowLinks(nodes, r)[..at - 1])
  {
    if at > 0 {
      SameLeaves(RowLinks(nodes, r)[..at - 1], RowLinks(nodes, Still(|nodes| + 2))[..at - 1]);
    }
  }

  lemma {:induction false} SameLeaves(a: seq<Kid>, b: seq<Kid>)
    requires |a| == |b| && forall i :: 0 <= i < |a| ==> a[i].node == b[i].node
    ensures LeavesOf(a) == LeavesOf(b)
  {
    if a != [] {
      SameLeaves(a[1..], b[1..]);
    }
  }

  lemma AgentPlace(parts: seq<Shape>, nodes: seq<Node>, r: Row<Calm>)
    requires |nodes| == SizeOf(parts) && Fits(|nodes| + 2, r)
    ensures Places(RowWorld(parts, nodes, r)) == WorldPlace(nodes, |nodes| + 1) + 1
  {
    var links := RowLinks(nodes, r);
    SamePlace(nodes, r, |nodes| + 1);
    LeavesOfParts(parts, links, |parts|);
    assert KidsOf(parts, links)[..|parts|] == KidsOf(parts, links) && links[..|nodes|] == links;
  }

  /** The operation is one of the client, the agent or a proxy, and what it gives to the agent the agent is sent as it is. */
  predicate Able(schema: Schema, nodes: seq<Node>, r: Row<Calm>, op: Op)
    requires Fits(|nodes| + 2, r)
  {
    match op
    case Happens(e) => 0 < e.at <= |nodes| ==> nodes[e.at - 1] == Leaf
    case Moves(at) => at == |nodes| && r.up[at] != [] ==> ForAgent(schema, r.up[at][0])
  }

  function ShownAs(nodes: seq<Node>, op: Op): seq<Event>
    requires op.Happens? ==> op.e.at < |nodes| + 2
  {
    match op
    case Happens(e) => [At(e, WorldPlace(nodes, e.at))]
    case Moves(_) => []
  }

  lemma ProxyActs(schema: Schema, parts: seq<Shape>, nodes: seq<Node>, r: Row<Calm>, e: Event)
    requires |nodes| == SizeOf(parts) && Fits(|nodes| + 2, r) && 0 < e.at <= |nodes| && nodes[e.at - 1] == Leaf
    requires Do(r, Happens(e)).Some?
    ensures Shows(schema, RowWorld(parts, nodes, r), [At(e, WorldPlace(nodes, e.at))],
                  RowWorld(parts, nodes, Do(r, Happens(e)).value))
  {
    var t, links, r' := e.at - 1, RowLinks(nodes, r), Do(r, Happens(e)).value;
    ProxyLink(nodes, r, e, t, r');
    ProxyDoes(schema, parts, links, t, KidAt(nodes, r', t), e);
    SamePlace(nodes, r, e.at);
    DoesInWorld(schema, RowWorld(parts, nodes, r), Resting(parts, RowLinks(nodes, r'), []), At(e, LeavesOf(links[..t])));
    SameEnds(parts, nodes, r, r');
  }

  lemma SameEnds(parts: seq<Shape>, nodes: seq<Node>, r: Row<Calm>, r': Row<Calm>)
    requires |nodes| == SizeOf(parts) && Fits(|nodes| + 2, r) && Fits(|nodes| + 2, r')
    requires r'.up[0] == r.up[0] && r'.down[0] == r.down[0]
    requires r'.up[|nodes| + 1] == r.up[|nodes| + 1] && r'.down[|nodes| + 1] == r.down[|nodes| + 1]
    ensures RowWorld(parts, nodes, r).(root := Resting(parts, RowLinks(nodes, r'), [])) == RowWorld(parts, nodes, r')
  {
  }

  lemma ProxyLink(nodes: seq<Node>, r: Row<Calm>, e: Event, t: nat, r': Row<Calm>)
    requires t < |nodes| && e.at == t + 1 && Fits(|nodes| + 2, r) && nodes[t] == Leaf && Do(r, Happens(e)) == Some(r')
    ensures Fits(|nodes| + 2, r') && LinkDoes(RowLinks(nodes, r)[t], KidAt(nodes, r', t), e)
    ensures RowLinks(nodes, r)[t := KidAt(nodes, r', t)] == RowLinks(nodes, r')
    ensures r'.up[0] == r.up[0] && r'.down[0] == r.down[0]
    ensures r'.up[|nodes| + 1] == r.up[|nodes| + 1] && r'.down[|nodes| + 1] == r.down[|nodes| + 1]
  {
    if e.Sent? {
      PutUpIn(nodes, r, t, Give(e.dir, e.m));
      assert KidAt(nodes, r', t) == RowLinks(nodes, r')[t];
    } else {
      TakenDown(nodes, r, t);
      assert KidAt(nodes, r', t) == RowLinks(nodes, r')[t];
    }
  }

  lemma ClientActs(schema: Schema, parts: seq<Shape>, nodes: seq<Node>, r: Row<Calm>, e: Event)
    requires |nodes| == SizeOf(parts) && Fits(|nodes| + 2, r) && e.at == 0 && Do(r, Happens(e)).Some?
    requires e.Received? ==> e.dir == Leftward
    ensures Shows(schema, RowWorld(parts, nodes, r), [e], RowWorld(parts, nodes, Do(r, Happens(e)).value))
  {
    var w, r' := RowWorld(parts, nodes, r), Do(r, Happens(e)).value;
    EndsAside(nodes, r, r');
    if e.Sent? {
      assert Bare(r.up[0] + [Give(e.dir, e.m)]) == Bare(r.up[0]) + [e.m];
      OneStep(schema, w, ClientSends(e.m));
    } else {
      assert Bare(r.down[0][1..]) == Bare(r.down[0])[1..];
      OneStep(schema, w, ClientReceives);
    }
  }

  lemma AgentActs(schema: Schema, parts: seq<Shape>, nodes: seq<Node>, r: Row<Calm>, e: Event)
    requires |nodes| == SizeOf(parts) && Fits(|nodes| + 2, r) && e.at == |nodes| + 1 && Do(r, Happens(e)).Some?
    requires e.Received? ==> e.dir == Rightward
    ensures Shows(schema, RowWorld(parts, nodes, r), [At(e, WorldPlace(nodes, e.at))],
                  RowWorld(parts, nodes, Do(r, Happens(e)).value))
  {
    var w, r', last := RowWorld(parts, nodes, r), Do(r, Happens(e)).value, |nodes| + 1;
    EndsAside(nodes, r, r');
    AgentPlace(parts, nodes, r);
    if e.Sent? {
      assert Bare(r.up[last] + [Give(e.dir, e.m)]) == Bare(r.up[last]) + [e.m];
      OneStep(schema, w, AgentSends(e.m));
    } else {
      assert Bare(r.down[last][1..]) == Bare(r.down[last])[1..];
      OneStep(schema, w, AgentReceives);
    }
  }

  /** Nothing comes to the client but from its right, nor to the agent but from its left, and they send no other way. */
  predicate EndsRight(r: Row<Calm>)
    requires |r.up| == |r.down| >= 2
  {
    var last := |r.up| - 1;
    && (forall g :: g in r.down[0] ==> g.dir == Leftward)
    && (forall g :: g in r.down[last] ==> g.dir == Rightward)
  }

  lemma KeepsEnds(r: Row<Calm>, op: Op)
    requires |r.up| == |r.down| >= 2 && EndsRight(r) && Do(r, op).Some?
    ensures EndsRight(Do(r, op).value)
  {
  }

  /** Whatever a row does, the chain can do, however its components are grouped. */
  lemma OpShown(schema: Schema, parts: seq<Shape>, nodes: seq<Node>, r: Row<Calm>, op: Op)
    requires |nodes| == SizeOf(parts) && Fits(|nodes| + 2, r) && EndsRight(r)
    requires Do(r, op).Some? && Able(schema, nodes, r, op)
    ensures op.Happens? ==> op.e.at < |nodes| + 2
    ensures Shows(schema, RowWorld(parts, nodes, r), ShownAs(nodes, op), RowWorld(parts, nodes, Do(r, op).value))
  {
    match op
    case Happens(e) =>
      if e.at == 0 {
        assert e.Received? ==> r.down[0][0] in r.down[0];
        ClientActs(schema, parts, nodes, r, e);
      } else if e.at <= |nodes| {
        ProxyActs(schema, parts, nodes, r, e);
      } else {
        assert e.Received? ==> r.down[e.at][0] in r.down[e.at];
        AgentActs(schema, parts, nodes, r, e);
      }
    case Moves(at) =>
      var g := r.up[at][0];
      if at == 0 {
        ClientMoves(schema, parts, nodes, r, g.m);
      } else if at <= |nodes| {
        ComponentMoves(schema, parts, nodes, r, at - 1, g.dir, g.m);
      } else {
        AgentMoves(schema, parts, nodes, r, g.m);
      }
  }
}
