// A conductor's nested conductors can be taken apart: whatever the same proxies do in one conductor, they do
// in any nesting of conductors, event for event.

module Flattening {
  import opened Outcomes
  import opened Messages
  import opened Envelope
  import opened Routing
  import opened ProxyTree
  import opened ProxyTreeMoves
  import opened Chain
  import opened ChainRuns
  import opened ChainSafety

  // ---- Chains at rest but for their leaves ---------------------------------------------------

  /** How components are grouped into conductors. Each `One` stands for a component given with its links,
      a proxy or, where a conductor is looked at as one component, that conductor. */
  datatype Shape = One | Group(parts: seq<Shape>)

  /** The number of components in a shape, and in the first `i` parts of a group. */
  function Size(s: Shape): nat
    decreases s, 0
  {
    match s case One => 1 case Group(parts) => SizeOf(parts)
  }

  function Offset(parts: seq<Shape>, i: nat): nat
    requires i <= |parts|
    decreases parts, i
  {
    if i == 0 then 0 else Offset(parts, i - 1) + Size(parts[i - 1])
  }

  function SizeOf(parts: seq<Shape>): nat
    decreases parts, |parts| + 1
  {
    Offset(parts, |parts|)
  }

  lemma {:induction false} OffsetGrows(parts: seq<Shape>, i: nat, j: nat)
    requires i <= j <= |parts|
    ensures Offset(parts, i) <= Offset(parts, j)
    decreases j
  {
    if i < j {
      OffsetGrows(parts, i, j - 1);
    }
  }

  /** The part of the links that belongs to component `i`. */
  function Sub(parts: seq<Shape>, links: seq<Kid>, i: nat): (r: seq<Kid>)
    requires |links| == SizeOf(parts) && i < |parts|
    ensures |r| == Size(parts[i])
  {
    OffsetGrows(parts, i + 1, |parts|);
    links[Offset(parts, i)..Offset(parts, i + 1)]
  }

  /** A component of this shape whose only messages are on the links of the given components. */
  ghost function KidOf(s: Shape, links: seq<Kid>): Kid
    requires |links| == Size(s)
    decreases s, 0
  {
    match s
    case One => links[0]
    case Group(parts) => Kid(Nest(true, KidsOf(parts, links), []), [], [])
  }

  ghost function KidsOf(parts: seq<Shape>, links: seq<Kid>): (r: seq<Kid>)
    requires |links| == SizeOf(parts)
    ensures |r| == |parts|
    decreases parts, 3
  {
    SomeKids(parts, links);
    var kids :| AreKids(parts, links, kids);
    kids
  }

  /** The trigger leaves it to `KidsAt` to look at a component. */
  ghost predicate AreKids(parts: seq<Shape>, links: seq<Kid>, kids: seq<Kid>)
    requires |links| == SizeOf(parts)
    decreases parts, 1
  {
    |kids| == |parts| && forall i {:trigger IsKid(parts, links, kids, i)} :: 0 <= i < |parts| ==> IsKid(parts, links, kids, i)
  }

  ghost predicate IsKid(parts: seq<Shape>, links: seq<Kid>, kids: seq<Kid>, i: nat)
    requires |links| == SizeOf(parts) && |kids| == |parts| && i < |parts|
    decreases parts, 0
  {
    kids[i] == KidOf(parts[i], Sub(parts, links, i))
  }

  lemma SomeKids(parts: seq<Shape>, links: seq<Kid>)
    requires |links| == SizeOf(parts)
    ensures exists kids :: AreKids(parts, links, kids)
    decreases parts, 2
  {
    var kids := seq(|parts|, i requires 0 <= i < |parts| => KidOf(parts[i], Sub(parts, links, i)));
    assert AreKids(parts, links, kids);
  }

  lemma KidsAt(parts: seq<Shape>, links: seq<Kid>, i: nat)
    requires |links| == SizeOf(parts) && i < |parts|
    ensures KidsOf(parts, links)[i] == KidOf(parts[i], Sub(parts, links, i))
  {
    assert IsKid(parts, links, KidsOf(parts, links), i);
  }

  ghost function Resting(parts: seq<Shape>, links: seq<Kid>, mailbox: seq<Routed>): Node
    requires |links| == SizeOf(parts)
  {
    Nest(true, KidsOf(parts, links), mailbox)
  }

  lemma SliceOfUpdate<T>(xs: seq<T>, at: nat, x: T, from: nat, to: nat)
    requires from <= to <= |xs| && at < |xs|
    ensures xs[at := x][from..to] == if from <= at < to then xs[from..to][at - from := x] else xs[from..to]
  {
  }

  lemma OffsetsApart(parts: seq<Shape>, i: nat, j: nat)
    requires i < |parts| && j < |parts|
    ensures Offset(parts, i + 1) == Offset(parts, i) + Size(parts[i]) <= SizeOf(parts)
    ensures Offset(parts, j) <= Offset(parts, j + 1) <= SizeOf(parts)
    ensures j < i ==> Offset(parts, j + 1) <= Offset(parts, i)
    ensures j > i ==> Offset(parts, i + 1) <= Offset(parts, j)
  {
    OffsetGrows(parts, i + 1, |parts|);
    OffsetGrows(parts, j + 1, |parts|);
    if j < i {
      OffsetGrows(parts, j + 1, i);
    } else if j > i {
      OffsetGrows(parts, i + 1, j);
    }
  }

  lemma SubChanged(parts: seq<Shape>, links: seq<Kid>, i: nat, t: nat, link: Kid, j: nat)
    requires |links| == SizeOf(parts) && i < |parts| && t < Size(parts[i]) && j < |parts|
    ensures Offset(parts, i) + t < |links|
    ensures Sub(parts, links[Offset(parts, i) + t := link], j)
         == if j == i then Sub(parts, links, i)[t := link] else Sub(parts, links, j)
  {
    OffsetsApart(parts, i, j);
    SliceOfUpdate(links, Offset(parts, i) + t, link, Offset(parts, j), Offset(parts, j + 1));
  }

  /** Changing a link of component `i` changes that component. */
  lemma {:induction false} KidsChanged(parts: seq<Shape>, links: seq<Kid>, i: nat, t: nat, link: Kid)
    requires |links| == SizeOf(parts) && i < |parts| && t < Size(parts[i])
    ensures Offset(parts, i) + t < |links|
    ensures KidsOf(parts, links[Offset(parts, i) + t := link])
         == KidsOf(parts, links)[i := KidOf(parts[i], Sub(parts, links, i)[t := link])]
  {
    SubChanged(parts, links, i, t, link, i);
    KidsAt(parts, links, i);
    var kids' := KidsOf(parts, links[Offset(parts, i) + t := link]);
    forall j | 0 <= j < |parts|
      ensures kids'[j] == KidsOf(parts, links)[i := KidOf(parts[i], Sub(parts, links, i)[t := link])][j]
    {
      SubChanged(parts, links, i, t, link, j);
      KidsAt(parts, links, j);
      KidsAt(parts, links[Offset(parts, i) + t := link], j);
    }
  }

  // ---- Moves that show nothing ---------------------------------------------------------------

  function GivesOf(o: Outcome): seq<Give> {
    if o.gives.Some? then [o.gives.value] else []
  }

  /** Moves with the nodes between them, and what each put on the link of the node. */
  datatype Way = Way(moves: seq<Move>, nodes: seq<Node>, gives: seq<seq<Give>>)
  {
    predicate Fits() {
      |nodes| == |moves| + 1 && |gives| == |moves|
    }
  }

  /** Move `i` of the way is possible and shows nothing. */
  predicate Hop(schema: Schema, way: Way, i: nat)
    requires way.Fits() && i < |way.moves|
  {
    Leap(schema, way.nodes[i], way.moves[i], way.nodes[i + 1], way.gives[i])
  }

  predicate Leap(schema: Schema, n: Node, mv: Move, n': Node, gives: seq<Give>) {
    && !mv.Take?
    && var o := Apply(schema, n, mv);
       o.Some? && o.value.event == None && o.value.node == n' && GivesOf(o.value) == gives
  }

  ghost predicate IsWay(schema: Schema, way: Way) {
    way.Fits() && forall i {:trigger Hop(schema, way, i)} :: 0 <= i < |way.moves| ==> Hop(schema, way, i)
  }

  function AllGives(gives: seq<seq<Give>>): seq<Give> {
    if gives == [] then [] else AllGives(gives[..|gives| - 1]) + gives[|gives| - 1]
  }

  /** Some moves that show nothing lead from `n` to `n'`, and put `gives` on the link of the node. */
  ghost predicate Leads(schema: Schema, n: Node, n': Node, gives: seq<Give>) {
    exists way :: Connects(schema, way, n, n', gives)
  }

  /** The trigger leaves it to `LeadsAlong` and `WayOf` to look at the way. */
  ghost predicate Connects(schema: Schema, way: Way, n: Node, n': Node, gives: seq<Give>) {
    forall u {:trigger Joins(schema, way, n, n', u)} :: Joins(schema, way, n, n', u) <==> u == gives
  }

  ghost predicate Joins(schema: Schema, way: Way, n: Node, n': Node, gives: seq<Give>) {
    IsWay(schema, way) && way.nodes[0] == n && way.nodes[|way.moves|] == n' && AllGives(way.gives) == gives
  }

  lemma LeadsAlong(schema: Schema, way: Way, n: Node, n': Node, gives: seq<Give>)
    requires Joins(schema, way, n, n', gives)
    ensures Leads(schema, n, n', gives)
  {
    forall u ensures Joins(schema, way, n, n', u) <==> u == gives {
    }
    assert Connects(schema, way, n, n', gives);
  }

  lemma WayOf(schema: Schema, n: Node, n': Node, gives: seq<Give>) returns (way: Way)
    requires Leads(schema, n, n', gives)
    ensures Joins(schema, way, n, n', gives)
  {
    way :| Connects(schema, way, n, n', gives);
    assert Joins(schema, way, n, n', gives);
  }

  lemma LeadsNowhere(schema: Schema, n: Node)
    ensures Leads(schema, n, n, [])
  {
    LeadsAlong(schema, Way([], [n], []), n, n, []);
  }

  lemma LeadsByOne(schema: Schema, n: Node, mv: Move)
    requires !mv.Take? && Apply(schema, n, mv).Some? && Apply(schema, n, mv).value.event == None
    ensures var o := Apply(schema, n, mv).value; Leads(schema, n, o.node, GivesOf(o))
  {
    var o := Apply(schema, n, mv).value;
    assert [GivesOf(o)][..0] == [] && [] + GivesOf(o) == GivesOf(o);
    var way := Way([mv], [n, o.node], [GivesOf(o)]);
    assert Hop(schema, way, 0);
    LeadsAlong(schema, way, n, o.node, GivesOf(o));
  }

  lemma {:induction false} AllGivesAppend(a: seq<seq<Give>>, b: seq<seq<Give>>)
    ensures AllGives(a + b) == AllGives(a) + AllGives(b)
    decreases |b|
  {
    if b == [] {
      assert a + b == a;
    } else {
      assert (a + b)[..|a + b| - 1] == a + b[..|b| - 1];
      AllGivesAppend(a, b[..|b| - 1]);
      InThree(AllGives(a), AllGives(b[..|b| - 1]), b[|b| - 1]);
    }
  }

  lemma InThree(a: seq<Give>, b: seq<Give>, c: seq<Give>)
    ensures (a + b) + c == a + (b + c)
  {
  }

  lemma WaysJoin(schema: Schema, a: Way, b: Way) returns (way: Way)
    requires IsWay(schema, a) && IsWay(schema, b) && a.nodes[|a.moves|] == b.nodes[0]
    ensures way == Way(a.moves + b.moves, a.nodes + b.nodes[1..], a.gives + b.gives) && IsWay(schema, way)
  {
    way := Way(a.moves + b.moves, a.nodes + b.nodes[1..], a.gives + b.gives);
    forall i | 0 <= i < |way.moves| ensures Hop(schema, way, i) {
      if i < |a.moves| {
        assert Hop(schema, a, i);
        assert way.nodes[i] == a.nodes[i] && way.nodes[i + 1] == a.nodes[i + 1];
      } else {
        var j := i - |a.moves|;
        assert Hop(schema, b, j);
        assert way.nodes[i] == b.nodes[j] && way.nodes[i + 1] == b.nodes[j + 1];
      }
    }
  }

  lemma LeadsOn(schema: Schema, n: Node, n': Node, gives: seq<Give>, n'': Node, more: seq<Give>)
    requires Leads(schema, n, n', gives) && Leads(schema, n', n'', more)
    ensures Leads(schema, n, n'', gives + more)
  {
    var a := WayOf(schema, n, n', gives);
    var b := WayOf(schema, n', n'', more);
    var way := WaysJoin(schema, a, b);
    AllGivesAppend(a.gives, b.gives);
    LeadsAlong(schema, way, n, n'', gives + more);
  }

  /** The first way gives nothing. */
  lemma LeadsFurther(schema: Schema, n: Node, n': Node, n'': Node, gives: seq<Give>)
    requires Leads(schema, n, n', []) && Leads(schema, n', n'', gives)
    ensures Leads(schema, n, n'', gives)
  {
    LeadsOn(schema, n, n', [], n'', gives);
    assert [] + gives == gives;
  }

  function UpWires(gives: seq<Give>): seq<Wire> {
    if gives == [] then [] else UpWires(gives[..|gives| - 1]) + [ToLinkUp(gives[|gives| - 1])]
  }

  lemma UpWiresMore(gives: seq<Give>, more: seq<Give>)
    requires |more| <= 1
    ensures UpWires(gives + more) == UpWires(gives) + if more == [] then [] else [ToLinkUp(more[0])]
  {
    assert gives + [] == gives && UpWires(gives) + [] == UpWires(gives);
    if more != [] {
      assert (gives + more)[..|gives|] == gives;
    }
  }

  /** The node while its child `i` is `kid`, having given `gives`. */
  function Around(n: Node, i: nat, kid: Node, gives: seq<Give>): Node
    requires n.Nest? && i < |n.kids|
  {
    n.(kids := n.kids[i := Kid(kid, n.kids[i].down, n.kids[i].up + UpWires(gives))])
  }

  lemma AroundLeap(schema: Schema, n: Node, i: nat, node: Node, mv: Move, node': Node, gives: seq<Give>, more: seq<Give>)
    requires n.Nest? && n.ready && i < |n.kids| && Leap(schema, node, mv, node', more)
    ensures Leap(schema, Around(n, i, node, gives), Inside(i, mv), Around(n, i, node', gives + more), [])
  {
    AroundMove(n, i, node, gives, Apply(schema, node, mv).value);
  }

  lemma AroundMove(n: Node, i: nat, node: Node, gives: seq<Give>, o: Outcome)
    requires n.Nest? && i < |n.kids|
    ensures var before := Around(n, i, node, gives);
      before.(kids := before.kids[i := AfterInside(before, i, o)]) == Around(n, i, o.node, gives + GivesOf(o))
  {
    var before, up := Around(n, i, node, gives), n.kids[i].up;
    UpWiresMore(gives, GivesOf(o));
    if o.gives.Some? {
      assert up + (UpWires(gives) + [ToLinkUp(o.gives.value)]) == up + UpWires(gives) + [ToLinkUp(o.gives.value)];
    }
    var kid := AfterInside(before, i, o);
    assert kid == Kid(o.node, n.kids[i].down, up + UpWires(gives + GivesOf(o)));
    assert before.kids[i := kid] == n.kids[i := kid];
  }

  /** What a child does by itself. */
  lemma LeadsInside(schema: Schema, n: Node, i: nat, node: Node, gives: seq<Give>)
    requires n.Nest? && n.ready && i < |n.kids| && Leads(schema, n.kids[i].node, node, gives)
    ensures Leads(schema, n, n.(kids := n.kids[i := Kid(node, n.kids[i].down, n.kids[i].up + UpWires(gives))]), [])
  {
    var way := WayOf(schema, n.kids[i].node, node, gives);
    var k := |way.moves|;
    var outer := Way(seq(k, j requires 0 <= j < k => Inside(i, way.moves[j])),
                     seq(k + 1, j requires 0 <= j <= k => Around(n, i, way.nodes[j], AllGives(way.gives[..j]))),
                     seq(k, j => []));
    forall j | 0 <= j < k ensures Hop(schema, outer, j) {
      assert Hop(schema, way, j);
      assert way.gives[..j + 1][..j] == way.gives[..j];
      AroundLeap(schema, n, i, way.nodes[j], way.moves[j], way.nodes[j + 1], AllGives(way.gives[..j]), way.gives[j]);
    }
    NoGives(outer.gives);
    assert way.gives[..k] == way.gives;
    assert n.kids[i].up + [] == n.kids[i].up && Around(n, i, n.kids[i].node, []).kids == n.kids;
    LeadsAlong(schema, outer, n, Around(n, i, node, gives), []);
  }

  lemma {:induction false} NoGives(gives: seq<seq<Give>>)
    requires forall j :: 0 <= j < |gives| ==> gives[j] == []
    ensures AllGives(gives) == []
  {
    if gives != [] {
      NoGives(gives[..|gives| - 1]);
    }
  }

  // ---- One message on its way ----------------------------------------------------------------

  /** A mailbox entry between components `q - 1` and `q`. */
  function Entry(dir: Direction, k: nat, q: nat, m: Traffic): Routed {
    if dir == Rightward then LeftToRight(q, m) else RightToLeft(if q == k then FromSuccessor else FromProxy(q), m)
  }

  function DownForm(dir: Direction, m: Traffic): DownWire
    requires Quiet(m)
  {
    UnwrapWrap(m);
    if dir == Rightward then m else Wrap(m)
  }

  lemma RouteStep(schema: Schema, dir: Direction, kids: seq<Kid>, q: nat, m: Traffic)
    requires q <= |kids| && Quiet(m)
    ensures var n := Nest(true, kids, [Entry(dir, |kids|, q, m)]);
      if q == (if dir == Rightward then |kids| else 0) then Leads(schema, n, Nest(true, kids, []), [Give(dir, m)])
      else
        var i := if dir == Rightward then q else q - 1;
        Leads(schema, n, Nest(true, kids[i := Kid(kids[i].node, kids[i].down + [DownForm(dir, m)], kids[i].up)], []), [])
  {
    var n := Nest(true, kids, [Entry(dir, |kids|, q, m)]);
    RouteOutcome(schema, dir, kids, q, m);
    LeadsByOne(schema, n, Route);
  }

  lemma RouteOutcome(schema: Schema, dir: Direction, kids: seq<Kid>, q: nat, m: Traffic)
    requires q <= |kids| && Quiet(m)
    ensures Apply(schema, Nest(true, kids, [Entry(dir, |kids|, q, m)]), Route)
      == Some(if q == (if dir == Rightward then |kids| else 0) then Outcome(Nest(true, kids, []), None, Some(Give(dir, m)))
              else
                var i := if dir == Rightward then q else q - 1;
                Outcome(Nest(true, kids[i := Kid(kids[i].node, kids[i].down + [DownForm(dir, m)], kids[i].up)], []), None, None))
  {
    UnwrapWrap(m);
    assert [Entry(dir, |kids|, q, m)][1..] == [];
  }

  /** A nested conductor takes the only message on its link. */
  lemma FeedStep(schema: Schema, dir: Direction, kids: seq<Kid>, i: nat, inner: Node, m: Traffic, up: seq<Wire>)
    requires i < |kids| && Quiet(m) && inner.Nest? && inner.mailbox == []
    requires kids[i] == Kid(inner, [DownForm(dir, m)], up)
    ensures var q := if dir == Rightward then 0 else |inner.kids|;
      Leads(schema, Nest(true, kids, []),
            Nest(true, kids[i := Kid(inner.(mailbox := [Entry(dir, |inner.kids|, q, m)]), [], up)], []), [])
  {
    UnwrapWrap(m);
    assert [DownForm(dir, m)][1..] == [];
    assert [] + [Entry(dir, |inner.kids|, if dir == Rightward then 0 else |inner.kids|, m)]
        == [Entry(dir, |inner.kids|, if dir == Rightward then 0 else |inner.kids|, m)];
    LeadsByOne(schema, Nest(true, kids, []), Feed(i));
  }

  lemma PumpStep(schema: Schema, dir: Direction, kids: seq<Kid>, i: nat, m: Traffic, rest: seq<Wire>)
    requires i < |kids| && Quiet(m) && kids[i].up == [ToLinkUp(Give(dir, m))] + rest
    ensures var q := if dir == Rightward then i + 1 else i;
      Leads(schema, Nest(true, kids, []),
            Nest(true, kids[i := Kid(kids[i].node, kids[i].down, rest)], [Entry(dir, |kids|, q, m)]), [])
  {
    UnwrapWrap(m);
    assert kids[i].up[1..] == rest;
    var q := if dir == Rightward then i + 1 else i;
    assert [] + [Entry(dir, |kids|, q, m)] == [Entry(dir, |kids|, q, m)];
    LeadsByOne(schema, Nest(true, kids, []), Pump(i));
  }

  /** The proxy next to the boundary before proxy `b`, in the direction of travel. */
  function Target(dir: Direction, b: nat, count: nat): (t: Option<nat>)
    requires b <= count
    ensures t.Some? ==> t.value < count
  {
    if dir == Rightward then (if b < count then Some(b) else None) else (if b > 0 then Some(b - 1) else None)
  }

  function PutDown(links: seq<Kid>, t: nat, w: DownWire): (r: seq<Kid>)
    requires t < |links|
    ensures |r| == |links|
  {
    links[t := links[t].(down := links[t].down + [w])]
  }

  /** From `n` the message reaches the proxy next to boundary `b`, or leaves the conductor if there is none. */
  ghost predicate Reaches(schema: Schema, dir: Direction, n: Node, parts: seq<Shape>, links: seq<Kid>, b: nat, m: Traffic)
    requires |links| == SizeOf(parts) && b <= |links| && Quiet(m)
  {
    match Target(dir, b, |links|)
    case Some(t) => Leads(schema, n, Resting(parts, PutDown(links, t, DownForm(dir, m)), []), [])
    case None => Leads(schema, n, Resting(parts, links, []), [Give(dir, m)])
  }

  lemma ReachesOn(schema: Schema, dir: Direction, n: Node, n': Node, parts: seq<Shape>, links: seq<Kid>, b: nat, m: Traffic)
    requires |links| == SizeOf(parts) && b <= |links| && Quiet(m)
    requires Leads(schema, n, n', []) && Reaches(schema, dir, n', parts, links, b, m)
    ensures Reaches(schema, dir, n, parts, links, b, m)
  {
    match Target(dir, b, |links|)
    case Some(t) => LeadsFurther(schema, n, n',
                 Resting(parts, PutDown(links, t, DownForm(dir, m)), []), []);
    case None =>
      LeadsFurther(schema, n, n',
                 Resting(parts, links, []), [Give(dir, m)]);
      assert [] + [Give(dir, m)] == [Give(dir, m)];
  }

  lemma {:induction false} EnterGroup(schema: Schema, dir: Direction, kids: seq<Kid>, i: nat, inner: Node, m: Traffic,
                                      node: Node, gives: seq<Give>)
    requires i < |kids| && Quiet(m) && inner.Nest? && inner.mailbox == [] && kids[i] == Kid(inner, [], [])
    requires var q := if dir == Rightward then 0 else |inner.kids|;
      Leads(schema, inner.(mailbox := [Entry(dir, |inner.kids|, q, m)]), node, gives)
    ensures Leads(schema, Nest(true, kids[i := Kid(inner, [DownForm(dir, m)], [])], []),
                  Nest(true, kids[i := Kid(node, [], UpWires(gives))], []), [])
  {
    var w := DownForm(dir, m);
    var fed := inner.(mailbox := [Entry(dir, |inner.kids|, if dir == Rightward then 0 else |inner.kids|, m)]);
    var kids1, kids2 := kids[i := Kid(inner, [w], [])], kids[i := Kid(fed, [], [])];
    assert kids1[i := Kid(fed, [], [])] == kids2;
    FeedStep(schema, dir, kids1, i, inner, m, []);
    LeadsInside(schema, Nest(true, kids2, []), i, node, gives);
    assert [] + UpWires(gives) == UpWires(gives);
    assert kids2[i := Kid(node, [], UpWires(gives))] == kids[i := Kid(node, [], UpWires(gives))];
    LeadsFurther(schema, Nest(true, kids1, []), Nest(true, kids2, []),
                 Nest(true, kids[i := Kid(node, [], UpWires(gives))], []), []);
  }

  /** Component `i` after a message has come to rest at its proxy `t`. */
  lemma KidReached(parts: seq<Shape>, links: seq<Kid>, i: nat, t: nat, w: DownWire)
    requires |links| == SizeOf(parts) && i < |parts| && t < Size(parts[i])
    ensures Offset(parts, i) + t < |links|
    ensures KidsOf(parts, PutDown(links, Offset(parts, i) + t, w))
         == KidsOf(parts, links)[i := KidOf(parts[i], PutDown(Sub(parts, links, i), t, w))]
  {
    OffsetGrows(parts, i + 1, |parts|);
    var at := Offset(parts, i) + t;
    assert Sub(parts, links, i)[t] == links[at];
    KidsChanged(parts, links, i, t, links[at].(down := links[at].down + [w]));
  }

  /** A message in the mailbox goes to the next proxy, through any conductors on the way, or out. */
  lemma {:induction false} Pass(schema: Schema, dir: Direction, parts: seq<Shape>, links: seq<Kid>, q: nat, m: Traffic)
    requires |links| == SizeOf(parts) && q <= |parts| && Quiet(m)
    ensures Offset(parts, q) <= |links|
    ensures Reaches(schema, dir, Resting(parts, links, [Entry(dir, |parts|, q, m)]), parts, links, Offset(parts, q), m)
    decreases parts, if dir == Rightward then |parts| - q else q, 1
  {
    OffsetGrows(parts, q, |parts|);
    RouteStep(schema, dir, KidsOf(parts, links), q, m);
    if q != if dir == Rightward then |parts| else 0 {
      var i := if dir == Rightward then q else q - 1;
      PassInto(schema, dir, parts, links, i, m);
      ReachesOn(schema, dir, Resting(parts, links, [Entry(dir, |parts|, q, m)]), Entering(parts, links, i, DownForm(dir, m)),
                parts, links, Offset(parts, q), m);
    }
  }

  /** The boundary before component `i`, seen from outside and from inside it. */
  lemma TargetInside(dir: Direction, parts: seq<Shape>, i: nat)
    requires i < |parts|
    ensures var q, q' := if dir == Rightward then i else i + 1, if dir == Rightward then i + 1 else i;
      var b := if dir == Rightward then 0 else Size(parts[i]);
      && Offset(parts, q) <= SizeOf(parts) && Offset(parts, q') <= SizeOf(parts)
      && match Target(dir, b, Size(parts[i]))
         case Some(t) => Target(dir, Offset(parts, q), SizeOf(parts)) == Some(Offset(parts, i) + t)
         case None => Offset(parts, q') == Offset(parts, q)
  {
    OffsetGrows(parts, i, |parts|);
    OffsetGrows(parts, i + 1, |parts|);
  }

  /** The message has been put on the link down to component `i`. */
  ghost function Entering(parts: seq<Shape>, links: seq<Kid>, i: nat, w: DownWire): Node
    requires |links| == SizeOf(parts) && i < |parts|
  {
    var kid := KidsOf(parts, links)[i];
    Nest(true, KidsOf(parts, links)[i := Kid(kid.node, kid.down + [w], kid.up)], [])
  }

  lemma EnteringOne(parts: seq<Shape>, links: seq<Kid>, i: nat, w: DownWire)
    requires |links| == SizeOf(parts) && i < |parts| && parts[i] == One
    ensures Offset(parts, i) < |links|
    ensures Entering(parts, links, i, w) == Resting(parts, PutDown(links, Offset(parts, i), w), [])
  {
    KidsAt(parts, links, i);
    KidReached(parts, links, i, 0, w);
  }

  lemma {:induction false} PassInto(schema: Schema, dir: Direction, parts: seq<Shape>, links: seq<Kid>, i: nat, m: Traffic)
    requires |links| == SizeOf(parts) && Quiet(m) && i < |parts|
    ensures var q := if dir == Rightward then i else i + 1;
      && Offset(parts, q) <= |links|
      && Reaches(schema, dir, Entering(parts, links, i, DownForm(dir, m)), parts, links, Offset(parts, q), m)
    decreases parts, if dir == Rightward then |parts| - i else i + 1, 0
  {
    TargetInside(dir, parts, i);
    match parts[i]
    case One =>
      EnteringOne(parts, links, i, DownForm(dir, m));
      LeadsNowhere(schema, Entering(parts, links, i, DownForm(dir, m)));
    case Group(ps) =>
      Pass(schema, dir, ps, Sub(parts, links, i), if dir == Rightward then 0 else |ps|, m);
      match Target(dir, if dir == Rightward then 0 else SizeOf(ps), SizeOf(ps))
      case Some(t) =>
        SubAt(parts, links, i, t);
        PassInside(schema, dir, parts, links, PutDown(links, Offset(parts, i) + t, DownForm(dir, m)), i, ps,
                   PutDown(Sub(parts, links, i), t, DownForm(dir, m)), t, Offset(parts, i) + t, m);
      case None =>
        PassAcross(schema, dir, parts, links, i, ps, m);
        PassBehind(schema, dir, parts, links, i, m);
  }

  /** The message comes to a proxy of the component. */
  lemma PassInside(schema: Schema, dir: Direction, parts: seq<Shape>, links: seq<Kid>, links': seq<Kid>, i: nat, ps: seq<Shape>,
                   sub': seq<Kid>, t: nat, at: nat, m: Traffic)
    requires |links| == SizeOf(parts) && Quiet(m) && i < |parts| && parts[i] == Group(ps) && t < SizeOf(ps)
    requires at == Offset(parts, i) + t < |links| && links' == PutDown(links, at, DownForm(dir, m))
    requires sub' == PutDown(Sub(parts, links, i), t, DownForm(dir, m))
    requires Leads(schema, Resting(ps, Sub(parts, links, i), [Entry(dir, |ps|, if dir == Rightward then 0 else |ps|, m)]),
                   Resting(ps, sub', []), [])
    ensures Leads(schema, Entering(parts, links, i, DownForm(dir, m)), Resting(parts, links', []), [])
  {
    GroupReached(parts, links, i, ps, t, DownForm(dir, m));
    ComesTo(schema, dir, parts, links, links', i, ps, sub', m);
  }

  lemma ComesTo(schema: Schema, dir: Direction, parts: seq<Shape>, links: seq<Kid>, links': seq<Kid>, i: nat, ps: seq<Shape>,
                sub': seq<Kid>, m: Traffic)
    requires |links| == |links'| == SizeOf(parts) && Quiet(m) && i < |parts| && parts[i] == Group(ps) && |sub'| == SizeOf(ps)
    requires KidsOf(parts, links') == KidsOf(parts, links)[i := Kid(Resting(ps, sub', []), [], [])]
    requires Leads(schema, Resting(ps, Sub(parts, links, i), [Entry(dir, |ps|, if dir == Rightward then 0 else |ps|, m)]),
                   Resting(ps, sub', []), [])
    ensures Leads(schema, Entering(parts, links, i, DownForm(dir, m)), Resting(parts, links', []), [])
  {
    GroupAt(parts, links, i, ps);
    IntoGroup(schema, dir, KidsOf(parts, links), i, Resting(ps, Sub(parts, links, i), []), m, Resting(ps, sub', []));
  }

  /** There are no proxies in the component: the message crosses it. */
  lemma PassAcross(schema: Schema, dir: Direction, parts: seq<Shape>, links: seq<Kid>, i: nat, ps: seq<Shape>, m: Traffic)
    requires |links| == SizeOf(parts) && Quiet(m) && i < |parts| && parts[i] == Group(ps)
    requires var b := if dir == Rightward then 0 else SizeOf(ps);
      && Target(dir, b, SizeOf(ps)).None?
      && Reaches(schema, dir, Resting(ps, Sub(parts, links, i), [Entry(dir, |ps|, if dir == Rightward then 0 else |ps|, m)]),
                 ps, Sub(parts, links, i), b, m)
    ensures var q' := if dir == Rightward then i + 1 else i;
      Leads(schema, Entering(parts, links, i, DownForm(dir, m)), Resting(parts, links, [Entry(dir, |parts|, q', m)]), [])
  {
    GroupAt(parts, links, i, ps);
    AcrossGroup(schema, dir, KidsOf(parts, links), i, Resting(ps, Sub(parts, links, i), []), m);
  }

  /** The message has crossed a component without proxies. */
  lemma {:induction false} PassBehind(schema: Schema, dir: Direction, parts: seq<Shape>, links: seq<Kid>, i: nat, m: Traffic)
    requires |links| == SizeOf(parts) && Quiet(m) && i < |parts|
    requires var q' := if dir == Rightward then i + 1 else i;
      Leads(schema, Entering(parts, links, i, DownForm(dir, m)), Resting(parts, links, [Entry(dir, |parts|, q', m)]), [])
    ensures var q' := if dir == Rightward then i + 1 else i;
      && Offset(parts, q') <= |links|
      && Reaches(schema, dir, Entering(parts, links, i, DownForm(dir, m)), parts, links, Offset(parts, q'), m)
    decreases parts, if dir == Rightward then |parts| - i - 1 else i, 2
  {
    var q' := if dir == Rightward then i + 1 else i;
    Pass(schema, dir, parts, links, q', m);
    ReachesOn(schema, dir, Entering(parts, links, i, DownForm(dir, m)), Resting(parts, links, [Entry(dir, |parts|, q', m)]),
              parts, links, Offset(parts, q'), m);
  }

  lemma GroupAt(parts: seq<Shape>, links: seq<Kid>, i: nat, ps: seq<Shape>)
    requires |links| == SizeOf(parts) && i < |parts| && parts[i] == Group(ps)
    ensures KidsOf(parts, links)[i] == Kid(Resting(ps, Sub(parts, links, i), []), [], [])
  {
    KidsAt(parts, links, i);
  }

  lemma GroupReached(parts: seq<Shape>, links: seq<Kid>, i: nat, ps: seq<Shape>, t: nat, w: DownWire)
    requires |links| == SizeOf(parts) && i < |parts| && parts[i] == Group(ps) && t < SizeOf(ps)
    ensures Offset(parts, i) + t < |links|
    ensures KidsOf(parts, PutDown(links, Offset(parts, i) + t, w))
         == KidsOf(parts, links)[i := Kid(Resting(ps, PutDown(Sub(parts, links, i), t, w), []), [], [])]
  {
    KidReached(parts, links, i, t, w);
  }

  /** The message comes to rest inside the group, or leaves it on the other side. */
  lemma IntoGroup(schema: Schema, dir: Direction, kids: seq<Kid>, i: nat, inner: Node, m: Traffic, node: Node)
    requires i < |kids| && Quiet(m) && inner.Nest? && inner.mailbox == [] && kids[i] == Kid(inner, [], [])
    requires var q := if dir == Rightward then 0 else |inner.kids|;
      Leads(schema, inner.(mailbox := [Entry(dir, |inner.kids|, q, m)]), node, [])
    ensures Leads(schema, Nest(true, kids[i := Kid(inner, [] + [DownForm(dir, m)], [])], []),
                  Nest(true, kids[i := Kid(node, [], [])], []), [])
  {
    assert [] + [DownForm(dir, m)] == [DownForm(dir, m)] && UpWires([]) == [];
    EnterGroup(schema, dir, kids, i, inner, m, node, []);
  }

  lemma AcrossGroup(schema: Schema, dir: Direction, kids: seq<Kid>, i: nat, inner: Node, m: Traffic)
    requires i < |kids| && Quiet(m) && inner.Nest? && inner.mailbox == [] && kids[i] == Kid(inner, [], [])
    requires var q := if dir == Rightward then 0 else |inner.kids|;
      Leads(schema, inner.(mailbox := [Entry(dir, |inner.kids|, q, m)]), inner, [Give(dir, m)])
    ensures Leads(schema, Nest(true, kids[i := Kid(inner, [] + [DownForm(dir, m)], [])], []),
                  Nest(true, kids, [Entry(dir, |kids|, if dir == Rightward then i + 1 else i, m)]), [])
  {
    var w := DownForm(dir, m);
    assert [] + [w] == [w];
    EnterGroup(schema, dir, kids, i, inner, m, inner, [Give(dir, m)]);
    OutOfGroup(schema, dir, kids, i, m);
    LeadsFurther(schema, Nest(true, kids[i := Kid(inner, [w], [])], []), Nest(true, kids[i := Kid(inner, [], UpWires([Give(dir, m)]))], []),
                 Nest(true, kids, [Entry(dir, |kids|, if dir == Rightward then i + 1 else i, m)]), []);
  }

  lemma OutOfGroup(schema: Schema, dir: Direction, kids: seq<Kid>, i: nat, m: Traffic)
    requires i < |kids| && Quiet(m) && kids[i].down == [] && kids[i].up == []
    ensures var q := if dir == Rightward then i + 1 else i;
      Leads(schema, Nest(true, kids[i := Kid(kids[i].node, [], UpWires([Give(dir, m)]))], []),
            Nest(true, kids, [Entry(dir, |kids|, q, m)]), [])
  {
    var w := ToLinkUp(Give(dir, m));
    assert [Give(dir, m)][..0] == [] && UpWires([]) == [];
    assert UpWires([Give(dir, m)]) == [w] + [];
    var kids' := kids[i := Kid(kids[i].node, [], [w])];
    assert kids'[i := Kid(kids[i].node, [], [])] == kids;
    PumpStep(schema, dir, kids', i, m, []);
  }

  // ---- From a proxy --------------------------------------------------------------------------

  /** The component that proxy `t` belongs to. */
  lemma {:induction false} WhichPart(parts: seq<Shape>, n: nat, t: nat) returns (i: nat)
    requires n <= |parts| && t < Offset(parts, n)
    ensures i < n && Offset(parts, i) <= t < Offset(parts, i + 1)
    decreases n
  {
    if t >= Offset(parts, n - 1) {
      i := n - 1;
    } else {
      i := WhichPart(parts, n - 1, t);
    }
  }

  function PutUp(links: seq<Kid>, t: nat, up: seq<Wire>): (r: seq<Kid>)
    requires t < |links|
    ensures |r| == |links|
  {
    links[t := links[t].(up := up)]
  }

  lemma KidWithUp(parts: seq<Shape>, links: seq<Kid>, i: nat, t: nat, up: seq<Wire>)
    requires |links| == SizeOf(parts) && i < |parts| && t < Size(parts[i])
    ensures Offset(parts, i) + t < |links| && Sub(parts, links, i)[t] == links[Offset(parts, i) + t]
    ensures Sub(parts, PutUp(links, Offset(parts, i) + t, up), i) == PutUp(Sub(parts, links, i), t, up)
    ensures KidsOf(parts, PutUp(links, Offset(parts, i) + t, up))
         == KidsOf(parts, links)[i := KidOf(parts[i], PutUp(Sub(parts, links, i), t, up))]
  {
    OffsetGrows(parts, i + 1, |parts|);
    var at := Offset(parts, i) + t;
    assert Sub(parts, links, i)[t] == links[at];
    KidsChanged(parts, links, i, t, links[at].(up := up));
    SubChanged(parts, links, i, t, links[at].(up := up), i);
  }

  /** The boundary a message sent by proxy `t` of component `i` comes to, inside and outside the component. */
  lemma TargetOutside(dir: Direction, parts: seq<Shape>, i: nat, t: nat)
    requires i < |parts| && t < Size(parts[i])
    ensures var b, q := if dir == Rightward then t + 1 else t, if dir == Rightward then i + 1 else i;
      && Offset(parts, i) + b <= SizeOf(parts) && Offset(parts, q) <= SizeOf(parts)
      && match Target(dir, b, Size(parts[i]))
         case Some(t') => Target(dir, Offset(parts, i) + b, SizeOf(parts)) == Some(Offset(parts, i) + t')
         case None => Offset(parts, q) == Offset(parts, i) + b
  {
    OffsetGrows(parts, i, |parts|);
    OffsetGrows(parts, i + 1, |parts|);
  }

  /** The oldest message a proxy has put on its link goes to the next proxy, or out. */
  lemma {:induction false} Leave(schema: Schema, dir: Direction, parts: seq<Shape>, links: seq<Kid>, t: nat, m: Traffic, rest: seq<Wire>)
    requires |links| == SizeOf(parts) && t < |links| && Quiet(m)
    requires links[t].up == [ToLinkUp(Give(dir, m))] + rest
    ensures Reaches(schema, dir, Resting(parts, links, []), parts, PutUp(links, t, rest), if dir == Rightward then t + 1 else t, m)
    decreases parts
  {
    var i := WhichPart(parts, |parts|, t);
    var off := Offset(parts, i);
    match parts[i]
    case One => LeaveOne(schema, dir, parts, links, i, m, rest);
    case Group(ps) =>
      KidWithUp(parts, links, i, t - off, rest);
      var sub, local := Sub(parts, links, i), t - off;
      Leave(schema, dir, ps, sub, local, m, rest);
      LeavePart(schema, dir, parts, links, PutUp(links, t, rest), i, ps, PutUp(sub, local, rest), t, local,
                if dir == Rightward then local + 1 else local, if dir == Rightward then t + 1 else t, m, rest);
  }

  lemma GroupWithUp(parts: seq<Shape>, links: seq<Kid>, i: nat, ps: seq<Shape>, t: nat, up: seq<Wire>)
    requires |links| == SizeOf(parts) && i < |parts| && parts[i] == Group(ps) && t < SizeOf(ps)
    ensures Offset(parts, i) + t < |links|
    ensures KidsOf(parts, PutUp(links, Offset(parts, i) + t, up))
         == KidsOf(parts, links)[i := Kid(Resting(ps, PutUp(Sub(parts, links, i), t, up), []), [], [])]
  {
    KidWithUp(parts, links, i, t, up);
  }

  /** A group whose proxy `t` has lost a message that its proxy `t'` has got. */
  lemma GroupExchanged(parts: seq<Shape>, links: seq<Kid>, i: nat, ps: seq<Shape>, t: nat, up: seq<Wire>, t': nat, w: DownWire)
    requires |links| == SizeOf(parts) && i < |parts| && parts[i] == Group(ps) && t < SizeOf(ps) && t' < SizeOf(ps)
    ensures Offset(parts, i) + t < |links| && Offset(parts, i) + t' < |links|
    ensures KidsOf(parts, PutDown(PutUp(links, Offset(parts, i) + t, up), Offset(parts, i) + t', w))
         == KidsOf(parts, links)[i := Kid(Resting(ps, PutDown(PutUp(Sub(parts, links, i), t, up), t', w), []), [], [])]
  {
    KidWithUp(parts, links, i, t, up);
    GroupReached(parts, PutUp(links, Offset(parts, i) + t, up), i, ps, t', w);
  }

  /** From inside a group, given where the message comes to in the group. */
  lemma LeavePart(schema: Schema, dir: Direction, parts: seq<Shape>, links: seq<Kid>, links': seq<Kid>, i: nat, ps: seq<Shape>,
                  sub': seq<Kid>, at: nat, t: nat, b: nat, b': nat, m: Traffic, rest: seq<Wire>)
    requires |links| == SizeOf(parts) && i < |parts| && parts[i] == Group(ps) && t < SizeOf(ps) && Quiet(m)
    requires at == Offset(parts, i) + t < |links| && links' == PutUp(links, at, rest)
    requires b == (if dir == Rightward then t + 1 else t) && b' == Offset(parts, i) + b <= |links|
    requires sub' == PutUp(Sub(parts, links, i), t, rest)
    requires Reaches(schema, dir, Resting(ps, Sub(parts, links, i), []), ps, sub', b, m)
    ensures Reaches(schema, dir, Resting(parts, links, []), parts, links', b', m)
  {
    TargetOutside(dir, parts, i, t);
    if Target(dir, b, |sub'|).Some? {
      var t' := Target(dir, b, |sub'|).value;
      ReachedInside(schema, dir, ps, Resting(ps, Sub(parts, links, i), []), sub', b, m, t');
      LeaveInside(schema, dir, parts, links, links', i, ps, sub', at, t, b', t', m, rest);
    } else {
      LeaveAcross(schema, dir, parts, links, links', i, ps, sub', at, t, b, b', m, rest);
    }
  }

  lemma LeaveInside(schema: Schema, dir: Direction, parts: seq<Shape>, links: seq<Kid>, links': seq<Kid>, i: nat, ps: seq<Shape>,
                  sub': seq<Kid>, at: nat, t: nat, b': nat, t': nat, m: Traffic, rest: seq<Wire>)
    requires |links| == SizeOf(parts) && i < |parts| && parts[i] == Group(ps) && t < SizeOf(ps) && Quiet(m)
    requires at == Offset(parts, i) + t < |links| && links' == PutUp(links, at, rest)
    requires sub' == PutUp(Sub(parts, links, i), t, rest) && t' < |sub'|
    requires b' <= |links| && Target(dir, b', |links|) == Some(Offset(parts, i) + t')
    requires Leads(schema, Resting(ps, Sub(parts, links, i), []), Resting(ps, PutDown(sub', t', DownForm(dir, m)), []), [])
    ensures Reaches(schema, dir, Resting(parts, links, []), parts, links', b', m)
  {
    StayAt(schema, parts, links, links', i, ps, sub', at, t, rest, t', Offset(parts, i) + t', DownForm(dir, m));
    ReachesAt(schema, dir, Resting(parts, links, []), parts, links', b', m, Offset(parts, i) + t');
  }

  lemma ReachedInside(schema: Schema, dir: Direction, ps: seq<Shape>, n: Node, links: seq<Kid>, b: nat, m: Traffic, t: nat)
    requires |links| == SizeOf(ps) && b <= |links| && Quiet(m)
    requires Reaches(schema, dir, n, ps, links, b, m) && Target(dir, b, |links|) == Some(t)
    ensures Leads(schema, n, Resting(ps, PutDown(links, t, DownForm(dir, m)), []), [])
  {
  }

  lemma ReachedOutside(schema: Schema, dir: Direction, ps: seq<Shape>, n: Node, links: seq<Kid>, b: nat, m: Traffic)
    requires |links| == SizeOf(ps) && b <= |links| && Quiet(m)
    requires Reaches(schema, dir, n, ps, links, b, m) && Target(dir, b, |links|) == None
    ensures Leads(schema, n, Resting(ps, links, []), [Give(dir, m)])
  {
  }

  lemma LeaveAcross(schema: Schema, dir: Direction, parts: seq<Shape>, links: seq<Kid>, links': seq<Kid>, i: nat, ps: seq<Shape>,
                  sub': seq<Kid>, at: nat, t: nat, b: nat, b': nat, m: Traffic, rest: seq<Wire>)
    requires |links| == SizeOf(parts) && i < |parts| && parts[i] == Group(ps) && t < SizeOf(ps) && Quiet(m)
    requires at == Offset(parts, i) + t < |links| && links' == PutUp(links, at, rest)
    requires b == (if dir == Rightward then t + 1 else t) && b' == Offset(parts, i) + b <= |links|
    requires sub' == PutUp(Sub(parts, links, i), t, rest)
    requires Reaches(schema, dir, Resting(ps, Sub(parts, links, i), []), ps, sub', b, m)
    requires Target(dir, b, |sub'|).None?
    ensures Reaches(schema, dir, Resting(parts, links, []), parts, links', b', m)
  {
    TargetOutside(dir, parts, i, t);
    var q := if dir == Rightward then i + 1 else i;
    LeaveOutside(schema, dir, parts, links, links', i, ps, q, t, m, rest);
    assert Offset(parts, q) == b';
  }

  lemma ReachesAt(schema: Schema, dir: Direction, n: Node, parts: seq<Shape>, links: seq<Kid>, b: nat, m: Traffic, t: nat)
    requires |links| == SizeOf(parts) && b <= |links| && Quiet(m) && Target(dir, b, |links|) == Some(t)
    requires Leads(schema, n, Resting(parts, PutDown(links, t, DownForm(dir, m)), []), [])
    ensures Reaches(schema, dir, n, parts, links, b, m)
  {
  }

  lemma StayAt(schema: Schema, parts: seq<Shape>, links: seq<Kid>, links': seq<Kid>, i: nat, ps: seq<Shape>, sub': seq<Kid>,
               at: nat, t: nat, rest: seq<Wire>, t': nat, at': nat, w: DownWire)
    requires |links| == SizeOf(parts) && i < |parts| && parts[i] == Group(ps) && t < SizeOf(ps) && t' < SizeOf(ps)
    requires at == Offset(parts, i) + t < |links| && links' == PutUp(links, at, rest) && sub' == PutUp(Sub(parts, links, i), t, rest)
    requires Leads(schema, Resting(ps, Sub(parts, links, i), []), Resting(ps, PutDown(sub', t', w), []), [])
    requires at' == Offset(parts, i) + t'
    ensures at' < |links'|
    ensures Leads(schema, Resting(parts, links, []), Resting(parts, PutDown(links', at', w), []), [])
  {
    GroupAt(parts, links, i, ps);
    StayInGroup(schema, KidsOf(parts, links), i, Resting(ps, Sub(parts, links, i), []), Resting(ps, PutDown(sub', t', w), []));
    GroupExchanged(parts, links, i, ps, t, rest, t', w);
  }

  lemma LeaveAt(schema: Schema, dir: Direction, parts: seq<Shape>, links: seq<Kid>, links': seq<Kid>, i: nat, ps: seq<Shape>,
                q: nat, t: nat, m: Traffic, rest: seq<Wire>)
    requires |links| == SizeOf(parts) && i < |parts| && parts[i] == Group(ps) && t < SizeOf(ps) && Quiet(m)
    requires q == if dir == Rightward then i + 1 else i
    requires Offset(parts, i) + t < |links| && links' == PutUp(links, Offset(parts, i) + t, rest)
    requires var sub := Sub(parts, links, i);
      Leads(schema, Resting(ps, sub, []), Resting(ps, PutUp(sub, t, rest), []), [Give(dir, m)])
    ensures Leads(schema, Resting(parts, links, []), Resting(parts, links', [Entry(dir, |parts|, q, m)]), [])
  {
    GroupAt(parts, links, i, ps);
    GroupWithUp(parts, links, i, ps, t, rest);
    var sub := Sub(parts, links, i);
    LeaveGroup(schema, dir, KidsOf(parts, links), i, Resting(ps, sub, []), Resting(ps, PutUp(sub, t, rest), []), m);
  }

  lemma LeaveOutside(schema: Schema, dir: Direction, parts: seq<Shape>, links: seq<Kid>, links': seq<Kid>, i: nat, ps: seq<Shape>,
                     q: nat, t: nat, m: Traffic, rest: seq<Wire>)
    requires |links| == SizeOf(parts) && i < |parts| && parts[i] == Group(ps) && t < SizeOf(ps) && Quiet(m)
    requires q == if dir == Rightward then i + 1 else i
    requires Offset(parts, i) + t < |links| && links' == PutUp(links, Offset(parts, i) + t, rest)
    requires var sub := Sub(parts, links, i);
      Leads(schema, Resting(ps, sub, []), Resting(ps, PutUp(sub, t, rest), []), [Give(dir, m)])
    ensures Offset(parts, q) <= |links'|
    ensures Reaches(schema, dir, Resting(parts, links, []), parts, links', Offset(parts, q), m)
  {
    LeaveAt(schema, dir, parts, links, links', i, ps, q, t, m, rest);
    Pass(schema, dir, parts, links', q, m);
    ReachesOn(schema, dir, Resting(parts, links, []), Resting(parts, links', [Entry(dir, |parts|, q, m)]),
              parts, links', Offset(parts, q), m);
  }

  lemma LeaveOne(schema: Schema, dir: Direction, parts: seq<Shape>, links: seq<Kid>, i: nat, m: Traffic, rest: seq<Wire>)
    requires |links| == SizeOf(parts) && i < |parts| && parts[i] == One && Quiet(m)
    requires Offset(parts, i) < |links| && links[Offset(parts, i)].up == [ToLinkUp(Give(dir, m))] + rest
    ensures var t := Offset(parts, i);
      && (dir == Rightward ==> t + 1 <= |links|)
      && Reaches(schema, dir, Resting(parts, links, []), parts, PutUp(links, t, rest), if dir == Rightward then t + 1 else t, m)
  {
    var t, q := Offset(parts, i), if dir == Rightward then i + 1 else i;
    var links' := PutUp(links, t, rest);
    KidsAt(parts, links, i);
    KidWithUp(parts, links, i, 0, rest);
    PumpStep(schema, dir, KidsOf(parts, links), i, m, rest);
    Pass(schema, dir, parts, links', q, m);
    ReachesOn(schema, dir, Resting(parts, links, []), Resting(parts, links', [Entry(dir, |parts|, q, m)]), parts, links',
              Offset(parts, q), m);
  }

  lemma StayInGroup(schema: Schema, kids: seq<Kid>, i: nat, inner: Node, node: Node)
    requires i < |kids| && kids[i] == Kid(inner, [], []) && Leads(schema, inner, node, [])
    ensures Leads(schema, Nest(true, kids, []), Nest(true, kids[i := Kid(node, [], [])], []), [])
  {
    LeadsInside(schema, Nest(true, kids, []), i, node, []);
    assert [] + UpWires([]) == [];
  }

  lemma LeaveGroup(schema: Schema, dir: Direction, kids: seq<Kid>, i: nat, inner: Node, node: Node, m: Traffic)
    requires i < |kids| && Quiet(m) && kids[i] == Kid(inner, [], []) && Leads(schema, inner, node, [Give(dir, m)])
    ensures Leads(schema, Nest(true, kids, []),
                  Nest(true, kids[i := Kid(node, [], [])], [Entry(dir, |kids|, if dir == Rightward then i + 1 else i, m)]), [])
  {
    var kids' := kids[i := Kid(node, [], [])];
    LeadsInside(schema, Nest(true, kids, []), i, node, [Give(dir, m)]);
    assert [] + UpWires([Give(dir, m)]) == UpWires([Give(dir, m)]);
    OutOfGroup(schema, dir, kids', i, m);
    assert kids'[i := Kid(node, [], UpWires([Give(dir, m)]))] == kids[i := Kid(node, [], UpWires([Give(dir, m)]))];
    LeadsFurther(schema, Nest(true, kids, []), Nest(true, kids[i := Kid(node, [], UpWires([Give(dir, m)]))], []),
                 Nest(true, kids', [Entry(dir, |kids|, if dir == Rightward then i + 1 else i, m)]), []);
  }

  // ---- What proxies do -----------------------------------------------------------------------

  lemma {:induction false} LeavesOfShape(s: Shape, links: seq<Kid>)
    requires |links| == Size(s)
    ensures Leaves(KidOf(s, links).node) == LeavesOf(links)
    decreases s
  {
    match s
    case One =>
      assert links[1..] == [] && LeavesOf([]) == 0;
    case Group(parts) =>
      LeavesOfParts(parts, links, |parts|);
      assert KidsOf(parts, links)[..|parts|] == KidsOf(parts, links) && links[..|links|] == links;
  }

  lemma {:induction false} LeavesOfParts(parts: seq<Shape>, links: seq<Kid>, i: nat)
    requires |links| == SizeOf(parts) && i <= |parts|
    ensures Offset(parts, i) <= |links|
    ensures LeavesOf(KidsOf(parts, links)[..i]) == LeavesOf(links[..Offset(parts, i)])
    decreases parts, i
  {
    OffsetGrows(parts, i, |parts|);
    if i > 0 {
      var kids, o, o' := KidsOf(parts, links), Offset(parts, i - 1), Offset(parts, i);
      KidsAt(parts, links, i - 1);
      LeavesOfParts(parts, links, i - 1);
      LeavesOfShape(parts[i - 1], Sub(parts, links, i - 1));
      assert kids[..i] == kids[..i - 1] + [kids[i - 1]];
      LeavesAppend(kids[..i - 1], [kids[i - 1]]);
      assert [kids[i - 1]][1..] == [] && LeavesOf([kids[i - 1]]) == Leaves(kids[i - 1].node);
      assert links[..o'] == links[..o] + links[o..o'];
      LeavesAppend(links[..o], links[o..o']);
    }
  }

  /** Proxies only: each has as many leaves before it as components. */
  lemma {:induction false} LeavesOfLeaves(links: seq<Kid>)
    requires forall i :: 0 <= i < |links| ==> links[i].node == Leaf
    ensures LeavesOf(links) == |links|
  {
    if links != [] {
      LeavesOfLeaves(links[1..]);
    }
  }

  /** The same event at place `k`. */
  function At(e: Event, k: nat): Event {
    match e
    case Sent(_, dir, m) => Sent(k, dir, m)
    case Received(_, dir, m) => Received(k, dir, m)
  }

  /** Some single move of `n` leads to `n'` and shows `e`. */
  ghost predicate Does(schema: Schema, n: Node, n': Node, e: Event) {
    exists moves :: IsDeed(schema, moves, n, n', e)
  }

  ghost predicate IsDeed(schema: Schema, moves: seq<Move>, n: Node, n': Node, e: Event) {
    |moves| == 1 && forall i {:trigger Deed(schema, moves, i, n, n', e)} :: 0 <= i < |moves| ==> Deed(schema, moves, i, n, n', e)
  }

  predicate Deed(schema: Schema, moves: seq<Move>, i: nat, n: Node, n': Node, e: Event)
    requires i < |moves|
  {
    !moves[i].Take? && Apply(schema, n, moves[i]) == Some(Outcome(n', Some(e), None))
  }

  lemma DoesBy(schema: Schema, n: Node, mv: Move, n': Node, e: Event)
    requires !mv.Take? && Apply(schema, n, mv) == Some(Outcome(n', Some(e), None))
    ensures Does(schema, n, n', e)
  {
    assert Deed(schema, [mv], 0, n, n', e);
    assert IsDeed(schema, [mv], n, n', e);
  }

  lemma DoneBy(schema: Schema, n: Node, n': Node, e: Event) returns (mv: Move)
    requires Does(schema, n, n', e)
    ensures !mv.Take? && Apply(schema, n, mv) == Some(Outcome(n', Some(e), None))
  {
    var moves :| IsDeed(schema, moves, n, n', e);
    assert Deed(schema, moves, 0, n, n', e);
    mv := moves[0];
  }

  /** What a proxy does to its link: it puts a message on it or takes the oldest off. */
  predicate LinkDoes(link: Kid, link': Kid, e: Event) {
    && link.node == link'.node == Leaf
    && match e
       case Sent(_, dir, m) => link'.down == link.down && link'.up == link.up + [ToLinkUp(Give(dir, m))]
       case Received(_, dir, m) =>
         link.down != [] && link'.down == link.down[1..] && link'.up == link.up && OffLinkDown(link.down[0]) == Give(dir, m)
  }

  /** What a component does, of itself or with its link. */
  ghost predicate KidDoes(schema: Schema, kid: Kid, kid': Kid, e: Event) {
    || LinkDoes(kid, kid', At(e, 0))
    || (Does(schema, kid.node, kid'.node, e) && kid'.down == kid.down && kid'.up == kid.up)
  }

  lemma LeafDoes(schema: Schema, kids: seq<Kid>, i: nat, link': Kid, e: Event, k: nat)
    requires i < |kids| && LinkDoes(kids[i], link', e) && LeavesOf(kids[..i]) == k
    ensures Does(schema, Nest(true, kids, []), Nest(true, kids[i := link'], []), At(e, k))
  {
    var n, n' := Nest(true, kids, []), Nest(true, kids[i := link'], []);
    var mv := if e.Sent? then Inside(i, LeafSends(e.dir, e.m)) else Feed(i);
    if e.Sent? {
      assert Apply(schema, Leaf, LeafSends(e.dir, e.m)) == Some(Outcome(Leaf, Some(Sent(0, e.dir, e.m)), Some(Give(e.dir, e.m))));
    }
    DoesBy(schema, n, mv, n', At(e, k));
  }

  lemma InsideDoes(schema: Schema, kids: seq<Kid>, i: nat, node: Node, e: Event, t: nat, k: nat)
    requires i < |kids| && Does(schema, kids[i].node, node, At(e, t)) && LeavesOf(kids[..i]) == k
    ensures Does(schema, Nest(true, kids, []), Nest(true, kids[i := kids[i].(node := node)], []), At(e, k + t))
  {
    var mv := DoneBy(schema, kids[i].node, node, At(e, t));
    InsideMove(schema, kids, i, mv, node, At(e, t));
    assert ShiftEvent(Some(At(e, t)), k) == Some(At(e, k + t));
    DoesBy(schema, Nest(true, kids, []), Inside(i, mv), Nest(true, kids[i := kids[i].(node := node)], []), At(e, k + t));
  }

  lemma InsideMove(schema: Schema, kids: seq<Kid>, i: nat, mv: Move, node: Node, e: Event)
    requires i < |kids| && !mv.Take? && Apply(schema, kids[i].node, mv) == Some(Outcome(node, Some(e), None))
    ensures Apply(schema, Nest(true, kids, []), Inside(i, mv))
         == Some(Outcome(Nest(true, kids[i := kids[i].(node := node)], []), ShiftEvent(Some(e), LeavesOf(kids[..i])), None))
  {
  }

  lemma OneKidDoes(schema: Schema, kids: seq<Kid>, i: nat, kid': Kid, e: Event, k: nat)
    requires i < |kids| && KidDoes(schema, kids[i], kid', e) && LeavesOf(kids[..i]) == k
    requires kids[i].node.Leaf? ==> e.at == 0
    ensures Does(schema, Nest(true, kids, []), Nest(true, kids[i := kid'], []), At(e, k + e.at))
  {
    if LinkDoes(kids[i], kid', At(e, 0)) {
      LeafDoes(schema, kids, i, kid', At(e, 0), k);
    } else {
      assert kid' == kids[i].(node := kid'.node) && At(e, e.at) == e;
      InsideDoes(schema, kids, i, kid'.node, e, e.at, k);
    }
  }

  /** Wherever component `t` is, what it does is a move of the conductor. */
  lemma {:induction false} ComponentDoes(schema: Schema, parts: seq<Shape>, links: seq<Kid>, t: nat, link': Kid, e: Event)
    requires |links| == SizeOf(parts) && t < |links| && KidDoes(schema, links[t], link', e)
    requires links[t].node.Leaf? ==> e.at == 0
    ensures Does(schema, Resting(parts, links, []), Resting(parts, links[t := link'], []), At(e, LeavesOf(links[..t]) + e.at))
    decreases parts
  {
    var i := WhichPart(parts, |parts|, t);
    SubAt(parts, links, i, t - Offset(parts, i));
    match parts[i]
    case One => OneDoes(schema, parts, links, i, t, link', links[t := link'], e);
    case Group(ps) =>
      var sub, local := Sub(parts, links, i), t - Offset(parts, i);
      ComponentDoes(schema, ps, sub, local, link', e);
      GroupDoes(schema, parts, links, i, ps, t, local, link', links[t := link'], sub[local := link'], LeavesOf(sub[..local]), e);
  }

  /** Wherever proxy `t` is, what it does is a move of the conductor. */
  lemma ProxyDoes(schema: Schema, parts: seq<Shape>, links: seq<Kid>, t: nat, link': Kid, e: Event)
    requires |links| == SizeOf(parts) && t < |links| && LinkDoes(links[t], link', e)
    ensures Does(schema, Resting(parts, links, []), Resting(parts, links[t := link'], []), At(e, LeavesOf(links[..t])))
  {
    ComponentDoes(schema, parts, links, t, link', At(e, 0));
  }

  lemma SubAt(parts: seq<Shape>, links: seq<Kid>, i: nat, t: nat)
    requires |links| == SizeOf(parts) && i < |parts| && t < Size(parts[i])
    ensures Offset(parts, i) + t < |links| && Sub(parts, links, i)[t] == links[Offset(parts, i) + t]
  {
    OffsetGrows(parts, i + 1, |parts|);
  }

  lemma OneDoes(schema: Schema, parts: seq<Shape>, links: seq<Kid>, i: nat, t: nat, link': Kid, links': seq<Kid>, e: Event)
    requires |links| == SizeOf(parts) && i < |parts| && parts[i] == One && t == Offset(parts, i) < |links|
    requires KidDoes(schema, links[t], link', e) && links' == links[t := link'] && (links[t].node.Leaf? ==> e.at == 0)
    ensures Does(schema, Resting(parts, links, []), Resting(parts, links', []), At(e, LeavesOf(links[..t]) + e.at))
  {
    KidsAt(parts, links, i);
    SubAt(parts, links, i, 0);
    KidsChanged(parts, links, i, 0, link');
    LeavesOfParts(parts, links, i);
    OneKidDoes(schema, KidsOf(parts, links), i, link', e, LeavesOf(links[..t]));
  }

  lemma GroupDoes(schema: Schema, parts: seq<Shape>, links: seq<Kid>, i: nat, ps: seq<Shape>, at: nat, t: nat, link': Kid,
                  links': seq<Kid>, sub': seq<Kid>, before: nat, e: Event)
    requires |links| == SizeOf(parts) && i < |parts| && parts[i] == Group(ps) && t < SizeOf(ps)
    requires at == Offset(parts, i) + t < |links| && links' == links[at := link'] && sub' == Sub(parts, links, i)[t := link']
    requires before == LeavesOf(Sub(parts, links, i)[..t])
    requires Does(schema, Resting(ps, Sub(parts, links, i), []), Resting(ps, sub', []), At(e, before + e.at))
    ensures Does(schema, Resting(parts, links, []), Resting(parts, links', []), At(e, LeavesOf(links[..at]) + e.at))
  {
    GroupAt(parts, links, i, ps);
    KidsChanged(parts, links, i, t, link');
    LeavesOfParts(parts, links, i);
    LeavesUpTo(parts, links, i, at, t);
    var kids, node := KidsOf(parts, links), Resting(ps, sub', []);
    assert KidsOf(parts, links') == kids[i := kids[i].(node := node)];
    InsideDoes(schema, kids, i, node, e, before + e.at, LeavesOf(links[..Offset(parts, i)]));
  }

  lemma LeavesUpTo(parts: seq<Shape>, links: seq<Kid>, i: nat, at: nat, t: nat)
    requires |links| == SizeOf(parts) && i < |parts| && t < Size(parts[i]) && at == Offset(parts, i) + t <= |links|
    ensures LeavesOf(links[..at]) == LeavesOf(links[..Offset(parts, i)]) + LeavesOf(Sub(parts, links, i)[..t])
  {
    OffsetGrows(parts, i + 1, |parts|);
    assert links[..at] == links[..Offset(parts, i)] + Sub(parts, links, i)[..t];
    LeavesAppend(links[..Offset(parts, i)], Sub(parts, links, i)[..t]);
  }

  /** What component `t` does by itself without showing anything. */
  lemma {:induction false} ComponentLeads(schema: Schema, parts: seq<Shape>, links: seq<Kid>, t: nat, node': Node)
    requires |links| == SizeOf(parts) && t < |links| && Leads(schema, links[t].node, node', [])
    ensures Leads(schema, Resting(parts, links, []), Resting(parts, links[t := links[t].(node := node')], []), [])
    decreases parts
  {
    var i := WhichPart(parts, |parts|, t);
    var local, link' := t - Offset(parts, i), links[t].(node := node');
    SubAt(parts, links, i, local);
    KidsChanged(parts, links, i, local, link');
    match parts[i]
    case One =>
      KidsAt(parts, links, i);
      KidLeads(schema, KidsOf(parts, links), i, node');
    case Group(ps) =>
      var sub := Sub(parts, links, i);
      ComponentLeads(schema, ps, sub, local, node');
      GroupAt(parts, links, i, ps);
      KidLeads(schema, KidsOf(parts, links), i, Resting(ps, sub[local := link'], []));
  }

  lemma KidLeads(schema: Schema, kids: seq<Kid>, i: nat, node': Node)
    requires i < |kids| && Leads(schema, kids[i].node, node', [])
    ensures Leads(schema, Nest(true, kids, []), Nest(true, kids[i := kids[i].(node := node')], []), [])
  {
    LeadsInside(schema, Nest(true, kids, []), i, node', []);
    assert kids[i].up + UpWires([]) == kids[i].up;
  }
}
