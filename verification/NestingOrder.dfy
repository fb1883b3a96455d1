// Nesting that changes what proxies can show: five events that no row of places shows, and the groups of proxies
// that show them.

module NestingOrder {
  import opened Outcomes
  import opened Messages
  import opened Routing
  import opened ProxyTree
  import opened ProxyTreeMoves
  import opened Chain
  import opened ChainRuns
  import opened ChainSafety
  import opened Flattening
  import opened Rows
  import opened RowChains
  import opened FlatteningRuns
  import opened Groupings

  const M1: Traffic := Msg(false, Untyped("one", JNull))
  const M2: Traffic := Msg(false, Untyped("two", JNull))
  const M3: Traffic := Msg(false, Untyped("three", JNull))

  // ---- Five events ---------------------------------------------------------------------------

  /** Place `p` has a neighbour on the one side and two on the other. */
  predicate Roomy(places: nat, p: nat, dir: Direction) {
    HasNext(places, p, Opposite(dir)) && HasNext(places, p, dir) && HasNext(places, Next(p, dir), dir)
  }

  /** Place `p` sends one message ahead, in direction `dir`, then one back; the neighbour behind has that; the
      second place ahead sends one back; the first place ahead has that before the one that `p` sent it. */
  function Five(p: nat, dir: Direction): seq<Event> {
    var opp, q := Opposite(dir), Next(p, dir);
    [Sent(p, dir, M1), Sent(p, opp, M2), Received(Next(p, opp), opp, M2), Sent(Next(q, dir), opp, M3), Received(q, opp, M3)]
  }

  /** The row with this and nothing else: sent by `p` and by the second place ahead, come for the first ahead and
      for the one behind. */
  function With<T>(places: nat, p: nat, dir: Direction, sent: seq<T>, sent': seq<T>, ahead: seq<T>, behind: seq<T>): (r: Row<T>)
    ensures Fits(places, r)
  {
    var q, x := Next(p, dir), Next(p, Opposite(dir));
    Row(seq(places, i => if i == q then ahead else if i == x then behind else []),
        seq(places, i => if i == p then sent else if i == Next(q, dir) then sent' else []))
  }

  /** The row after the first `k` events, however far it has got with what was sent. */
  predicate Phase(places: nat, p: nat, dir: Direction, k: nat, r: Row<Direction>) {
    var opp := Opposite(dir);
    match k
    case 0 => r == With(places, p, dir, [], [], [], [])
    case 1 => r == With(places, p, dir, [dir], [], [], []) || r == With(places, p, dir, [], [], [dir], [])
    case 2 =>
      || r == With(places, p, dir, [dir, opp], [], [], []) || r == With(places, p, dir, [opp], [], [dir], [])
      || r == With(places, p, dir, [], [], [dir], [opp])
    case 3 => r == With(places, p, dir, [], [], [dir], [])
    case 4 => r == With(places, p, dir, [], [opp], [dir], []) || r == With(places, p, dir, [], [], [dir, opp], [])
    case _ => false
  }

  lemma PassesOn<T>(places: nat, p: nat, dir: Direction, d: Direction, x: T, rest: seq<T>, sent': seq<T>, ahead: seq<T>, behind: seq<T>)
    requires Roomy(places, p, dir)
    ensures Passed(With(places, p, dir, [x] + rest, sent', ahead, behind), p, d)
         == if d == dir then With(places, p, dir, rest, sent', ahead + [x], behind)
            else With(places, p, dir, rest, sent', ahead, behind + [x])
  {
    assert ([x] + rest)[1..] == rest;
    SameRow(Passed(With(places, p, dir, [x] + rest, sent', ahead, behind), p, d),
            if d == dir then With(places, p, dir, rest, sent', ahead + [x], behind)
            else With(places, p, dir, rest, sent', ahead, behind + [x]));
  }

  lemma PassesBack<T>(places: nat, p: nat, dir: Direction, sent: seq<T>, x: T, ahead: seq<T>, behind: seq<T>)
    requires Roomy(places, p, dir)
    ensures Passed(With(places, p, dir, sent, [x], ahead, behind), Next(Next(p, dir), dir), Opposite(dir))
         == With(places, p, dir, sent, [], ahead + [x], behind)
  {
    SameRow(Passed(With(places, p, dir, sent, [x], ahead, behind), Next(Next(p, dir), dir), Opposite(dir)),
            With(places, p, dir, sent, [], ahead + [x], behind));
  }

  lemma MovesWithin(places: nat, p: nat, dir: Direction, k: nat, r: Row<Direction>, at: nat)
    requires Roomy(places, p, dir) && Phase(places, p, dir, k, r) && DoTags(r, Moves(at)).Some?
    ensures Phase(places, p, dir, k, DoTags(r, Moves(at)).value)
  {
    var opp, q := Opposite(dir), Next(p, dir);
    assert at == p || at == Next(q, dir);
    assert [dir] + [opp] == [dir, opp] && [] + [dir] == [dir] && [] + [opp] == [opp] && [dir] + [] == [dir] && [opp] + [] == [opp];
    if k == 4 {
      PassesBack(places, p, dir, [], opp, [dir], []);
    } else if k == 1 {
      PassesOn(places, p, dir, dir, dir, [], [], [], []);
    } else {
      PassesOn(places, p, dir, dir, dir, [opp], [], [], []);
      PassesOn(places, p, dir, opp, opp, [], [], [dir], []);
    }
  }

  lemma SentOn<T>(places: nat, p: nat, dir: Direction, x: T, sent: seq<T>, ahead: seq<T>)
    requires Roomy(places, p, dir)
    ensures var r := With(places, p, dir, sent, [], ahead, []);
      && r.(up := PutIn(r.up, p, x)) == With(places, p, dir, sent + [x], [], ahead, [])
      && (sent == [] ==> r.(up := PutIn(r.up, Next(Next(p, dir), dir), x)) == With(places, p, dir, [], [x], ahead, []))
  {
    var r := With(places, p, dir, sent, [], ahead, []);
    SameRow(r.(up := PutIn(r.up, p, x)), With(places, p, dir, sent + [x], [], ahead, []));
    if sent == [] {
      assert [] + [x] == [x];
      SameRow(r.(up := PutIn(r.up, Next(Next(p, dir), dir), x)), With(places, p, dir, [], [x], ahead, []));
    }
  }

  lemma HappensNext(places: nat, p: nat, dir: Direction, k: nat, r: Row<Direction>)
    requires Roomy(places, p, dir) && Phase(places, p, dir, k, r) && k < 5
    requires DoTags(r, Happens(Five(p, dir)[k])).Some?
    ensures Phase(places, p, dir, k + 1, DoTags(r, Happens(Five(p, dir)[k])).value)
  {
    var opp, q := Opposite(dir), Next(p, dir);
    assert [dir] + [opp] == [dir, opp] && [] + [dir] == [dir] && [] + [opp] == [opp];
    if k < 2 {
      SentOn(places, p, dir, if k == 0 then dir else opp, r.up[p], r.down[q]);
    } else if k == 2 {
      assert [opp][1..] == [];
      SameRow(DoTags(r, Happens(Five(p, dir)[k])).value, With(places, p, dir, [], [], [dir], []));
    } else if k == 3 {
      SentOn(places, p, dir, opp, [], [dir]);
    }
  }

  lemma PrefixGrows<T>(xs: seq<T>, k: nat, init: seq<T>, last: T)
    requires k <= |xs| && xs[..k] == init + [last]
    ensures k > 0 && init == xs[..k - 1] && last == xs[k - 1]
  {
    assert |xs[..k]| == |init| + 1;
    assert xs[..k][..k - 1] == init && xs[..k][k - 1] == last;
  }

  lemma {:induction false} InPhase(places: nat, p: nat, dir: Direction, k: nat, ops: seq<Op>)
    requires Roomy(places, p, dir) && k <= 5 && EventsOf(ops) == Five(p, dir)[..k]
    requires DoAllTags(Still(places), ops).Some?
    ensures Phase(places, p, dir, k, DoAllTags(Still(places), ops).value)
  {
    if ops == [] {
      assert Still<Direction>(places).up == With(places, p, dir, [], [], [], []).up;
      assert Still<Direction>(places).down == With(places, p, dir, [], [], [], []).down;
    } else {
      var init, op := ops[..|ops| - 1], ops[|ops| - 1];
      EventsBefore(ops);
      match op
      case Happens(e) =>
        PrefixGrows(Five(p, dir), k, EventsOf(init), e);
        InPhase(places, p, dir, k - 1, init);
        HappensNext(places, p, dir, k - 1, DoAllTags(Still(places), init).value);
      case Moves(at) =>
        InPhase(places, p, dir, k, init);
        MovesWithin(places, p, dir, k, DoAllTags(Still(places), init).value, at);
    }
  }

  /** No row of places shows the five events, in this order and no others. */
  lemma RowNeverDoes(places: nat, p: nat, dir: Direction)
    requires Roomy(places, p, dir)
    ensures !RowShows(places, Five(p, dir))
  {
    if RowShows(places, Five(p, dir)) {
      var ops :| EventsOf(ops) == Five(p, dir) && DoAll(Still(places), ops).Some?;
      StillTags(places);
      TagsDoAll(Still(places), ops);
      assert Five(p, dir)[..5] == Five(p, dir);
      InPhase(places, p, dir, 5, ops);
      assert false;
    }
  }

  lemma FiveOrdinary(schema: Schema, p: nat, dir: Direction)
    ensures AllOrdinary(schema, Five(p, dir))
  {
    forall e | e in Five(p, dir) ensures Ordinary(schema, e.m) {
      assert e.m == M1 || e.m == M2 || e.m == M3;
    }
  }

  /** So no run of one conductor does. */
  lemma FlatNeverDoes(schema: Schema, n: nat, p: nat, dir: Direction)
    requires Roomy(n + 2, p, dir)
    ensures !CanShow(schema, FlatChain(n), Five(p, dir))
  {
    FiveOrdinary(schema, p, dir);
    OneConductorIsARow(schema, n, Five(p, dir));
    RowNeverDoes(n + 2, p, dir);
  }

  // ---- A group in the way --------------------------------------------------------------------

  /** One operation of a chain in which some group is looked at as one component. */
  lemma SlotOp(schema: Schema, parts: seq<Shape>, nodes: seq<Node>, r: Row<Calm>, op: Op, r': Row<Calm>)
    requires |nodes| == SizeOf(parts) && Fits(|nodes| + 2, r) && EndsRight(r) && OrdinaryUps(schema, r)
    requires Do(r, op) == Some(r')
    requires op.Happens? ==> Ordinary(schema, op.e.m) && (0 < op.e.at <= |nodes| ==> nodes[op.e.at - 1] == Leaf)
    ensures Fits(|nodes| + 2, r') && EndsRight(r') && OrdinaryUps(schema, r')
    ensures op.Happens? ==> op.e.at < |nodes| + 2
    ensures Shows(schema, RowWorld(parts, nodes, r), ShownAs(nodes, op), RowWorld(parts, nodes, r'))
  {
    assert op.Moves? ==> r.up[op.at][0] in r.up[op.at];
    OpShown(schema, parts, nodes, r, op);
    StaysOrdinary(schema, r, op);
    KeepsEnds(r, op);
  }

  /** What place `p` has sent ahead waits on the link to the next component. */
  function Parked(places: nat, p: nat, dir: Direction): Row<Calm> {
    With<Calm>(places, p, dir, [], [], [Give(dir, M1)], [])
  }

  predicate LeafAt(nodes: seq<Node>, at: nat) {
    0 < at <= |nodes| ==> nodes[at - 1] == Leaf
  }

  lemma StillEnds(schema: Schema, places: nat)
    requires places >= 2
    ensures EndsRight(Still<Calm>(places)) && OrdinaryUps(schema, Still<Calm>(places))
  {
  }

  lemma TwoSends(schema: Schema, parts: seq<Shape>, nodes: seq<Node>, p: nat, dir: Direction)
    requires |nodes| == SizeOf(parts) && Roomy(|nodes| + 2, p, dir) && LeafAt(nodes, p)
    ensures var places, opp, at := |nodes| + 2, Opposite(dir), WorldPlace(nodes, p);
      var r := With<Calm>(places, p, dir, [Give(dir, M1), Give(opp, M2)], [], [], []);
      && EndsRight(r) && OrdinaryUps(schema, r)
      && Shows(schema, RowWorld(parts, nodes, Still(places)), [Sent(at, dir, M1), Sent(at, opp, M2)], RowWorld(parts, nodes, r))
  {
    var places, opp := |nodes| + 2, Opposite(dir);
    var a: Calm, b: Calm := Give(dir, M1), Give(opp, M2);
    var r0, r1, r2 := Still<Calm>(places), With<Calm>(places, p, dir, [a], [], [], []), With<Calm>(places, p, dir, [a, b], [], [], []);
    BothSent(places, p, dir, a, b);
    StillEnds(schema, places);
    SlotOp(schema, parts, nodes, r0, Happens(Sent(p, dir, M1)), r1);
    SlotOp(schema, parts, nodes, r1, Happens(Sent(p, opp, M2)), r2);
    var at := WorldPlace(nodes, p);
    Then(schema, RowWorld(parts, nodes, r0), [Sent(at, dir, M1)], RowWorld(parts, nodes, r1), [Sent(at, opp, M2)],
         RowWorld(parts, nodes, r2));
    assert [Sent(at, dir, M1)] + [Sent(at, opp, M2)] == [Sent(at, dir, M1), Sent(at, opp, M2)];
  }

  lemma BothSent(places: nat, p: nat, dir: Direction, a: Calm, b: Calm)
    requires Roomy(places, p, dir) && a.dir == dir && b.dir == Opposite(dir)
    ensures var r0, r1, r2 := Still<Calm>(places), With<Calm>(places, p, dir, [a], [], [], []), With<Calm>(places, p, dir, [a, b], [], [], []);
      Do(r0, Happens(Sent(p, a.dir, a.m))) == Some(r1) && Do(r1, Happens(Sent(p, b.dir, b.m))) == Some(r2)
  {
    SameRow(Still<Calm>(places), With<Calm>(places, p, dir, [], [], [], []));
    SentOn(places, p, dir, a, [], []);
    SentOn(places, p, dir, b, [a], []);
    assert [] + [a] == [a] && [a] + [b] == [a, b];
  }

  lemma TwoMoves(schema: Schema, parts: seq<Shape>, nodes: seq<Node>, p: nat, dir: Direction)
    requires |nodes| == SizeOf(parts) && Roomy(|nodes| + 2, p, dir)
    requires var r := With<Calm>(|nodes| + 2, p, dir, [Give(dir, M1), Give(Opposite(dir), M2)], [], [], []);
      EndsRight(r) && OrdinaryUps(schema, r)
    ensures var places, opp := |nodes| + 2, Opposite(dir);
      var r, r' := With<Calm>(places, p, dir, [Give(dir, M1), Give(opp, M2)], [], [], []),
        With<Calm>(places, p, dir, [], [], [Give(dir, M1)], [Give(opp, M2)]);
      && EndsRight(r') && OrdinaryUps(schema, r')
      && Shows(schema, RowWorld(parts, nodes, r), [], RowWorld(parts, nodes, r'))
  {
    var places, opp := |nodes| + 2, Opposite(dir);
    var a: Calm, b: Calm := Give(dir, M1), Give(opp, M2);
    var r2, r3, r4 := With<Calm>(places, p, dir, [a, b], [], [], []), With<Calm>(places, p, dir, [b], [], [a], []),
      With<Calm>(places, p, dir, [], [], [a], [b]);
    assert [a] + [b] == [a, b] && [b] + [] == [b] && [] + [a] == [a] && [] + [b] == [b];
    PassesOn(places, p, dir, dir, a, [b], [], [], []);
    PassesOn(places, p, dir, opp, b, [], [], [a], []);
    assert r2.up[p] == [a, b] && r3.up[p] == [b];
    SlotOp(schema, parts, nodes, r2, Moves(p), r3);
    SlotOp(schema, parts, nodes, r3, Moves(p), r4);
    ThenSilently(schema, RowWorld(parts, nodes, r2), RowWorld(parts, nodes, r3), RowWorld(parts, nodes, r4));
  }

  lemma BackTaken(schema: Schema, parts: seq<Shape>, nodes: seq<Node>, p: nat, dir: Direction)
    requires |nodes| == SizeOf(parts) && Roomy(|nodes| + 2, p, dir) && LeafAt(nodes, Next(p, Opposite(dir)))
    requires var r := With<Calm>(|nodes| + 2, p, dir, [], [], [Give(dir, M1)], [Give(Opposite(dir), M2)]);
      EndsRight(r) && OrdinaryUps(schema, r)
    ensures var places, opp := |nodes| + 2, Opposite(dir);
      var r, x := With<Calm>(places, p, dir, [], [], [Give(dir, M1)], [Give(opp, M2)]), WorldPlace(nodes, Next(p, opp));
      && EndsRight(Parked(places, p, dir)) && OrdinaryUps(schema, Parked(places, p, dir))
      && Shows(schema, RowWorld(parts, nodes, r), [Received(x, opp, M2)], RowWorld(parts, nodes, Parked(places, p, dir)))
  {
    var places, opp := |nodes| + 2, Opposite(dir);
    var a: Calm, b: Calm := Give(dir, M1), Give(opp, M2);
    var r, e, r' := With<Calm>(places, p, dir, [], [], [a], [b]), Received(Next(p, opp), opp, M2), Parked(places, p, dir);
    assert r.down[Next(p, opp)] == [b] && [b][1..] == [];
    SameRow(Do(r, Happens(e)).value, r');
    SlotOp(schema, parts, nodes, r, Happens(e), r');
  }

  lemma Thrice(schema: Schema, w0: World, a: seq<Event>, w1: World, b: seq<Event>, w2: World, c: seq<Event>, w3: World)
    requires Shows(schema, w0, a, w1) && Shows(schema, w1, b, w2) && Shows(schema, w2, c, w3)
    ensures Shows(schema, w0, a + b + c, w3)
  {
    Then(schema, w0, a, w1, b, w2);
    Then(schema, w0, a + b, w2, c, w3);
  }

  /** The first three events, after which the first message still waits where it came to. */
  lemma FirstThree(schema: Schema, parts: seq<Shape>, nodes: seq<Node>, p: nat, dir: Direction)
    requires |nodes| == SizeOf(parts) && Roomy(|nodes| + 2, p, dir) && LeafAt(nodes, p) && LeafAt(nodes, Next(p, Opposite(dir)))
    ensures var places, opp := |nodes| + 2, Opposite(dir);
      var at, x := WorldPlace(nodes, p), WorldPlace(nodes, Next(p, opp));
      && EndsRight(Parked(places, p, dir)) && OrdinaryUps(schema, Parked(places, p, dir))
      && Shows(schema, RowWorld(parts, nodes, Still(places)), [Sent(at, dir, M1), Sent(at, opp, M2), Received(x, opp, M2)],
               RowWorld(parts, nodes, Parked(places, p, dir)))
  {
    var places, opp := |nodes| + 2, Opposite(dir);
    var r2, r4 := With<Calm>(places, p, dir, [Give(dir, M1), Give(opp, M2)], [], [], []),
      With<Calm>(places, p, dir, [], [], [Give(dir, M1)], [Give(opp, M2)]);
    TwoSends(schema, parts, nodes, p, dir);
    TwoMoves(schema, parts, nodes, p, dir);
    BackTaken(schema, parts, nodes, p, dir);
    var at, x := WorldPlace(nodes, p), WorldPlace(nodes, Next(p, opp));
    Thrice(schema, RowWorld(parts, nodes, Still(places)), [Sent(at, dir, M1), Sent(at, opp, M2)], RowWorld(parts, nodes, r2), [],
           RowWorld(parts, nodes, r4), [Received(x, opp, M2)], RowWorld(parts, nodes, Parked(places, p, dir)));
    assert [Sent(at, dir, M1), Sent(at, opp, M2)] + [] + [Received(x, opp, M2)]
        == [Sent(at, dir, M1), Sent(at, opp, M2), Received(x, opp, M2)];
  }

  lemma There(r: Row<Calm>, at: nat, d: Direction, g: Calm) returns (r1: Row<Calm>, r2: Row<Calm>)
    requires |r.up| == |r.down| && HasNext(|r.up|, at, d) && r.up[at] == [] && r.down[Next(at, d)] == [] && g.dir == d
    ensures Do(r, Happens(Sent(at, d, g.m))) == Some(r1) && Do(r1, Moves(at)) == Some(r2)
    ensures Do(r2, Happens(Received(Next(at, d), d, g.m))) == Some(r)
  {
    var q := Next(at, d);
    r1 := r.(up := PutIn(r.up, at, g));
    r2 := r.(down := PutIn(r.down, q, g));
    assert [] + [g] == [g] && [g][1..] == [];
    assert r1.up[at] == [g] && r2.down[q] == [g];
    SameRow(Passed(r1, at, d), r2);
    SameRow(Do(r2, Happens(Received(q, d, g.m))).value, r);
  }

  /** A place sends a message to its idle neighbour, which takes it. */
  lemma ThereAndTaken(schema: Schema, parts: seq<Shape>, nodes: seq<Node>, r: Row<Calm>, at: nat, d: Direction)
    requires |nodes| == SizeOf(parts) && Fits(|nodes| + 2, r) && EndsRight(r) && OrdinaryUps(schema, r)
    requires HasNext(|nodes| + 2, at, d) && r.up[at] == [] && r.down[Next(at, d)] == []
    requires LeafAt(nodes, at) && LeafAt(nodes, Next(at, d))
    ensures var from, to := WorldPlace(nodes, at), WorldPlace(nodes, Next(at, d));
      Shows(schema, RowWorld(parts, nodes, r), [Sent(from, d, M3), Received(to, d, M3)], RowWorld(parts, nodes, r))
  {
    var q := Next(at, d);
    var r1, r2 := There(r, at, d, Give(d, M3));
    SlotOp(schema, parts, nodes, r, Happens(Sent(at, d, M3)), r1);
    SlotOp(schema, parts, nodes, r1, Moves(at), r2);
    SlotOp(schema, parts, nodes, r2, Happens(Received(q, d, M3)), r);
    var from, to := WorldPlace(nodes, at), WorldPlace(nodes, q);
    Thrice(schema, RowWorld(parts, nodes, r), [Sent(from, d, M3)], RowWorld(parts, nodes, r1), [], RowWorld(parts, nodes, r2),
           [Received(to, d, M3)], RowWorld(parts, nodes, r));
    assert [Sent(from, d, M3)] + [] + [Received(to, d, M3)] == [Sent(from, d, M3), Received(to, d, M3)];
  }

  // ---- Inside the group ----------------------------------------------------------------------

  function Idles(n: nat): (r: seq<Kid>)
    ensures |r| == n
  {
    seq(n, _ => IDLE)
  }

  lemma IdleLeaves(n: nat, i: nat)
    requires i <= n
    ensures LeavesOf(Idles(n)[..i]) == i
  {
    LeavesOfLeaves(Idles(n)[..i]);
  }

  /** A conductor without messages but for one on a link of its proxy `i`. */
  ghost function WithUp(ps: seq<Shape>, i: nat, w: Wire): Node
    requires i < SizeOf(ps)
  {
    Resting(ps, PutUp(Idles(SizeOf(ps)), i, [w]), [])
  }

  ghost function WithDown(ps: seq<Shape>, i: nat, w: DownWire): Node
    requires i < SizeOf(ps)
  {
    Resting(ps, PutDown(Idles(SizeOf(ps)), i, w), [])
  }

  /** Of two neighbours in a conductor the one sends to the other. */
  lemma InsideSends(schema: Schema, ps: seq<Shape>, i: nat, d: Direction, m: Traffic)
    requires i < SizeOf(ps)
    ensures Does(schema, Resting(ps, Idles(SizeOf(ps)), []), WithUp(ps, i, ToLinkUp(Give(d, m))), Sent(i, d, m))
  {
    var idle := Idles(SizeOf(ps));
    var link := IDLE.(up := [ToLinkUp(Give(d, m))]);
    assert [] + [ToLinkUp(Give(d, m))] == [ToLinkUp(Give(d, m))];
    ProxyDoes(schema, ps, idle, i, link, Sent(0, d, m));
    IdleLeaves(SizeOf(ps), i);
  }

  lemma InsideMoves(schema: Schema, ps: seq<Shape>, i: nat, d: Direction, j: nat, m: Traffic)
    requires i < SizeOf(ps) && j < SizeOf(ps) && Quiet(m) && if d == Rightward then j == i + 1 else i == j + 1
    ensures Leads(schema, WithUp(ps, i, ToLinkUp(Give(d, m))), WithDown(ps, j, DownForm(d, m)), [])
  {
    var idle, b := Idles(SizeOf(ps)), if d == Rightward then i + 1 else i;
    var links := PutUp(idle, i, [ToLinkUp(Give(d, m))]);
    assert [ToLinkUp(Give(d, m))] + [] == [ToLinkUp(Give(d, m))];
    Leave(schema, d, ps, links, i, m, []);
    assert PutUp(links, i, []) == idle;
    ReachedInside(schema, d, ps, Resting(ps, links, []), idle, b, m, j);
  }

  lemma InsideTakes(schema: Schema, ps: seq<Shape>, j: nat, d: Direction, m: Traffic)
    requires j < SizeOf(ps) && Quiet(m)
    ensures Does(schema, WithDown(ps, j, DownForm(d, m)), Resting(ps, Idles(SizeOf(ps)), []), Received(j, d, m))
  {
    UnwrapWrap(m);
    var idle := Idles(SizeOf(ps));
    var links := PutDown(idle, j, DownForm(d, m));
    assert [] + [DownForm(d, m)] == [DownForm(d, m)] && [DownForm(d, m)][1..] == [];
    ProxyDoes(schema, ps, links, j, IDLE, Received(0, d, m));
    assert links[j := IDLE] == idle;
    assert links[..j] == idle[..j];
    IdleLeaves(SizeOf(ps), j);
  }

  /** A chain, given as a row, while its component `t` is `node`. */
  ghost function While(parts: seq<Shape>, nodes: seq<Node>, r: Row<Calm>, t: nat, node: Node): World
    requires |nodes| == SizeOf(parts) && Fits(|nodes| + 2, r) && t < |nodes|
  {
    var links := RowLinks(nodes, r);
    RowWorld(parts, nodes, r).(root := Resting(parts, links[t := links[t].(node := node)], []))
  }

  lemma SlotDoes(schema: Schema, parts: seq<Shape>, nodes: seq<Node>, r: Row<Calm>, t: nat, node: Node, node': Node, e: Event)
    requires |nodes| == SizeOf(parts) && Fits(|nodes| + 2, r) && t < |nodes|
    requires node.Nest? && Does(schema, node, node', e)
    ensures Shows(schema, While(parts, nodes, r, t, node), [At(e, WorldPlace(nodes, t + 1) + e.at)], While(parts, nodes, r, t, node'))
  {
    var links := RowLinks(nodes, r);
    var before := links[t := links[t].(node := node)];
    ComponentDoes(schema, parts, before, t, before[t].(node := node'), e);
    assert before[..t] == links[..t];
    SamePlace(nodes, r, t + 1);
    assert before[t := before[t].(node := node')] == links[t := links[t].(node := node')];
    DoesInWorld(schema, While(parts, nodes, r, t, node), While(parts, nodes, r, t, node').root, At(e, LeavesOf(before[..t]) + e.at));
  }

  lemma SlotLeads(schema: Schema, parts: seq<Shape>, nodes: seq<Node>, r: Row<Calm>, t: nat, node: Node, node': Node)
    requires |nodes| == SizeOf(parts) && Fits(|nodes| + 2, r) && t < |nodes| && Leads(schema, node, node', [])
    ensures Shows(schema, While(parts, nodes, r, t, node), [], While(parts, nodes, r, t, node'))
  {
    var links := RowLinks(nodes, r);
    var before := links[t := links[t].(node := node)];
    ComponentLeads(schema, parts, before, t, node');
    assert before[t := before[t].(node := node')] == links[t := links[t].(node := node')];
    LeadsInWorld(schema, While(parts, nodes, r, t, node), While(parts, nodes, r, t, node').root, []);
    GivesNone(While(parts, nodes, r, t, node), While(parts, nodes, r, t, node').root);
  }

  /** Whatever waits on its link, proxies in a group can pass a message on among themselves. */
  lemma WithinGroup(schema: Schema, parts: seq<Shape>, nodes: seq<Node>, r: Row<Calm>, t: nat, ps: seq<Shape>,
                    i: nat, d: Direction, j: nat)
    requires |nodes| == SizeOf(parts) && Fits(|nodes| + 2, r) && t < |nodes|
    requires nodes[t] == Resting(ps, Idles(SizeOf(ps)), [])
    requires i < SizeOf(ps) && j < SizeOf(ps) && if d == Rightward then j == i + 1 else i == j + 1
    ensures var at := WorldPlace(nodes, t + 1);
      Shows(schema, RowWorld(parts, nodes, r), [Sent(at + i, d, M3), Received(at + j, d, M3)], RowWorld(parts, nodes, r))
  {
    InsideSends(schema, ps, i, d, M3);
    InsideMoves(schema, ps, i, d, j, M3);
    InsideTakes(schema, ps, j, d, M3);
    SlotRound(schema, parts, nodes, r, t, nodes[t], WithUp(ps, i, ToLinkUp(Give(d, M3))), WithDown(ps, j, DownForm(d, M3)),
              Sent(i, d, M3), Received(j, d, M3));
  }

  lemma SlotRound(schema: Schema, parts: seq<Shape>, nodes: seq<Node>, r: Row<Calm>, t: nat, n0: Node, n1: Node, n2: Node,
                  e: Event, e': Event)
    requires |nodes| == SizeOf(parts) && Fits(|nodes| + 2, r) && t < |nodes| && nodes[t] == n0
    requires n0.Nest? && n2.Nest? && Does(schema, n0, n1, e) && Leads(schema, n1, n2, []) && Does(schema, n2, n0, e')
    ensures var at := WorldPlace(nodes, t + 1);
      Shows(schema, RowWorld(parts, nodes, r), [At(e, at + e.at), At(e', at + e'.at)], RowWorld(parts, nodes, r))
  {
    var at := WorldPlace(nodes, t + 1);
    SlotDoes(schema, parts, nodes, r, t, n0, n1, e);
    SlotLeads(schema, parts, nodes, r, t, n1, n2);
    SlotDoes(schema, parts, nodes, r, t, n2, n0, e');
    WhileItself(parts, nodes, r, t);
    Thrice(schema, While(parts, nodes, r, t, n0), [At(e, at + e.at)], While(parts, nodes, r, t, n1), [],
           While(parts, nodes, r, t, n2), [At(e', at + e'.at)], While(parts, nodes, r, t, n0));
    assert [At(e, at + e.at)] + [] + [At(e', at + e'.at)] == [At(e, at + e.at), At(e', at + e'.at)];
  }

  lemma WhileItself(parts: seq<Shape>, nodes: seq<Node>, r: Row<Calm>, t: nat)
    requires |nodes| == SizeOf(parts) && Fits(|nodes| + 2, r) && t < |nodes|
    ensures While(parts, nodes, r, t, nodes[t]) == RowWorld(parts, nodes, r)
  {
    var links := RowLinks(nodes, r);
    assert links[t := links[t].(node := nodes[t])] == links;
  }

  // ---- Harmful groups ------------------------------------------------------------------------

  /** The components of the chain when a group of `k` proxies, with `t` before it and `rest` behind, is one. */
  ghost function Slots(t: nat, ps: seq<Shape>, rest: nat): (r: seq<Node>)
    ensures |r| == t + 1 + rest && r[t] == Resting(ps, Idles(SizeOf(ps)), [])
    ensures forall i :: 0 <= i < |r| && i != t ==> r[i] == Leaf
  {
    Proxies(t) + [Resting(ps, Idles(SizeOf(ps)), [])] + Proxies(rest)
  }

  lemma SlotLinks(t: nat, ps: seq<Shape>, rest: nat)
    ensures RowLinks(Slots(t, ps, rest), Still(t + rest + 3)) == Collapse(Idles(t + SizeOf(ps) + rest), t, ps)
  {
    var nodes, k := Slots(t, ps, rest), SizeOf(ps);
    var links, idle := RowLinks(nodes, Still(t + rest + 3)), Idles(t + k + rest);
    assert idle[t..t + k] == Idles(k);
    var there := Collapse(idle, t, ps);
    forall i | 0 <= i < |links| ensures links[i] == there[i] {
      assert links[i] == KidAt(nodes, Still(t + rest + 3), i);
    }
  }

  lemma SlotPlaces(t: nat, ps: seq<Shape>, rest: nat, at: nat)
    requires at < t + rest + 3
    ensures WorldPlace(Slots(t, ps, rest), at) == if at <= t + 1 then at else at - 1 + SizeOf(ps)
  {
    var nodes := Slots(t, ps, rest);
    var links := RowLinks(nodes, Still(|nodes| + 2));
    if 0 < at <= t + 1 {
      LeavesOfLeaves(links[..at - 1]);
    } else if at > t + 1 {
      SlotLeaves(ps);
      LeavesPast(links[..at - 1], t);
    }
  }

  lemma SlotLeaves(ps: seq<Shape>)
    ensures Leaves(Resting(ps, Idles(SizeOf(ps)), [])) == SizeOf(ps)
  {
    LeavesOfShape(Group(ps), Idles(SizeOf(ps)));
    LeavesOfLeaves(Idles(SizeOf(ps)));
  }

  lemma LeavesPast(links: seq<Kid>, t: nat)
    requires t < |links| && forall i :: 0 <= i < |links| && i != t ==> links[i].node == Leaf
    ensures LeavesOf(links) == |links| - 1 + Leaves(links[t].node)
  {
    LeavesOfLeaves(links[..t]);
    LeavesOfLeaves(links[t + 1..]);
    LeavesSplit(links, t);
  }

  lemma FiveShown(schema: Schema, w: World, w': World, p: nat, dir: Direction)
    requires var opp := Opposite(dir); Shows(schema, w, [Sent(p, dir, M1), Sent(p, opp, M2), Received(Next(p, opp), opp, M2)], w')
    requires var opp, q := Opposite(dir), Next(p, dir); Shows(schema, w', [Sent(Next(q, dir), opp, M3), Received(q, opp, M3)], w')
    ensures CanShow(schema, w, Five(p, dir))
  {
    var opp, q := Opposite(dir), Next(p, dir);
    var first, last := [Sent(p, dir, M1), Sent(p, opp, M2), Received(Next(p, opp), opp, M2)],
      [Sent(Next(q, dir), opp, M3), Received(q, opp, M3)];
    Then(schema, w, first, w', last, w');
    assert first + last == Five(p, dir);
  }

  /** The places of the chain, `k` of them in component `t` and one in every other. */
  ghost predicate PlacedAs(nodes: seq<Node>, t: nat, k: nat) {
    && t < |nodes|
    && (forall i :: 0 <= i < |nodes| && i != t ==> nodes[i] == Leaf)
    && (forall at :: 0 <= at < |nodes| + 2 ==> WorldPlace(nodes, at) == if at <= t + 1 then at else at - 1 + k)
  }

  /** A group between other proxies that holds none: what is sent to it from the one side is overtaken on the other. */
  lemma EmptyShows(schema: Schema, parts: seq<Shape>, nodes: seq<Node>, t: nat)
    requires |nodes| == SizeOf(parts) && PlacedAs(nodes, t, 0) && 0 < t < |nodes| - 1
    ensures CanShow(schema, RowWorld(parts, nodes, Still(|nodes| + 2)), Five(t, Rightward))
  {
    var r := Parked(|nodes| + 2, t, Rightward);
    FirstThree(schema, parts, nodes, t, Rightward);
    assert r.up[t + 3] == [] && r.down[t + 2] == [];
    ThereAndTaken(schema, parts, nodes, r, t + 3, Leftward);
    FiveShown(schema, RowWorld(parts, nodes, Still(|nodes| + 2)), RowWorld(parts, nodes, r), t, Rightward);
  }

  /** A group of several proxies with others before it: what these send in is overtaken by what they send each other. */
  lemma InnerShows(schema: Schema, parts: seq<Shape>, nodes: seq<Node>, t: nat, ps: seq<Shape>)
    requires |nodes| == SizeOf(parts) && PlacedAs(nodes, t, SizeOf(ps)) && SizeOf(ps) >= 2 && t > 0
    requires nodes[t] == Resting(ps, Idles(SizeOf(ps)), [])
    ensures CanShow(schema, RowWorld(parts, nodes, Still(|nodes| + 2)), Five(t, Rightward))
  {
    var r := Parked(|nodes| + 2, t, Rightward);
    FirstThree(schema, parts, nodes, t, Rightward);
    WithinGroup(schema, parts, nodes, r, t, ps, 1, Leftward, 0);
    FiveShown(schema, RowWorld(parts, nodes, Still(|nodes| + 2)), RowWorld(parts, nodes, r), t, Rightward);
  }

  /** The same with others behind it. */
  lemma OuterShows(schema: Schema, parts: seq<Shape>, nodes: seq<Node>, t: nat, ps: seq<Shape>, k: nat)
    requires |nodes| == SizeOf(parts) && PlacedAs(nodes, t, k) && k == SizeOf(ps) >= 2 && t < |nodes| - 1
    requires nodes[t] == Resting(ps, Idles(k), [])
    ensures CanShow(schema, RowWorld(parts, nodes, Still(|nodes| + 2)), Five(t + k + 1, Leftward))
  {
    var r, p := Parked(|nodes| + 2, t + 2, Leftward), t + k + 1;
    FirstThree(schema, parts, nodes, t + 2, Leftward);
    assert WorldPlace(nodes, t + 2) == p && WorldPlace(nodes, t + 3) == p + 1 && WorldPlace(nodes, t + 1) == t + 1;
    WithinGroup(schema, parts, nodes, r, t, ps, k - 2, Rightward, k - 1);
    OuterFive(schema, RowWorld(parts, nodes, Still(|nodes| + 2)), RowWorld(parts, nodes, r), t + 1 + (k - 2), t + 1 + (k - 1), p);
  }

  lemma OuterFive(schema: Schema, w: World, w': World, sender: nat, taker: nat, p: nat)
    requires taker == sender + 1 && p == taker + 1
    requires Shows(schema, w, [Sent(p, Leftward, M1), Sent(p, Rightward, M2), Received(p + 1, Rightward, M2)], w')
    requires Shows(schema, w', [Sent(sender, Rightward, M3), Received(taker, Rightward, M3)], w')
    ensures CanShow(schema, w, Five(p, Leftward))
  {
    FiveShown(schema, w, w', p, Leftward);
  }

  /** Wherever a harmful group is, its chain can show five events that the same proxies never show in one conductor. */
  lemma HarmfulShows(schema: Schema, parts: seq<Shape>) returns (p: nat, dir: Direction)
    requires !IsHarmless(parts)
    ensures Roomy(SizeOf(parts) + 2, p, dir) && CanShow(schema, NestedChain(parts), Five(p, dir))
  {
    var n := SizeOf(parts);
    var parts', t, ps := FindHarmful(parts, Idles(n), 0, n);
    var rest := n - t - SizeOf(ps);
    var nodes := Slots(t, ps, rest);
    SlotChain(parts, parts', t, ps, rest);
    forall at | 0 <= at < |nodes| + 2 ensures WorldPlace(nodes, at) == if at <= t + 1 then at else at - 1 + SizeOf(ps) {
      SlotPlaces(t, ps, rest, at);
    }
    if SizeOf(ps) == 0 {
      p, dir := t, Rightward;
      EmptyShows(schema, parts', nodes, t);
    } else if t > 0 {
      p, dir := t, Rightward;
      InnerShows(schema, parts', nodes, t, ps);
    } else {
      p, dir := t + SizeOf(ps) + 1, Leftward;
      OuterShows(schema, parts', nodes, t, ps, SizeOf(ps));
    }
  }

  lemma SlotChain(parts: seq<Shape>, parts': seq<Shape>, t: nat, ps: seq<Shape>, rest: nat)
    requires SizeOf(parts) == t + SizeOf(ps) + rest && SizeOf(parts') == t + 1 + rest
    requires KidsOf(parts', Collapse(Idles(SizeOf(parts)), t, ps)) == KidsOf(parts, Idles(SizeOf(parts)))
    ensures NestedChain(parts) == RowWorld(parts', Slots(t, ps, rest), Still(t + rest + 3))
  {
    SlotLinks(t, ps, rest);
    assert Bare([]) == [];
  }
}
