// Exactly which groups keep the order of events across directions: those that hold one proxy, or all, or none at
// one end of the chain.

module HarmlessRuns {
  import opened Outcomes
  import opened Messages
  import opened Routing
  import opened GapLists
  import opened ProxyTree
  import opened ProxyTreeMoves
  import opened Chain
  import opened ChainRuns
  import opened ChainSafety
  import opened Flattening
  import opened FlatteningRuns
  import opened DirectionRuns
  import opened Rows
  import opened Delays
  import opened OneProxy
  import opened CoreMoves
  import opened Groupings
  import OneProxyMoves
  import H = HarmlessRows

  // ---- The way to the conductor that holds all proxies ---------------------------------------

  /** Each conductor on the path has all its proxies in the child that the path goes on with. */
  predicate OnPath(n: Node, path: seq<nat>) {
    path == [] ||
    (n.Nest? && n.ready && path[0] < |n.kids| && OnPath(n.kids[path[0]].node, path[1..])
     && forall i :: 0 <= i < |n.kids| && i != path[0] ==> Leaves(n.kids[i].node) == 0)
  }

  function Deep(n: Node, path: seq<nat>): Node
    requires OnPath(n, path)
  {
    if path == [] then n else Deep(n.kids[path[0]].node, path[1..])
  }

  lemma {:induction false} DeepLeaves(n: Node, path: seq<nat>)
    requires OnPath(n, path)
    ensures Leaves(Deep(n, path)) == Leaves(n)
    decreases path
  {
    if path != [] {
      var i := path[0];
      DeepLeaves(n.kids[i].node, path[1..]);
      NoLeaves(n.kids[..i]);
      NoLeaves(n.kids[i + 1..]);
      LeavesSplit(n.kids, i);
    }
  }

  /** What a move of the outermost conductor is for the one that holds all proxies: nothing, taking a message, or a
      move of its own. */
  datatype InnerMove = Nothing | Taken(g: Give) | Moved(mv: Move)

  predicate IsInner(schema: Schema, n: Node, m: InnerMove, n': Node, e: Option<Event>) {
    match m
    case Nothing => n' == n && e == None
    case Taken(g) => n' == ApplyTake(n, g).node && e == None
    case Moved(mv) => !mv.Take? && Apply(schema, n, mv).Some?
                      && n' == Apply(schema, n, mv).value.node && e == Apply(schema, n, mv).value.event
  }

  lemma {:induction false} PathTakes(schema: Schema, n: Node, path: seq<nat>, g: Give) returns (m: InnerMove)
    requires OnPath(n, path) && Deep(n, path).Nest?
    ensures var n' := ApplyTake(n, g).node;
      OnPath(n', path) && IsInner(schema, Deep(n, path), m, Deep(n', path), None) && ApplyTake(n, g).event == None
    decreases path
  {
    m := if path == [] then Taken(g) else Nothing;
  }

  lemma {:induction false} PathMoves(schema: Schema, n: Node, path: seq<nat>, mv: Move) returns (m: InnerMove)
    requires OnPath(n, path) && Deep(n, path).Nest? && !mv.Take? && Apply(schema, n, mv).Some?
    ensures var o := Apply(schema, n, mv).value;
      OnPath(o.node, path) && IsInner(schema, Deep(n, path), m, Deep(o.node, path), o.event)
    decreases path
  {
    if path == [] {
      m := Moved(mv);
    } else {
      match mv
      case Feed(i) => m := PathFeeds(schema, n, path, i);
      case Inside(i, sub) => m := PathInside(schema, n, path, i, sub);
      case Route =>
        RouteKeepsNodes(schema, n);
        m := Nothing;
      case _ => m := Nothing;
    }
  }

  lemma RouteKeepsNodes(schema: Schema, n: Node)
    requires n.Nest? && n.mailbox != [] && RouteEntry(schema, n).Some?
    ensures var o := RouteEntry(schema, n).value;
      && o.event == None && o.node.ready == n.ready && |o.node.kids| == |n.kids|
      && forall i :: 0 <= i < |n.kids| ==> o.node.kids[i].node == n.kids[i].node
  {
    var w := RoutedWhere(schema, n);
  }

  lemma PathFeeds(schema: Schema, n: Node, path: seq<nat>, i: nat) returns (m: InnerMove)
    requires OnPath(n, path) && path != [] && Deep(n, path).Nest? && ApplyFeed(n, i).Some?
    ensures var o := ApplyFeed(n, i).value;
      OnPath(o.node, path) && IsInner(schema, Deep(n, path), m, Deep(o.node, path), o.event)
  {
    var g := OffLinkDown(n.kids[i].down[0]);
    TakeRespects(Rightward, n.kids[i].node, g);
    if i == path[0] {
      m := PathTakes(schema, n.kids[i].node, path[1..], g);
    } else {
      m := Nothing;
    }
  }

  lemma PathInside(schema: Schema, n: Node, path: seq<nat>, i: nat, sub: Move) returns (m: InnerMove)
    requires OnPath(n, path) && path != [] && Deep(n, path).Nest? && Apply(schema, n, Inside(i, sub)).Some?
    ensures var o := Apply(schema, n, Inside(i, sub)).value;
      OnPath(o.node, path) && IsInner(schema, Deep(n, path), m, Deep(o.node, path), o.event)
    decreases path, 0
  {
    var inner := Apply(schema, n.kids[i].node, sub).value;
    var kid := OneProxyMoves.Moved(n.kids[i], inner);
    InsideIs(schema, n, i, sub, inner, kid);
    if i == path[0] {
      m := PathMoves(schema, n.kids[i].node, path[1..], sub);
      InsideOnPath(schema, n, path, m, kid, inner.event);
    } else {
      m := Nothing;
      MoveRespects(Rightward, schema, n.kids[i].node, sub);
      OnPathBeside(n, path, i, kid);
    }
  }

  lemma InsideIs(schema: Schema, n: Node, i: nat, sub: Move, inner: Outcome, kid: Kid)
    requires n.Nest? && Apply(schema, n, Inside(i, sub)).Some? && Apply(schema, n.kids[i].node, sub) == Some(inner)
    requires kid == OneProxyMoves.Moved(n.kids[i], inner)
    ensures Apply(schema, n, Inside(i, sub)).value
         == Outcome(n.(kids := n.kids[i := kid]), ShiftEvent(inner.event, LeavesOf(n.kids[..i])), None)
  {
  }

  lemma InsideOnPath(schema: Schema, n: Node, path: seq<nat>, m: InnerMove, kid: Kid, e: Option<Event>)
    requires OnPath(n, path) && path != [] && Deep(n, path).Nest? && OnPath(kid.node, path[1..])
    requires IsInner(schema, Deep(n.kids[path[0]].node, path[1..]), m, Deep(kid.node, path[1..]), e)
    ensures var n' := n.(kids := n.kids[path[0] := kid]);
      && OnPath(n', path)
      && IsInner(schema, Deep(n, path), m, Deep(n', path), ShiftEvent(e, LeavesOf(n.kids[..path[0]])))
  {
    NoLeaves(n.kids[..path[0]]);
    Unshifted(e);
    OnPathWith(n, path, kid);
    DeepWith(n, path);
  }

  lemma OnPathBeside(n: Node, path: seq<nat>, i: nat, kid: Kid)
    requires OnPath(n, path) && path != [] && i < |n.kids| && i != path[0] && Leaves(kid.node) == 0
    ensures var n' := n.(kids := n.kids[i := kid]); OnPath(n', path) && Deep(n', path) == Deep(n, path)
  {
  }

  lemma DeepWith(n: Node, path: seq<nat>)
    requires OnPath(n, path) && path != []
    ensures Deep(n, path) == Deep(n.kids[path[0]].node, path[1..])
  {
  }

  lemma OnPathWith(n: Node, path: seq<nat>, kid: Kid)
    requires OnPath(n, path) && path != [] && OnPath(kid.node, path[1..])
    ensures var n' := n.(kids := n.kids[path[0] := kid]); OnPath(n', path) && Deep(n', path) == Deep(kid.node, path[1..])
  {
  }

  lemma Unshifted(e: Option<Event>)
    ensures ShiftEvent(e, 0) == e
  {
  }

  // ---- What is in flight at the ends ---------------------------------------------------------

  lemma {:induction false} FirstGapAny(mails: seq<seq<Traffic>>, stages: seq<Stage<Traffic>>, p: nat)
    requires |mails| == |stages| + 1 && p < |stages| && |stages[p].inside| >= 2
    requires forall q :: 0 <= q < p ==> |stages[q].inside| == 1
    ensures |Line(mails, stages)| >= 2 && |Line(mails, stages)[0]| >= |mails[p]| + |StageGaps(stages[p])[0]|
  {
    var ms, ss := mails[1..], stages[1..];
    if p > 0 {
      assert forall q :: 0 <= q < p - 1 ==> ss[q] == stages[q + 1];
      FirstGapAny(ms, ss, p - 1);
      InFrontOf([mails[0]], StageGaps(stages[0]), Line(ms, ss));
    } else {
      AtTheFront([mails[0]], StageGaps(stages[0]), Line(ms, ss));
    }
  }

  lemma InFrontOf(a: Gaps<Traffic>, g: Gaps<Traffic>, z: Gaps<Traffic>)
    requires |a| == 1 && |g| == 1 && |z| >= 2
    ensures var whole := Join(Join(a, g), z); |whole| >= 2 && |whole[0]| >= |z[0]|
  {
  }

  lemma AtTheFront(a: Gaps<Traffic>, g: Gaps<Traffic>, z: Gaps<Traffic>)
    requires |a| == 1 && |g| >= 2
    ensures var whole := Join(Join(a, g), z); |whole| >= 2 && |whole[0]| == |a[0]| + |g[0]|
  {
  }

  lemma {:induction false} LastGapAny(mails: seq<seq<Traffic>>, stages: seq<Stage<Traffic>>, p: nat)
    requires |mails| == |stages| + 1 && p < |stages| && |stages[p].inside| >= 2
    requires forall q :: p < q < |stages| ==> |stages[q].inside| == 1
    ensures |Line(mails, stages)| >= 2
    ensures LastSize(Line(mails, stages)) >= |mails[p + 1]| + LastSize(StageGaps(stages[p]))
  {
    var ms, ss := mails[1..], stages[1..];
    if p > 0 {
      assert forall q :: p - 1 < q < |ss| ==> ss[q] == stages[q + 1];
      LastGapAny(ms, ss, p - 1);
      BehindAll(Join([mails[0]], StageGaps(stages[0])), Line(ms, ss));
    } else {
      assert forall q :: 0 <= q < |ss| ==> ss[q] == stages[q + 1];
      LastMail(ms, ss);
      FirstMail(ms, ss);
      AtTheBack([mails[0]], StageGaps(stages[0]), Line(ms, ss));
    }
  }

  lemma BehindAll(a: Gaps<Traffic>, z: Gaps<Traffic>)
    requires |z| >= 2
    ensures |Join(a, z)| >= 2 && LastSize(Join(a, z)) == LastSize(z)
  {
  }

  lemma AtTheBack(a: Gaps<Traffic>, g: Gaps<Traffic>, z: Gaps<Traffic>)
    requires |a| == 1 && |g| >= 2 && |z| == 1
    ensures var whole := Join(Join(a, g), z); |whole| >= 2 && LastSize(whole) == |z[0]| + LastSize(g)
  {
  }

  lemma FirstMail(mails: seq<seq<Traffic>>, stages: seq<Stage<Traffic>>)
    requires |mails| == |stages| + 1
    ensures |Line(mails, stages)[0]| >= |mails[0]|
  {
    if stages != [] {
      var g, z := StageGaps(stages[0]), Line(mails[1..], stages[1..]);
      assert Join([mails[0]], g)[0] == g[0] + mails[0];
    }
  }

  lemma StageEnds(s: Stage<Traffic>)
    requires |s.inside| >= 2
    ensures |StageGaps(s)[0]| == |s.down| + |s.inside[0]| && LastSize(StageGaps(s)) == |s.up| + LastSize(s.inside)
  {
  }

  lemma NodeFirst(d: Direction, n: Node, i: nat)
    requires n.Nest? && i < |n.kids| && Leaves(n.kids[i].node) >= 1
    requires forall p :: 0 <= p < PlaceOf(d, |n.kids|, i) ==> Leaves(n.kids[Place(d, |n.kids|, p)].node) == 0
    ensures |GapsOf(d, n)[0]| >= |InDown(d, n.kids[i].down)| + |GapsOf(d, n.kids[i].node)[0]|
  {
    var k, p := |n.kids|, PlaceOf(d, |n.kids|, i);
    StagesApart(d, n, i);
    FirstGapAny(Mails(d, n.mailbox, k), StagesOf(d, n.kids), p);
    StageEnds(StageOf(d, n.kids[i]));
  }

  lemma NodeLast(d: Direction, n: Node, i: nat)
    requires n.Nest? && i < |n.kids| && Leaves(n.kids[i].node) >= 1
    requires forall p :: PlaceOf(d, |n.kids|, i) < p < |n.kids| ==> Leaves(n.kids[Place(d, |n.kids|, p)].node) == 0
    ensures LastSize(GapsOf(d, n))
         >= |InMail(d, n.mailbox, |n.kids|, PlaceOf(d, |n.kids|, i) + 1)| + |InUp(d, n.kids[i].up)| + LastSize(GapsOf(d, n.kids[i].node))
  {
    var k, p := |n.kids|, PlaceOf(d, |n.kids|, i);
    StagesApart(d, n, i);
    LastGapAny(Mails(d, n.mailbox, k), StagesOf(d, n.kids), p);
    StageEnds(StageOf(d, n.kids[i]));
    MailsAt(d, n.mailbox, k, p + 1);
  }

  lemma MailsAt(d: Direction, mailbox: seq<Routed>, k: nat, p: nat)
    requires p <= k
    ensures Mails(d, mailbox, k)[p] == InMail(d, mailbox, k, p)
  {
  }

  lemma StagesApart(d: Direction, n: Node, i: nat)
    requires n.Nest? && i < |n.kids| && Leaves(n.kids[i].node) >= 1
    ensures var k := |n.kids|; var stages := StagesOf(d, n.kids);
      && stages[PlaceOf(d, k, i)] == StageOf(d, n.kids[i]) && |stages[PlaceOf(d, k, i)].inside| >= 2
      && forall p :: 0 <= p < k && Leaves(n.kids[Place(d, k, p)].node) == 0 ==> |stages[p].inside| == 1
  {
    var k := |n.kids|;
    GapCount(d, n.kids[i].node);
    forall p | 0 <= p < k && Leaves(n.kids[Place(d, k, p)].node) == 0 ensures |StagesOf(d, n.kids)[p].inside| == 1 {
      GapCount(d, n.kids[Place(d, k, p)].node);
    }
  }

  lemma {:induction false} PathEnds(d: Direction, n: Node, path: seq<nat>)
    requires OnPath(n, path) && Leaves(Deep(n, path)) >= 1
    ensures |GapsOf(d, n)[0]| >= |GapsOf(d, Deep(n, path))[0]|
    ensures LastSize(GapsOf(d, n)) >= LastSize(GapsOf(d, Deep(n, path)))
    decreases path
  {
    if path != [] {
      PathEnds(d, n.kids[path[0]].node, path[1..]);
      DeepLeaves(n.kids[path[0]].node, path[1..]);
      NodeFirst(d, n, path[0]);
      NodeLast(d, n, path[0]);
    }
  }

  lemma {:induction false} SentCount(d: Direction, mail: seq<Routed>, k: nat, i: nat)
    requires i < k
    ensures Count(d, SentTags(k, mail, i + 1)) == |InMail(d, mail, k, PlaceOf(d, k, i) + 1)|
  {
    if mail != [] {
      SentCount(d, mail[1..], k, i);
      var tag := if SenderOf(k, mail[0]) == i + 1 then [OneProxyMoves.TagOf(mail[0])] else [];
      MarksJoin(d, tag, SentTags(k, mail[1..], i + 1));
      if tag != [] {
        OneMark(d, tag[0]);
      }
    }
  }

  lemma KidInCount(d: Direction, kid: Kid)
    requires Single(d, kid.node)
    ensures Count(d, InKid(d, kid)) == |InDown(d, kid.down)| + |GapsOf(d, kid.node)[0]|
  {
    InTotal(d, kid.node);
    KidCount(d, kid);
  }

  lemma KidOutCount(d: Direction, kid: Kid)
    requires Single(d, kid.node)
    ensures Count(Opposite(d), OutKid(d, kid)) == |InUp(Opposite(d), kid.up)| + LastSize(GapsOf(Opposite(d), kid.node))
  {
    OutTotal(d, kid.node);
    UpCount(Opposite(d), kid.up);
    MarksJoin(Opposite(d), TagsUp(kid.up), Out(d, kid.node));
  }

  /** At the conductor that holds all proxies. */
  lemma CoreEnds(n: Node, a: nat, count: nat, d: Direction)
    requires IsCore(n, a, count)
    ensures var j := H.Edge(d, count);
      && Count(d, CoreIn(n, a, count, j)) <= |GapsOf(d, n)[0]|
      && Count(Opposite(d), CoreOut(n, a, count, j)) <= LastSize(GapsOf(Opposite(d), n))
  {
    var j := H.Edge(d, count);
    assert CoreKid(n, a, count, j) && H.DirOf(j) == d;
    OneLeaf(d, n.kids[a + j].node);
    CoreEndIn(n, a, count, d, a + j);
    CoreEndOut(n, a, count, d, a + j);
  }

  lemma CoreEndIn(n: Node, a: nat, count: nat, d: Direction, i: nat)
    requires IsCore(n, a, count) && i == a + H.Edge(d, count) && Single(d, n.kids[i].node) && Leaves(n.kids[i].node) == 1
    ensures Count(d, InKid(d, n.kids[i])) <= |GapsOf(d, n)[0]|
  {
    OutermostKid(n, a, count, d, i);
    NodeFirst(d, n, i);
    KidInCount(d, n.kids[i]);
  }

  lemma CoreEndOut(n: Node, a: nat, count: nat, d: Direction, i: nat)
    requires IsCore(n, a, count) && i == a + H.Edge(d, count) && Single(d, n.kids[i].node) && Leaves(n.kids[i].node) == 1
    ensures Count(Opposite(d), SentTags(|n.kids|, n.mailbox, i + 1) + OutKid(d, n.kids[i])) <= LastSize(GapsOf(Opposite(d), n))
  {
    OutermostKid(n, a, count, d, i);
    NodeLast(Opposite(d), n, i);
    KidOutCount(d, n.kids[i]);
    SentCount(Opposite(d), n.mailbox, |n.kids|, i);
    MarksJoin(Opposite(d), SentTags(|n.kids|, n.mailbox, i + 1), OutKid(d, n.kids[i]));
  }

  /** No proxy is met before the first one, nor, the other way, after it. */
  lemma OutermostKid(n: Node, a: nat, count: nat, d: Direction, i: nat)
    requires IsCore(n, a, count) && i == a + H.Edge(d, count)
    ensures var k := |n.kids|;
      && (forall p :: 0 <= p < PlaceOf(d, k, i) ==> Leaves(n.kids[Place(d, k, p)].node) == 0)
      && (forall p :: PlaceOf(Opposite(d), k, i) < p < k ==> Leaves(n.kids[Place(Opposite(d), k, p)].node) == 0)
  {
  }

  lemma ChainEnds(d: Direction, w: World)
    requires Leaves(w.root) >= 1
    ensures |InFlight(d, w)| == Leaves(w.root) + 1
    ensures |InFlight(d, w)[0]| >= |GapsOf(d, w.root)[0]|
    ensures LastSize(InFlight(d, w)) == |Last(d, w)| + LastSize(GapsOf(d, w.root))
  {
    GapCount(d, w.root);
  }

  // ---- The chain as what passes --------------------------------------------------------------

  /** All proxies are in conductors of their own inside the conductor at the end of the path. */
  ghost predicate Arranged(w: World, path: seq<nat>, a: nat, count: nat) {
    OnPath(w.root, path) && IsCore(Deep(w.root, path), a, count)
  }

  ghost function FlowOf(w: World, path: seq<nat>, a: nat, count: nat): (f: H.Flow)
    requires Arranged(w, path, a, count)
    ensures |f.ins| == |f.outs| == count
  {
    CoreFlow(Deep(w.root, path), a, count).(
      comingR := |InFlight(Rightward, w)[0]|, comingL := |InFlight(Leftward, w)[0]|,
      leavingR := LastSize(InFlight(Rightward, w)), leavingL := LastSize(InFlight(Leftward, w)))
  }

  lemma CoreLeaves(n: Node, a: nat, count: nat)
    requires IsCore(n, a, count)
    ensures Leaves(n) == count
  {
    LeavesBeforeCore(n, a, count, count);
    NoLeaves(n.kids[a + count..]);
    assert n.kids == n.kids[..a + count] + n.kids[a + count..];
    LeavesAppend(n.kids[..a + count], n.kids[a + count..]);
  }

  lemma ArrangedPlaces(w: World, path: seq<nat>, a: nat, count: nat)
    requires Arranged(w, path, a, count)
    ensures Leaves(w.root) == Leaves(Deep(w.root, path)) == count && Places(w) == count + 2
  {
    DeepLeaves(w.root, path);
    CoreLeaves(Deep(w.root, path), a, count);
  }

  /** What is on its way near the ends is in flight there, besides what waits for the client or the agent. */
  lemma FlowSound(w: World, path: seq<nat>, a: nat, count: nat)
    requires Arranged(w, path, a, count)
    ensures H.Sound(count, FlowOf(w, path, a, count))
    ensures forall d :: var f := FlowOf(w, path, a, count);
      Count(Opposite(d), f.outs[H.Edge(d, count)]) + |Last(Opposite(d), w)| <= H.Going(f, Opposite(d))
  {
    var n, f := Deep(w.root, path), FlowOf(w, path, a, count);
    ArrangedPlaces(w, path, a, count);
    forall d
      ensures H.SoundAt(count, f, d)
      ensures Count(Opposite(d), f.outs[H.Edge(d, count)]) + |Last(Opposite(d), w)| <= H.Going(f, Opposite(d))
    {
      EndsOf(w, path, a, count, d);
    }
  }

  lemma EndsOf(w: World, path: seq<nat>, a: nat, count: nat, d: Direction)
    requires Arranged(w, path, a, count) && Leaves(w.root) == Leaves(Deep(w.root, path)) == count
    ensures var f, j := FlowOf(w, path, a, count), H.Edge(d, count);
      && Count(d, f.ins[j]) <= H.Coming(f, d)
      && Count(Opposite(d), f.outs[j]) + |Last(Opposite(d), w)| <= H.Going(f, Opposite(d))
  {
    var n := Deep(w.root, path);
    CoreEnds(n, a, count, d);
    PathEnds(d, w.root, path);
    PathEnds(Opposite(d), w.root, path);
    ChainEnds(d, w);
    ChainEnds(Opposite(d), w);
    FlowSizesOf(w, path, a, count, d);
    FlowSizesOf(w, path, a, count, Opposite(d));
  }

  lemma FlowSizesOf(w: World, path: seq<nat>, a: nat, count: nat, d: Direction)
    requires Arranged(w, path, a, count)
    ensures var f := FlowOf(w, path, a, count);
      H.Coming(f, d) == |InFlight(d, w)[0]| && H.Going(f, d) == LastSize(InFlight(d, w))
  {
  }

  // ---- One step of the chain -----------------------------------------------------------------

  lemma InnerSteps(schema: Schema, n: Node, a: nat, count: nat, m: InnerMove, n': Node, e: Option<Event>) returns (c: H.Change)
    requires IsCore(n, a, count) && IsInner(schema, n, m, n', e)
    ensures CoreStep(n, a, count, c, n') && Tells(c, e) && (c.Crosses? ==> HasNext(count + 2, c.p, c.t))
  {
    match m
    case Nothing =>
      c := H.Calm;
      Idles(n, a, count, c);
    case Taken(g) =>
      c := H.Calm;
      CoreTakes(n, a, count, g);
    case Moved(mv) => c := EveryCoreMove(schema, n, a, count, mv);
  }

  /** What is done elsewhere is nothing to the conductor that holds all proxies. */
  lemma Idles(n: Node, a: nat, count: nat, c: H.Change)
    requires IsCore(n, a, count) && (c.Calm? || (c.Acts? && (c.e.at == 0 || c.e.at == count + 1)))
    ensures CoreStep(n, a, count, c, n)
  {
    forall j | 0 <= j < count ensures H.FlowAt(count, CoreFlow(n, a, count), c, CoreFlow(n, a, count), j) {
      Same(n, a, count, c, n, j);
    }
  }

  /** The change tells the event that the chain shows. */
  predicate Shows1(c: H.Change, e: Option<Event>) {
    if e.Some? then c == H.Acts(e.value) else !c.Acts?
  }

  lemma WorldChange(schema: Schema, w: World, step: Step, path: seq<nat>, a: nat, count: nat) returns (c: H.Change)
    requires Arranged(w, path, a, count) && Advance(schema, w, step).Some?
    ensures var r := Advance(schema, w, step).value;
      && Arranged(r.world, path, a, count)
      && CoreStep(Deep(w.root, path), a, count, c, Deep(r.world.root, path)) && Shows1(c, r.event)
      && (c.Crosses? ==> HasNext(count + 2, c.p, c.t))
  {
    var n := Deep(w.root, path);
    ArrangedPlaces(w, path, a, count);
    match step
    case Conduct(mv) => c := ConductChange(schema, w, mv, path, a, count);
    case FromClient => c := TakeChange(schema, w, Give(Rightward, w.fromClient[0]), path, a, count);
    case FromAgent => c := TakeChange(schema, w, Give(Leftward, w.fromAgent[0]), path, a, count);
    case _ =>
      c := H.Acts(Advance(schema, w, step).value.event.value);
      Idles(n, a, count, c);
  }

  lemma ConductChange(schema: Schema, w: World, mv: Move, path: seq<nat>, a: nat, count: nat) returns (c: H.Change)
    requires Arranged(w, path, a, count) && Advance(schema, w, Conduct(mv)).Some?
    ensures var r := Advance(schema, w, Conduct(mv)).value;
      && Arranged(r.world, path, a, count)
      && CoreStep(Deep(w.root, path), a, count, c, Deep(r.world.root, path)) && Shows1(c, r.event)
      && (c.Crosses? ==> HasNext(count + 2, c.p, c.t))
  {
    var m := PathMoves(schema, w.root, path, mv);
    var o := Apply(schema, w.root, mv).value;
    c := InnerSteps(schema, Deep(w.root, path), a, count, m, Deep(o.node, path), o.event);
  }

  lemma TakeChange(schema: Schema, w: World, g: Give, path: seq<nat>, a: nat, count: nat) returns (c: H.Change)
    requires Arranged(w, path, a, count)
    ensures var root := ApplyTake(w.root, g).node;
      && OnPath(root, path) && CoreStep(Deep(w.root, path), a, count, c, Deep(root, path))
      && !c.Acts? && (c.Crosses? ==> HasNext(count + 2, c.p, c.t))
  {
    var m := PathTakes(schema, w.root, path, g);
    c := InnerSteps(schema, Deep(w.root, path), a, count, m, Deep(ApplyTake(w.root, g).node, path), None);
  }

  /** What the links do changes how much is in flight at the ends. */
  lemma LinkSizes(d: Direction, count: nat, g: Gaps<Traffic>, e: Option<Event>, g': Gaps<Traffic>, f: H.Flow, c: H.Change, f': H.Flow)
    requires count >= 2 && |g| == |g'| == count + 1 && LinkStep(d, count + 2, g, e, g') && Shows1(c, e)
    requires H.Coming(f, d) == |g[0]| && H.Going(f, d) == LastSize(g)
    requires H.Coming(f', d) == |g'[0]| && H.Going(f', d) == LastSize(g')
    ensures H.FlowSizes(count, f, c, f', d)
  {
  }

  lemma WorldFlows(schema: Schema, w: World, step: Step, path: seq<nat>, a: nat, count: nat, c: H.Change)
    requires Arranged(w, path, a, count) && Advance(schema, w, step).Some?
    requires var r := Advance(schema, w, step).value;
      && Arranged(r.world, path, a, count) && Shows1(c, r.event)
      && CoreStep(Deep(w.root, path), a, count, c, Deep(r.world.root, path))
    ensures H.FlowStep(count, FlowOf(w, path, a, count), c, FlowOf(Advance(schema, w, step).value.world, path, a, count))
  {
    var r := Advance(schema, w, step).value;
    var f, f' := FlowOf(w, path, a, count), FlowOf(r.world, path, a, count);
    var g, g' := CoreFlow(Deep(w.root, path), a, count), CoreFlow(Deep(r.world.root, path), a, count);
    forall j | 0 <= j < count ensures H.FlowAt(count, f, c, f', j) {
      assert H.FlowAt(count, g, c, g', j);
    }
    ArrangedPlaces(w, path, a, count);
    ArrangedPlaces(r.world, path, a, count);
    WorldSizes(schema, w, step, count, f, c, f', Rightward);
    WorldSizes(schema, w, step, count, f, c, f', Leftward);
  }

  lemma WorldSizes(schema: Schema, w: World, step: Step, count: nat, f: H.Flow, c: H.Change, f': H.Flow, d: Direction)
    requires count >= 2 && Advance(schema, w, step).Some? && Leaves(w.root) == count
    requires Leaves(Advance(schema, w, step).value.world.root) == count
    requires Shows1(c, Advance(schema, w, step).value.event)
    requires H.Coming(f, d) == |InFlight(d, w)[0]| && H.Going(f, d) == LastSize(InFlight(d, w))
    requires var w' := Advance(schema, w, step).value.world;
      H.Coming(f', d) == |InFlight(d, w')[0]| && H.Going(f', d) == LastSize(InFlight(d, w'))
    ensures H.FlowSizes(count, f, c, f', d)
  {
    var r := Advance(schema, w, step).value;
    StepIsLinkStep(d, schema, w, step);
    ChainEnds(d, w);
    ChainEnds(d, r.world);
    LinkSizes(d, count, InFlight(d, w), r.event, InFlight(d, r.world), f, c, f');
  }

  /** The client and the agent receive what waits for them. */
  lemma EndTakes(schema: Schema, w: World, step: Step, d: Direction)
    requires Advance(schema, w, step).Some? && Advance(schema, w, step).value.event.Some?
    requires var e := Advance(schema, w, step).value.event.value;
      e.Received? && e.dir == d && e.at == if d == Rightward then Places(w) - 1 else 0
    ensures |Last(d, w)| >= 1
  {
    if step.Conduct? {
      MoveRespects(d, schema, w.root, step.mv);
    }
  }

  lemma StepProper(schema: Schema, w: World, step: Step, path: seq<nat>, a: nat, count: nat, c: H.Change)
    requires Arranged(w, path, a, count) && Advance(schema, w, step).Some?
    requires Shows1(c, Advance(schema, w, step).value.event) && (c.Crosses? ==> HasNext(count + 2, c.p, c.t))
    requires c.Acts? ==> Quiet(c.e.m)
    ensures H.Proper(count, FlowOf(w, path, a, count), c)
  {
    if c.Acts? {
      ArrangedPlaces(w, path, a, count);
      EventPlaces(schema, w, step, count, c.e);
      if c.e.Received? && c.e.at == H.Start(Opposite(c.e.dir), count) {
        EndTakes(schema, w, step, c.e.dir);
        EndsOf(w, path, a, count, Opposite(c.e.dir));
        assert Opposite(Opposite(c.e.dir)) == c.e.dir;
      }
    }
  }

  /** Everyone sends to a neighbour and receives from one. */
  lemma EventPlaces(schema: Schema, w: World, step: Step, count: nat, e: Event)
    requires Advance(schema, w, step).Some? && Advance(schema, w, step).value.event == Some(e) && Leaves(w.root) == count >= 1
    ensures e.Sent? ==> HasNext(count + 2, e.at, e.dir)
    ensures e.Received? ==> e.at < count + 2 && e.at != H.Start(e.dir, count)
  {
    ChainEnds(e.dir, w);
    StepIsLinkStep(e.dir, schema, w, step);
  }

  lemma StepFollowed(schema: Schema, w: World, step: Step, path: seq<nat>, a: nat, count: nat, events: seq<Event>)
    requires Arranged(w, path, a, count) && count >= 2 && Advance(schema, w, step).Some?
    requires var e := Advance(schema, w, step).value.event; e.Some? ==> Quiet(e.value.m)
    requires H.Follows(count, FlowOf(w, path, a, count), events)
    ensures var r := Advance(schema, w, step).value;
      Arranged(r.world, path, a, count) && H.Follows(count, FlowOf(r.world, path, a, count), events + Shown(r))
  {
    var c := WorldChange(schema, w, step, path, a, count);
    WorldFlows(schema, w, step, path, a, count, c);
    StepProper(schema, w, step, path, a, count, c);
    FlowSound(w, path, a, count);
    var r := Advance(schema, w, step).value;
    H.Followed(count, FlowOf(w, path, a, count), c, FlowOf(r.world, path, a, count), events);
    assert H.EventsIn(c) == Shown(r);
  }

  // ---- Every run -----------------------------------------------------------------------------

  lemma {:induction false} IdleSingle(d: Direction, n: Node)
    requires Single(d, n) && Idle(n)
    ensures In(d, n) == [] && Out(d, n) == []
  {
    InIs(d, n);
    OutIs(d, n);
    if n.Nest? {
      var kid := n.kids[LastKid(d, n)];
      assert kid in n.kids;
      IdleSingle(d, kid.node);
      IdleGaps(d, n);
      IdleGaps(Opposite(d), n);
      assert TagsDown([]) == [] && TagsUp([]) == [];
      InTotal(d, n);
      OutTotal(d, n);
      assert Repeat(d, 0) == [] && Repeat(Opposite(d), 0) == [];
    }
  }

  lemma {:induction false} DeepIdle(n: Node, path: seq<nat>)
    requires OnPath(n, path) && Idle(n)
    ensures Idle(Deep(n, path))
    decreases path
  {
    if path != [] {
      assert n.kids[path[0]] in n.kids;
      DeepIdle(n.kids[path[0]].node, path[1..]);
    }
  }

  lemma IdleFlow(w: World, path: seq<nat>, a: nat, count: nat)
    requires Arranged(w, path, a, count) && IdleWorld(w)
    ensures FlowOf(w, path, a, count) == H.Flow(seq(count, _ => []), seq(count, _ => []), 0, 0, 0, 0)
  {
    var n, f := Deep(w.root, path), FlowOf(w, path, a, count);
    DeepIdle(w.root, path);
    forall j | 0 <= j < count ensures f.ins[j] == [] && f.outs[j] == [] {
      IdleKid(n, a, count, j);
    }
    assert f.ins == seq(count, _ => []) && f.outs == seq(count, _ => []);
    NothingInFlight(Rightward, w);
    NothingInFlight(Leftward, w);
  }

  lemma IdleKid(n: Node, a: nat, count: nat, j: nat)
    requires IsCore(n, a, count) && Idle(n) && j < count
    ensures CoreIn(n, a, count, j) == [] && CoreOut(n, a, count, j) == []
  {
    assert CoreKid(n, a, count, j) && n.kids[a + j] in n.kids;
    IdleSingle(H.DirOf(j), n.kids[a + j].node);
    assert TagsDown([]) == [] && TagsUp([]) == [];
  }

  lemma NothingInFlight(d: Direction, w: World)
    requires IdleWorld(w)
    ensures |InFlight(d, w)[0]| == 0 && LastSize(InFlight(d, w)) == 0
  {
    IdleInFlight(d, w);
  }

  lemma {:induction false} RunFollowed(schema: Schema, w: World, steps: seq<Step>, path: seq<nat>, a: nat, count: nat)
    requires Arranged(w, path, a, count) && IdleWorld(w) && count >= 2 && Run(schema, w, steps).Some?
    requires forall e :: e in Run(schema, w, steps).value.events ==> Quiet(e.m)
    ensures var t := Run(schema, w, steps).value;
      Arranged(t.world, path, a, count) && H.Follows(count, FlowOf(t.world, path, a, count), t.events)
  {
    if steps == [] {
      IdleFlow(w, path, a, count);
      H.NothingYet(count, FlowOf(w, path, a, count));
    } else {
      var before := Run(schema, w, steps[..|steps| - 1]).value;
      var r := Advance(schema, before.world, steps[|steps| - 1]).value;
      assert Run(schema, w, steps).value.events == before.events + Shown(r);
      assert r.event.Some? ==> r.event.value in Shown(r);
      RunFollowed(schema, w, steps[..|steps| - 1], path, a, count);
      StepFollowed(schema, before.world, steps[|steps| - 1], path, a, count, before.events);
    }
  }
}
