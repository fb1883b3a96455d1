// The conductor that holds all proxies of a chain, each in conductors of its own, and how its moves change what
// passes through it.

module CoreMoves {
  import opened Outcomes
  import opened Routing
  import opened ProxyTree
  import opened ProxyTreeMoves
  import opened Rows
  import opened Delays
  import opened OneProxy
  import opened OneProxyMoves
  import H = HarmlessRows

  // ---- The conductor that holds all proxies --------------------------------------------------

  /** Child `a + j` has the chain's proxy `j`: for a proxy between others nothing else, for the first and the last
      no other child on the inner side. */
  predicate CoreKid(n: Node, a: nat, count: nat, j: nat)
    requires n.Nest? && j < count && a + count <= |n.kids|
  {
    Single(H.DirOf(j), n.kids[a + j].node) && (H.Interior(count, j) ==> Pure(n.kids[a + j].node))
  }

  ghost predicate IsCore(n: Node, a: nat, count: nat) {
    && n.Nest? && n.ready && count >= 2 && a + count <= |n.kids|
    && (forall j {:trigger CoreKid(n, a, count, j)} :: 0 <= j < count ==> CoreKid(n, a, count, j))
    && (forall i :: 0 <= i < |n.kids| && !(a <= i < a + count) ==> Leaves(n.kids[i].node) == 0)
  }

  /** What of this sender is in the mailbox. */
  function SentTags(k: nat, mail: seq<Routed>, p: nat): seq<Direction> {
    if mail == [] then [] else (if SenderOf(k, mail[0]) == p then [TagOf(mail[0])] else []) + SentTags(k, mail[1..], p)
  }

  lemma {:induction false} SentMore(k: nat, mail: seq<Routed>, r: Routed, p: nat)
    ensures SentTags(k, mail + [r], p) == SentTags(k, mail, p) + if SenderOf(k, r) == p then [TagOf(r)] else []
  {
    if mail == [] {
      assert [] + [r] == [r] && [r][1..] == [];
      assert SentTags(k, [r], p) == (if SenderOf(k, r) == p then [TagOf(r)] else []) + [];
    } else {
      assert (mail + [r])[1..] == mail[1..] + [r];
      SentMore(k, mail[1..], r, p);
      Regroup(if SenderOf(k, mail[0]) == p then [TagOf(mail[0])] else [], SentTags(k, mail[1..], p),
              if SenderOf(k, r) == p then [TagOf(r)] else []);
    }
  }

  ghost function CoreIn(n: Node, a: nat, count: nat, j: nat): seq<Direction>
    requires IsCore(n, a, count) && j < count
  {
    assert CoreKid(n, a, count, j);
    InKid(H.DirOf(j), n.kids[a + j])
  }

  ghost function CoreOut(n: Node, a: nat, count: nat, j: nat): seq<Direction>
    requires IsCore(n, a, count) && j < count
  {
    assert CoreKid(n, a, count, j);
    SentTags(|n.kids|, n.mailbox, a + j + 1) + OutKid(H.DirOf(j), n.kids[a + j])
  }

  /** What passes through, leaving aside how much is in flight at the ends. */
  ghost function CoreFlow(n: Node, a: nat, count: nat): (f: H.Flow)
    requires IsCore(n, a, count)
    ensures |f.ins| == |f.outs| == count
  {
    H.Flow(seq(count, j requires 0 <= j < count => CoreIn(n, a, count, j)),
           seq(count, j requires 0 <= j < count => CoreOut(n, a, count, j)), 0, 0, 0, 0)
  }

  ghost predicate CoreStep(n: Node, a: nat, count: nat, c: H.Change, n': Node) {
    && IsCore(n, a, count) && IsCore(n', a, count)
    && forall j {:trigger H.FlowAt(count, CoreFlow(n, a, count), c, CoreFlow(n', a, count), j)} :: 0 <= j < count ==>
         H.FlowAt(count, CoreFlow(n, a, count), c, CoreFlow(n', a, count), j)
  }

  lemma Weaker(d: Direction, exact: bool, less: bool, s: seq<Direction>, s': seq<Direction>)
    requires Shifts(d, exact, s, s') && (less ==> exact)
    ensures Shifts(d, less, s, s')
  {
  }

  /** Nothing happens to proxy `j`. */
  lemma Same(n: Node, a: nat, count: nat, c: H.Change, n': Node, j: nat)
    requires IsCore(n, a, count) && IsCore(n', a, count) && j < count
    requires CoreIn(n', a, count, j) == CoreIn(n, a, count, j) && CoreOut(n', a, count, j) == CoreOut(n, a, count, j)
    requires c.Calm? || (c.Acts? && c.e.at != j + 1)
          || (c.Crosses? && c.p != j + 1 && !(HasNext(count + 2, c.p, c.t) && Next(c.p, c.t) == j + 1))
    ensures H.FlowAt(count, CoreFlow(n, a, count), c, CoreFlow(n', a, count), j)
  {
    var d, exact, f, f' := H.DirOf(j), H.Interior(count, j), CoreFlow(n, a, count), CoreFlow(n', a, count);
    assert f.ins[j] == CoreIn(n, a, count, j) && f'.ins[j] == CoreIn(n', a, count, j);
    assert f.outs[j] == CoreOut(n, a, count, j) && f'.outs[j] == CoreOut(n', a, count, j);
    ShiftsNot(d, exact, f.ins[j]);
    ShiftsNot(Opposite(d), exact, f.outs[j]);
    assert f.ins[j] + [] == f.ins[j];
  }

  // ---- Taking, pumping and routing -----------------------------------------------------------

  lemma CoreTakes(n: Node, a: nat, count: nat, g: Give)
    requires IsCore(n, a, count)
    ensures CoreStep(n, a, count, H.Calm, ApplyTake(n, g).node)
  {
    var n', k := ApplyTake(n, g).node, |n.kids|;
    KidsKept(n, a, count, n');
    forall j | 0 <= j < count ensures H.FlowAt(count, CoreFlow(n, a, count), H.Calm, CoreFlow(n', a, count), j) {
      SentMore(k, n.mailbox, EntryOf(g), a + j + 1);
      assert SentTags(k, n.mailbox, a + j + 1) + [] == SentTags(k, n.mailbox, a + j + 1);
      Same(n, a, count, H.Calm, n', j);
    }
  }

  /** The children are the same but for their links. */
  lemma KidsKept(n: Node, a: nat, count: nat, n': Node)
    requires IsCore(n, a, count) && n'.Nest? && n'.ready && |n'.kids| == |n.kids|
    requires forall i :: 0 <= i < |n.kids| ==> n'.kids[i].node == n.kids[i].node
    ensures IsCore(n', a, count)
  {
    forall j | 0 <= j < count ensures CoreKid(n', a, count, j) {
      assert CoreKid(n, a, count, j);
    }
  }

  lemma CorePumps(n: Node, a: nat, count: nat, i: nat)
    requires IsCore(n, a, count) && ApplyPump(n, i).Some?
    ensures CoreStep(n, a, count, H.Calm, Pumped(n, i)) && ApplyPump(n, i) == Some(Outcome(Pumped(n, i), None, None))
  {
    var n', k := Pumped(n, i), |n.kids|;
    KidsKept(n, a, count, n');
    forall j | 0 <= j < count ensures H.FlowAt(count, CoreFlow(n, a, count), H.Calm, CoreFlow(n', a, count), j) {
      PumpsAt(n, a, count, i, n', j);
    }
  }

  lemma PumpsAt(n: Node, a: nat, count: nat, i: nat, n': Node, j: nat)
    requires IsCore(n, a, count) && IsCore(n', a, count) && j < count && i < |n.kids| && n.kids[i].up != []
    requires !IsCall(n.kids[i].up[0], METHOD_INITIALIZE_PROXY) && n' == Pumped(n, i)
    ensures H.FlowAt(count, CoreFlow(n, a, count), H.Calm, CoreFlow(n', a, count), j)
  {
    var d, k, entry := H.DirOf(j), |n.kids|, EntryFor(i, n.kids[i].up[0]);
    assert CoreKid(n, a, count, j) && CoreKid(n', a, count, j);
    SentMore(k, n.mailbox, entry, a + j + 1);
    var held := SentTags(k, n.mailbox, a + j + 1);
    if i == a + j {
      UpLess(n.kids[i].up);
      var rest := Out(d, n.kids[i].node);
      Regroup([TagOf(entry)], TagsUp(n.kids[i].up[1..]), rest);
      Regroup(held, [TagOf(entry)], OutKid(d, n'.kids[i]));
    } else {
      assert held + [] == held;
    }
    Same(n, a, count, H.Calm, n', j);
  }

  /** The change that routing the entry makes: a message of one of the proxies or, from an end, for one of them passes. */
  function RouteChange(k: nat, a: nat, count: nat, r: Routed): H.Change {
    var p, t := SenderOf(k, r), TagOf(r);
    if a < p <= a + count || (p == a && t == Rightward) || (p == a + count + 1 && t == Leftward) then H.Crosses(p - a, t)
    else H.Calm
  }

  /** The entry has gone to child `i`, if there is one, and left the conductor otherwise. */
  ghost predicate RoutedTo(n: Node, n': Node, i: int, w: DownWire)
    requires n.Nest? && n.mailbox != []
  {
    && n'.Nest? && n'.mailbox == n.mailbox[1..] && |n'.kids| == |n.kids| && n'.ready == n.ready
    && (forall x :: 0 <= x < |n.kids| ==> n'.kids[x] == if x == i then n.kids[x].(down := n.kids[x].down + [w]) else n.kids[x])
  }

  /** The child next to the sender, in the direction of the entry. */
  function GoesTo(k: nat, r: Routed): int {
    if r.LeftToRight? then r.target else SourceIndex(k, r.source) - 1
  }

  lemma RoutedWhere(schema: Schema, n: Node) returns (w: DownWire)
    requires n.Nest? && n.mailbox != [] && RouteEntry(schema, n).Some?
    ensures RoutedTo(n, RouteEntry(schema, n).value.node, GoesTo(|n.kids|, n.mailbox[0]), w)
    ensures OffLinkDown(w).dir == TagOf(n.mailbox[0]) && RouteEntry(schema, n).value.event == None
  {
    var o, r := RouteEntry(schema, n).value, n.mailbox[0];
    UnwrapWrap(r.m);
    match r
    case LeftToRight(target, m) => w := if target < |n.kids| then OnLinkDown(schema, m).value else Msg(false, m.body);
    case RightToLeft(source, m) => w := Wrap(m);
  }

  lemma CoreRoutes(schema: Schema, n: Node, a: nat, count: nat)
    requires IsCore(n, a, count) && n.mailbox != [] && RouteEntry(schema, n).Some?
    ensures CoreStep(n, a, count, RouteChange(|n.kids|, a, count, n.mailbox[0]), RouteEntry(schema, n).value.node)
    ensures RouteEntry(schema, n).value.event == None
  {
    var w := RoutedWhere(schema, n);
    var n', c := RouteEntry(schema, n).value.node, RouteChange(|n.kids|, a, count, n.mailbox[0]);
    KidsKept(n, a, count, n');
    forall j | 0 <= j < count ensures H.FlowAt(count, CoreFlow(n, a, count), c, CoreFlow(n', a, count), j) {
      RoutesAt(n, a, count, n', w, j);
    }
  }

  lemma RoutesAt(n: Node, a: nat, count: nat, n': Node, w: DownWire, j: nat)
    requires IsCore(n, a, count) && IsCore(n', a, count) && j < count && n.mailbox != []
    requires RoutedTo(n, n', GoesTo(|n.kids|, n.mailbox[0]), w) && OffLinkDown(w).dir == TagOf(n.mailbox[0])
    ensures H.FlowAt(count, CoreFlow(n, a, count), RouteChange(|n.kids|, a, count, n.mailbox[0]), CoreFlow(n', a, count), j)
  {
    var k, r, f, f' := |n.kids|, n.mailbox[0], CoreFlow(n, a, count), CoreFlow(n', a, count);
    var p, t, i, d := SenderOf(k, r), TagOf(r), a + j, H.DirOf(j);
    assert CoreKid(n, a, count, j) && CoreKid(n', a, count, j);
    var mine := if p == i + 1 then [t] else [];
    Regroup(mine, SentTags(k, n'.mailbox, i + 1), OutKid(d, n.kids[i]));
    assert f.outs[j] == mine + f'.outs[j];
    assert [] + f'.outs[j] == f'.outs[j];
    if i == GoesTo(k, r) {
      DownMore(n.kids[i].down, w);
      Regroup(In(d, n.kids[i].node), TagsDown(n.kids[i].down), [t]);
      assert f'.ins[j] == f.ins[j] + [t];
    } else {
      assert f'.ins[j] == f.ins[j] == f.ins[j] + [];
      if !RouteChange(k, a, count, r).Crosses? {
        Same(n, a, count, H.Calm, n', j);
      }
    }
  }

  // ---- Children that move --------------------------------------------------------------------

  lemma LeavesBeforeCore(n: Node, a: nat, count: nat, j: nat)
    requires IsCore(n, a, count) && j <= count
    ensures LeavesOf(n.kids[..a + j]) == j
    decreases j
  {
    if j == 0 {
      NoLeaves(n.kids[..a]);
    } else {
      LeavesBeforeCore(n, a, count, j - 1);
      assert CoreKid(n, a, count, j - 1);
      OneLeaf(H.DirOf(j - 1), n.kids[a + j - 1].node);
      assert n.kids[..a + j] == n.kids[..a + j - 1] + [n.kids[a + j - 1]];
      LeavesAppend(n.kids[..a + j - 1], [n.kids[a + j - 1]]);
      assert [n.kids[a + j - 1]][1..] == [] && LeavesOf([n.kids[a + j - 1]]) == 1;
    }
  }

  /** The chain's proxy `j` does what the event says, or something of its own conductors moves. */
  function KidChange(j: nat, e: Option<Event>): H.Change {
    match e
    case None => H.Calm
    case Some(Sent(_, d, m)) => H.Acts(Sent(j + 1, d, m))
    case Some(Received(_, d, m)) => H.Acts(Received(j + 1, d, m))
  }

  lemma CoreKidMoves(n: Node, a: nat, count: nat, j: nat, e: Option<Event>, kid': Kid)
    requires IsCore(n, a, count) && j < count && CoreKid(n, a, count, j) && KidStep(H.DirOf(j), n.kids[a + j], e, kid')
    ensures CoreStep(n, a, count, KidChange(j, e), n.(kids := n.kids[a + j := kid']))
  {
    var n' := n.(kids := n.kids[a + j := kid']);
    forall x | 0 <= x < count ensures CoreKid(n', a, count, x) {
      assert CoreKid(n, a, count, x);
    }
    forall x | 0 <= x < count ensures H.FlowAt(count, CoreFlow(n, a, count), KidChange(j, e), CoreFlow(n', a, count), x) {
      assert CoreKid(n, a, count, x) && CoreKid(n', a, count, x);
      if x == j {
        ItsMove(n, a, count, j, e, n');
      } else {
        Same(n, a, count, KidChange(j, e), n', x);
      }
    }
  }

  lemma ItsMove(n: Node, a: nat, count: nat, j: nat, e: Option<Event>, n': Node)
    requires IsCore(n, a, count) && IsCore(n', a, count) && j < count && CoreKid(n, a, count, j)
    requires |n'.kids| == |n.kids| && n'.mailbox == n.mailbox && KidStep(H.DirOf(j), n.kids[a + j], e, n'.kids[a + j])
    ensures H.FlowAt(count, CoreFlow(n, a, count), KidChange(j, e), CoreFlow(n', a, count), j)
  {
    var d, kid, kid', held := H.DirOf(j), n.kids[a + j], n'.kids[a + j], SentTags(|n.kids|, n.mailbox, a + j + 1);
    var f, f', exact, less := CoreFlow(n, a, count), CoreFlow(n', a, count), Pure(kid.node), H.Interior(count, j);
    assert CoreKid(n', a, count, j);
    assert f.ins[j] == InKid(d, kid) && f'.ins[j] == InKid(d, kid');
    assert f.outs[j] == held + OutKid(d, kid) && f'.outs[j] == held + OutKid(d, kid');
    assert InKid(d, kid) + [] == InKid(d, kid) && [] + OutKid(d, kid') == OutKid(d, kid');
    var sent := if e.Some? && e.value.Sent? then [e.value.dir] else [];
    ShiftsBehind(Opposite(d), exact, held, OutKid(d, kid) + sent, OutKid(d, kid'));
    Regroup(held, OutKid(d, kid), sent);
    assert f.outs[j] + [] == f.outs[j];
    Weaker(Opposite(d), exact, less, f.outs[j] + sent, f'.outs[j]);
    if e.Some? && e.value.Received? {
      Weaker(d, exact, less, f.ins[j][1..], f'.ins[j]);
    } else {
      Weaker(d, exact, less, f.ins[j], f'.ins[j]);
    }
  }

  /** A child without proxies moves. */
  lemma CoreOther(n: Node, a: nat, count: nat, i: nat, kid': Kid)
    requires IsCore(n, a, count) && i < |n.kids| && !(a <= i < a + count) && Leaves(kid'.node) == 0
    ensures CoreStep(n, a, count, H.Calm, n.(kids := n.kids[i := kid']))
  {
    var n' := n.(kids := n.kids[i := kid']);
    forall x | 0 <= x < count ensures CoreKid(n', a, count, x) {
      assert CoreKid(n, a, count, x);
    }
    forall x | 0 <= x < count ensures H.FlowAt(count, CoreFlow(n, a, count), H.Calm, CoreFlow(n', a, count), x) {
      Same(n, a, count, H.Calm, n', x);
    }
  }

  lemma CoreFeeds(n: Node, a: nat, count: nat, i: nat) returns (c: H.Change)
    requires IsCore(n, a, count) && ApplyFeed(n, i).Some?
    ensures var o := ApplyFeed(n, i).value;
      CoreStep(n, a, count, c, o.node) && Tells(c, o.event) && !c.Crosses?
  {
    var kid := n.kids[i];
    var taken := ApplyTake(kid.node, OffLinkDown(kid.down[0]));
    if a <= i < a + count {
      var j := i - a;
      assert CoreKid(n, a, count, j);
      KidFeeds(H.DirOf(j), kid);
      c := ProxyStep(n, a, count, j, taken.event, Fed(kid));
    } else {
      TakeRespects(Rightward, kid.node, OffLinkDown(kid.down[0]));
      c := H.Calm;
      CoreOther(n, a, count, i, Fed(kid));
    }
  }

  /** The change is the event seen with the client in front. */
  predicate Tells(c: H.Change, e: Option<Event>) {
    if e.Some? then c == H.Acts(ShiftEvent(e, 1).value) else !c.Acts?
  }

  lemma CoreInside(schema: Schema, n: Node, a: nat, count: nat, i: nat, sub: Move) returns (c: H.Change)
    requires IsCore(n, a, count) && Apply(schema, n, Inside(i, sub)).Some?
    ensures var o := Apply(schema, n, Inside(i, sub)).value;
      CoreStep(n, a, count, c, o.node) && Tells(c, o.event) && !c.Crosses?
  {
    var kid, inner := n.kids[i], Apply(schema, n.kids[i].node, sub).value;
    assert Apply(schema, n, Inside(i, sub)).value
        == Outcome(n.(kids := n.kids[i := Moved(kid, inner)]), ShiftEvent(inner.event, LeavesOf(n.kids[..i])), None);
    if a <= i < a + count {
      c := ProxyInside(schema, n, a, count, i - a, sub, inner);
    } else {
      MoveRespects(Rightward, schema, kid.node, sub);
      c := H.Calm;
      CoreOther(n, a, count, i, Moved(kid, inner));
    }
  }

  lemma ProxyInside(schema: Schema, n: Node, a: nat, count: nat, j: nat, sub: Move, inner: Outcome) returns (c: H.Change)
    requires IsCore(n, a, count) && j < count && !sub.Take? && Apply(schema, n.kids[a + j].node, sub) == Some(inner)
    ensures CoreStep(n, a, count, c, n.(kids := n.kids[a + j := Moved(n.kids[a + j], inner)]))
    ensures Tells(c, ShiftEvent(inner.event, LeavesOf(n.kids[..a + j]))) && !c.Crosses?
  {
    var kid := n.kids[a + j];
    assert CoreKid(n, a, count, j);
    NodeMoves(H.DirOf(j), schema, kid.node, sub);
    KidMoves(H.DirOf(j), kid, inner);
    c := ProxyStep(n, a, count, j, inner.event, Moved(kid, inner));
  }

  lemma ProxyStep(n: Node, a: nat, count: nat, j: nat, e: Option<Event>, kid': Kid) returns (c: H.Change)
    requires IsCore(n, a, count) && j < count && CoreKid(n, a, count, j) && KidStep(H.DirOf(j), n.kids[a + j], e, kid')
    ensures CoreStep(n, a, count, c, n.(kids := n.kids[a + j := kid']))
    ensures Tells(c, ShiftEvent(e, LeavesOf(n.kids[..a + j]))) && !c.Crosses?
  {
    c := KidChange(j, e);
    CoreKidMoves(n, a, count, j, e, kid');
    LeavesBeforeCore(n, a, count, j);
    TellsIt(j, e);
  }

  lemma TellsIt(j: nat, e: Option<Event>)
    requires e.Some? ==> e.value.at == 0
    ensures Tells(KidChange(j, e), ShiftEvent(e, j)) && !KidChange(j, e).Crosses?
  {
  }

  /** Every move of the conductor that holds all proxies changes what passes through as one event, or one message
      passing it, or not at all but for what may fall behind. */
  lemma EveryCoreMove(schema: Schema, n: Node, a: nat, count: nat, mv: Move) returns (c: H.Change)
    requires IsCore(n, a, count) && !mv.Take? && Apply(schema, n, mv).Some?
    ensures var o := Apply(schema, n, mv).value;
      && CoreStep(n, a, count, c, o.node) && Tells(c, o.event)
      && (c.Crosses? ==> HasNext(count + 2, c.p, c.t))
  {
    match mv
    case Pump(i) =>
      CorePumps(n, a, count, i);
      c := H.Calm;
    case Route =>
      CoreRoutes(schema, n, a, count);
      c := RouteChange(|n.kids|, a, count, n.mailbox[0]);
    case Feed(i) => c := CoreFeeds(n, a, count, i);
    case Inside(i, sub) => c := CoreInside(schema, n, a, count, i, sub);
    case _ => c := H.Calm;
  }
}
