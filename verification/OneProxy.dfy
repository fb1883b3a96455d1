// Conductors that hold one proxy, with groups that hold none on one side of it only: what passes through them
// stays in order, except that what comes from, or goes to, that side may fall behind.

module OneProxy {
  import opened Outcomes
  import opened Routing
  import opened GapLists
  import opened ProxyTree
  import opened ProxyTreeMoves
  import opened Rows
  import opened Delays

  // ---- Directions of what waits --------------------------------------------------------------

  function TagsDown(ws: seq<DownWire>): (r: seq<Direction>)
    ensures |r| == |ws|
  {
    seq(|ws|, i requires 0 <= i < |ws| => if IsWrapped(ws[i]) then Leftward else Rightward)
  }

  function TagsUp(ws: seq<Wire>): (r: seq<Direction>)
    ensures |r| == |ws|
  {
    seq(|ws|, i requires 0 <= i < |ws| => if IsWrapped(ws[i]) then Rightward else Leftward)
  }

  lemma {:induction false} DownCount(d: Direction, ws: seq<DownWire>)
    ensures Count(d, TagsDown(ws)) == |InDown(d, ws)|
  {
    if ws != [] {
      assert TagsDown(ws)[1..] == TagsDown(ws[1..]);
      DownCount(d, ws[1..]);
    }
  }

  lemma {:induction false} UpCount(d: Direction, ws: seq<Wire>)
    ensures Count(d, TagsUp(ws)) == |InUp(d, ws)|
  {
    if ws != [] {
      assert TagsUp(ws)[1..] == TagsUp(ws[1..]);
      UpCount(d, ws[1..]);
    }
  }

  lemma DownMore(ws: seq<DownWire>, w: DownWire)
    ensures TagsDown(ws + [w]) == TagsDown(ws) + [OffLinkDown(w).dir]
  {
  }

  lemma DownLess(ws: seq<DownWire>)
    requires ws != []
    ensures TagsDown(ws) == [OffLinkDown(ws[0]).dir] + TagsDown(ws[1..])
  {
  }

  lemma UpMore(ws: seq<Wire>, g: Give)
    ensures TagsUp(ws + [ToLinkUp(g)]) == TagsUp(ws) + [g.dir]
  {
  }

  lemma UpLess(ws: seq<Wire>)
    requires ws != []
    ensures TagsUp(ws) == [if IsWrapped(ws[0]) then Rightward else Leftward] + TagsUp(ws[1..])
  {
  }

  /** The entries of a mailbox that wait at place `p` in direction `d`, or at place `q` in the other. */
  function MailTags(d: Direction, mail: seq<Routed>, k: nat, p: nat, q: nat): seq<Direction> {
    if mail == [] then [] else MailTag(d, mail[0], k, p, q) + MailTags(d, mail[1..], k, p, q)
  }

  function MailTag(d: Direction, r: Routed, k: nat, p: nat, q: nat): seq<Direction> {
    if WaitsAt(d, k, p, r) then [d] else if WaitsAt(Opposite(d), k, q, r) then [Opposite(d)] else []
  }

  lemma {:induction false} MailTagsMore(d: Direction, mail: seq<Routed>, r: Routed, k: nat, p: nat, q: nat)
    ensures MailTags(d, mail + [r], k, p, q) == MailTags(d, mail, k, p, q) + MailTag(d, r, k, p, q)
  {
    if mail == [] {
      assert [] + [r] == [r] && [r][1..] == [];
      assert MailTags(d, [r], k, p, q) == MailTag(d, r, k, p, q) + [];
    } else {
      assert (mail + [r])[1..] == mail[1..] + [r];
      MailTagsMore(d, mail[1..], r, k, p, q);
      var a, b, c := MailTag(d, mail[0], k, p, q), MailTags(d, mail[1..], k, p, q), MailTag(d, r, k, p, q);
      assert a + (b + c) == a + b + c;
    }
  }

  lemma {:induction false} MailCount(d: Direction, mail: seq<Routed>, k: nat, p: nat, q: nat)
    ensures Count(d, MailTags(d, mail, k, p, q)) == |InMail(d, mail, k, p)|
    ensures Count(Opposite(d), MailTags(d, mail, k, p, q)) == |InMail(Opposite(d), mail, k, q)|
  {
    if mail != [] {
      MailCount(d, mail[1..], k, p, q);
      var tag := MailTag(d, mail[0], k, p, q);
      MarksJoin(d, tag, MailTags(d, mail[1..], k, p, q));
      MarksJoin(Opposite(d), tag, MailTags(d, mail[1..], k, p, q));
      OneMark(d, d);
      OneMark(d, Opposite(d));
      OneMark(Opposite(d), d);
      OneMark(Opposite(d), Opposite(d));
    }
  }

  // ---- One proxy -----------------------------------------------------------------------------

  /** The child met last in direction `d`. */
  function LastKid(d: Direction, n: Node): (i: nat)
    requires n.Nest? && n.kids != []
    ensures i < |n.kids|
  {
    Place(d, |n.kids|, |n.kids| - 1)
  }

  /** A proxy, or a conductor whose one proxy is in the child met last in direction `d`, and so on inside that. */
  predicate Single(d: Direction, n: Node) {
    n.Leaf? ||
    (n.ready && n.kids != [] && Single(d, n.kids[LastKid(d, n)].node)
     && forall j :: 0 <= j < |n.kids| && j != LastKid(d, n) ==> Leaves(n.kids[j].node) == 0)
  }

  /** No conductor on the way to the proxy has any other child. */
  predicate Pure(n: Node) {
    n.Leaf? || (n.ready && |n.kids| == 1 && Pure(n.kids[0].node))
  }

  lemma {:induction false} PureIsSingle(d: Direction, n: Node)
    requires Pure(n)
    ensures Single(d, n)
  {
    if n.Nest? {
      PureIsSingle(d, n.kids[0].node);
    }
  }

  lemma {:induction false} OneLeaf(d: Direction, n: Node)
    requires Single(d, n)
    ensures Leaves(n) == 1
  {
    if n.Nest? {
      var i := LastKid(d, n);
      OneLeaf(d, n.kids[i].node);
      NoLeaves(n.kids[..i]);
      NoLeaves(n.kids[i + 1..]);
      LeavesSplit(n.kids, i);
    }
  }

  lemma {:induction false} NoLeaves(kids: seq<Kid>)
    requires forall j :: 0 <= j < |kids| ==> Leaves(kids[j].node) == 0
    ensures LeavesOf(kids) == 0
  {
    if kids != [] {
      NoLeaves(kids[1..]);
    }
  }

  /** What of a mailbox is for the child with the proxy, and what is leaving. */
  function MailIn(d: Direction, mail: seq<Routed>, k: nat): seq<Direction>
    requires k > 0
  {
    MailTags(d, mail, k, k - 1, 0)
  }

  function MailOut(d: Direction, mail: seq<Routed>, k: nat): seq<Direction> {
    MailTags(d, mail, k, k, k)
  }

  /** The directions of all that is on its way in to the proxy, in the order in which it would come if what is
      still among the groups without proxies came next. */
  ghost function In(d: Direction, n: Node): seq<Direction>
    requires Single(d, n)
    decreases n, 6
  {
    SomeIn(d, n);
    var s :| IsIn(d, n, s);
    s
  }

  /** The trigger leaves it to `InIs` to look at the node. */
  ghost predicate IsIn(d: Direction, n: Node, s: seq<Direction>)
    requires Single(d, n)
    decreases n, 4
  {
    forall z {:trigger HasIn(d, n, z)} :: HasIn(d, n, z) <==> z == s
  }

  ghost predicate HasIn(d: Direction, n: Node, s: seq<Direction>)
    requires Single(d, n)
    decreases n, 3
  {
    match n
    case Leaf => s == []
    case Nest(_, _, _) => s == ForKid(d, n) + Repeat(d, Waiting(d, n))
  }

  lemma SomeIn(d: Direction, n: Node)
    requires Single(d, n)
    ensures exists s :: IsIn(d, n, s)
    decreases n, 5
  {
    var s := if n.Leaf? then [] else ForKid(d, n) + Repeat(d, Waiting(d, n));
    forall z ensures HasIn(d, n, z) <==> z == s {
    }
    assert IsIn(d, n, s);
  }

  lemma InIs(d: Direction, n: Node)
    requires Single(d, n)
    ensures In(d, n) == if n.Leaf? then [] else ForKid(d, n) + Repeat(d, Waiting(d, n))
  {
    assert HasIn(d, n, In(d, n));
  }

  /** Of that, what is past those groups. */
  ghost function ForKid(d: Direction, n: Node): seq<Direction>
    requires n.Nest? && Single(d, n)
    decreases n, 0
  {
    InKid(d, n.kids[LastKid(d, n)]) + MailIn(d, n.mailbox, |n.kids|)
  }

  ghost function Waiting(d: Direction, n: Node): nat
    requires n.Nest? && Single(d, n)
    decreases n, 1
  {
    Less(|GapsOf(d, n)[0]|, Count(d, ForKid(d, n)))
  }

  ghost function InKid(d: Direction, kid: Kid): seq<Direction>
    requires Single(d, kid.node)
    decreases kid, 0
  {
    In(d, kid.node) + TagsDown(kid.down)
  }

  /** The directions of all that is on its way out from the proxy. */
  ghost function Out(d: Direction, n: Node): seq<Direction>
    requires Single(d, n)
    decreases n, 6
  {
    SomeOut(d, n);
    var s :| IsOut(d, n, s);
    s
  }

  ghost predicate IsOut(d: Direction, n: Node, s: seq<Direction>)
    requires Single(d, n)
    decreases n, 4
  {
    forall z {:trigger HasOut(d, n, z)} :: HasOut(d, n, z) <==> z == s
  }

  ghost predicate HasOut(d: Direction, n: Node, s: seq<Direction>)
    requires Single(d, n)
    decreases n, 3
  {
    match n
    case Leaf => s == []
    case Nest(_, _, _) => s == Outgoing(d, n)
  }

  ghost function Outgoing(d: Direction, n: Node): seq<Direction>
    requires n.Nest? && Single(d, n)
    decreases n, 2
  {
    MailOut(d, n.mailbox, |n.kids|) + (Repeat(Opposite(d), Leaving(d, n)) + OutKid(d, n.kids[LastKid(d, n)]))
  }

  lemma SomeOut(d: Direction, n: Node)
    requires Single(d, n)
    ensures exists s :: IsOut(d, n, s)
    decreases n, 5
  {
    var s := if n.Leaf? then [] else Outgoing(d, n);
    forall z ensures HasOut(d, n, z) <==> z == s {
    }
    assert IsOut(d, n, s);
  }

  lemma OutIs(d: Direction, n: Node)
    requires Single(d, n)
    ensures Out(d, n) == if n.Leaf? then [] else Outgoing(d, n)
  {
    assert HasOut(d, n, Out(d, n));
  }

  ghost function Leaving(d: Direction, n: Node): nat
    requires n.Nest? && Single(d, n)
    decreases n, 1
  {
    var g := GapsOf(Opposite(d), n);
    Less(|g[|g| - 1]|, OutCount(d, n))
  }

  /** How much travels the other way that is past the groups without proxies or not yet among them. */
  ghost function OutCount(d: Direction, n: Node): nat
    requires n.Nest? && Single(d, n)
    decreases n, 0
  {
    Count(Opposite(d), MailOut(d, n.mailbox, |n.kids|)) + Count(Opposite(d), OutKid(d, n.kids[LastKid(d, n)]))
  }

  ghost function OutKid(d: Direction, kid: Kid): seq<Direction>
    requires Single(d, kid.node)
    decreases kid, 0
  {
    TagsUp(kid.up) + Out(d, kid.node)
  }

  // ---- How much is on its way ----------------------------------------------------------------

  lemma {:induction false} FirstGap(mails: seq<seq<Traffic>>, stages: seq<Stage<Traffic>>)
    requires |mails| == |stages| + 1 && stages != []
    requires |stages[|stages| - 1].inside| == 2
    requires forall p :: 0 <= p < |stages| - 1 ==> |stages[p].inside| == 1
    ensures var k, first := |stages|, |mails[|stages| - 1]| + |StageGaps(stages[|stages| - 1])[0]|;
      |Line(mails, stages)[0]| >= first && (k == 1 ==> |Line(mails, stages)[0]| == first)
  {
    if |stages| > 1 {
      var ms, ss := mails[1..], stages[1..];
      assert forall p :: 0 <= p < |ss| - 1 ==> ss[p] == stages[p + 1];
      FirstGap(ms, ss);
    }
  }

  lemma {:induction false} LastMail(mails: seq<seq<Traffic>>, stages: seq<Stage<Traffic>>)
    requires |mails| == |stages| + 1
    requires forall p :: 0 <= p < |stages| ==> |stages[p].inside| == 1
    ensures |Line(mails, stages)| == 1 && |Line(mails, stages)[0]| >= |mails[|stages|]|
    ensures stages == [] ==> Line(mails, stages) == [mails[0]]
  {
    if stages != [] {
      var ms, ss := mails[1..], stages[1..];
      assert forall p :: 0 <= p < |ss| ==> ss[p] == stages[p + 1];
      LastMail(ms, ss);
    }
  }

  lemma LastGap(mails: seq<seq<Traffic>>, stages: seq<Stage<Traffic>>)
    requires |mails| == |stages| + 1 && stages != []
    requires |stages[0].inside| == 2
    requires forall p :: 0 < p < |stages| ==> |stages[p].inside| == 1
    ensures var k, last := |stages|, |mails[|stages|]| + |StageGaps(stages[0])[1]|;
      && |Line(mails, stages)| == 2
      && |Line(mails, stages)[1]| >= last && (k == 1 ==> |Line(mails, stages)[1]| == last)
  {
    RestOfLine(mails, stages);
    var tail := Line(mails[1..], stages[1..]);
    BehindTwo([mails[0]], StageGaps(stages[0]), tail);
  }

  lemma RestOfLine(mails: seq<seq<Traffic>>, stages: seq<Stage<Traffic>>)
    requires |mails| == |stages| + 1 && stages != []
    requires forall p :: 0 < p < |stages| ==> |stages[p].inside| == 1
    ensures var tail := Line(mails[1..], stages[1..]);
      && |tail| == 1 && |tail[0]| >= |mails[|stages|]| && (|stages| == 1 ==> |tail[0]| == |mails[|stages|]|)
  {
    var ms, ss := mails[1..], stages[1..];
    assert forall p :: 0 <= p < |ss| ==> ss[p] == stages[p + 1];
    LastMail(ms, ss);
  }

  lemma BehindTwo(a: Gaps<Traffic>, g: Gaps<Traffic>, z: Gaps<Traffic>)
    requires |a| == 1 && |g| == 2 && |z| == 1
    ensures var whole := Join(Join(a, g), z); |whole| == 2 && |whole[1]| == |z[0]| + |g[1]|
  {
    assert Join(a, g)[1] == g[1];
  }

  lemma TwoGaps(s: Stage<Traffic>)
    requires |s.inside| == 2
    ensures |StageGaps(s)[0]| == |s.down| + |s.inside[0]| && |StageGaps(s)[1]| == |s.up| + |s.inside[1]|
  {
  }

  /** The stages of a conductor with one proxy: the proxy is in the last one in direction `d`, the first in the other. */
  lemma SingleStages(d: Direction, n: Node)
    requires n.Nest? && Single(d, n)
    ensures var k, kid, there, back := |n.kids|, n.kids[LastKid(d, n)], StagesOf(d, n.kids), StagesOf(Opposite(d), n.kids);
      && there[k - 1] == StageOf(d, kid) && back[0] == StageOf(Opposite(d), kid)
      && |there[k - 1].inside| == 2 && |back[0].inside| == 2
      && (forall p :: 0 <= p < k - 1 ==> |there[p].inside| == 1)
      && (forall p :: 0 < p < k ==> |back[p].inside| == 1)
  {
    var k, kid := |n.kids|, n.kids[LastKid(d, n)];
    OneLeaf(d, kid.node);
    GapCount(d, kid.node);
    GapCount(Opposite(d), kid.node);
    forall p | 0 <= p < k - 1 ensures |StagesOf(d, n.kids)[p].inside| == 1 {
      GapCount(d, n.kids[Place(d, k, p)].node);
    }
    forall p | 0 < p < k ensures |StagesOf(Opposite(d), n.kids)[p].inside| == 1 {
      GapCount(Opposite(d), n.kids[Place(Opposite(d), k, p)].node);
    }
  }

  /** Nothing but what is among the groups without proxies comes on top of what is past them. */
  lemma {:induction false} InTotal(d: Direction, n: Node)
    requires Single(d, n)
    ensures Count(d, In(d, n)) == |GapsOf(d, n)[0]|
    ensures n.Nest? ==> Count(d, ForKid(d, n)) <= |GapsOf(d, n)[0]|
    ensures n.Nest? && |n.kids| == 1 ==> Waiting(d, n) == 0
  {
    InIs(d, n);
    if n.Nest? {
      InTotal(d, n.kids[LastKid(d, n)].node);
      InBound(d, n);
      MarksRepeat(d, d, Waiting(d, n));
      MarksJoin(d, ForKid(d, n), Repeat(d, Waiting(d, n)));
    }
  }

  lemma InBound(d: Direction, n: Node)
    requires n.Nest? && Single(d, n)
    requires var node := n.kids[LastKid(d, n)].node; Count(d, In(d, node)) == |GapsOf(d, node)[0]|
    ensures Count(d, ForKid(d, n)) <= |GapsOf(d, n)[0]|
    ensures |n.kids| == 1 ==> Count(d, ForKid(d, n)) == |GapsOf(d, n)[0]|
  {
    var k, kid := |n.kids|, n.kids[LastKid(d, n)];
    InGap(d, n);
    KidCount(d, kid);
    MailCount(d, n.mailbox, k, k - 1, 0);
    MarksJoin(d, InKid(d, kid), MailIn(d, n.mailbox, k));
  }

  lemma KidCount(d: Direction, kid: Kid)
    requires Single(d, kid.node) && Count(d, In(d, kid.node)) == |GapsOf(d, kid.node)[0]|
    ensures Count(d, InKid(d, kid)) == |InDown(d, kid.down)| + |GapsOf(d, kid.node)[0]|
  {
    DownCount(d, kid.down);
    MarksJoin(d, In(d, kid.node), TagsDown(kid.down));
  }

  lemma InGap(d: Direction, n: Node)
    requires n.Nest? && Single(d, n)
    ensures var k, kid := |n.kids|, n.kids[LastKid(d, n)];
      var past := |InMail(d, n.mailbox, k, k - 1)| + |InDown(d, kid.down)| + |GapsOf(d, kid.node)[0]|;
      past <= |GapsOf(d, n)[0]| && (k == 1 ==> past == |GapsOf(d, n)[0]|)
  {
    SingleStages(d, n);
    FirstGap(Mails(d, n.mailbox, |n.kids|), StagesOf(d, n.kids));
    TwoGaps(StageOf(d, n.kids[LastKid(d, n)]));
  }

  lemma {:induction false} OutTotal(d: Direction, n: Node)
    requires Single(d, n)
    ensures |GapsOf(Opposite(d), n)| == 2 && Count(Opposite(d), Out(d, n)) == |GapsOf(Opposite(d), n)[1]|
    ensures n.Nest? ==> OutCount(d, n) <= |GapsOf(Opposite(d), n)[1]|
    ensures n.Nest? && |n.kids| == 1 ==> Leaving(d, n) == 0
  {
    OutIs(d, n);
    if n.Nest? {
      var opp, k, kid := Opposite(d), |n.kids|, n.kids[LastKid(d, n)];
      OutTotal(d, kid.node);
      OutBound(d, n);
      ThreeCounts(opp, MailOut(d, n.mailbox, k), Leaving(d, n), OutKid(d, kid));
    }
  }

  lemma ThreeCounts(e: Direction, m: seq<Direction>, v: nat, y: seq<Direction>)
    ensures Count(e, m + (Repeat(e, v) + y)) == Count(e, m) + v + Count(e, y)
  {
    MarksRepeat(e, e, v);
    MarksJoin(e, Repeat(e, v), y);
    MarksJoin(e, m, Repeat(e, v) + y);
  }

  lemma OutBound(d: Direction, n: Node)
    requires n.Nest? && Single(d, n)
    requires var node, opp := n.kids[LastKid(d, n)].node, Opposite(d);
      |GapsOf(opp, node)| == 2 && Count(opp, Out(d, node)) == |GapsOf(opp, node)[1]|
    ensures |GapsOf(Opposite(d), n)| == 2 && OutCount(d, n) <= |GapsOf(Opposite(d), n)[1]|
    ensures |n.kids| == 1 ==> OutCount(d, n) == |GapsOf(Opposite(d), n)[1]|
  {
    var opp, k, kid := Opposite(d), |n.kids|, n.kids[LastKid(d, n)];
    SingleStages(d, n);
    LastGap(Mails(opp, n.mailbox, k), StagesOf(opp, n.kids));
    TwoGaps(StageOf(opp, kid));
    UpCount(opp, kid.up);
    MarksJoin(opp, TagsUp(kid.up), Out(d, kid.node));
    MailCount(d, n.mailbox, k, k, k);
  }

  // ---- The parts of what passes --------------------------------------------------------------

  /** How much is on its way in from the one side, and out to it. */
  ghost function Ahead(d: Direction, n: Node): nat {
    SomeAhead(d, n);
    var k :| AheadIs(d, n, k);
    k
  }

  lemma SomeAhead(d: Direction, n: Node)
    ensures exists k :: AheadIs(d, n, k)
  {
    forall z: nat ensures HasAhead(d, n, z) <==> z == |GapsOf(d, n)[0]| {
    }
    assert AheadIs(d, n, |GapsOf(d, n)[0]|);
  }

  lemma AheadOf(d: Direction, n: Node)
    ensures Ahead(d, n) == |GapsOf(d, n)[0]|
  {
    assert HasAhead(d, n, Ahead(d, n));
  }

  ghost predicate AheadIs(d: Direction, n: Node, k: nat) {
    forall z: nat {:trigger HasAhead(d, n, z)} :: HasAhead(d, n, z) <==> z == k
  }

  predicate HasAhead(d: Direction, n: Node, k: nat) { |GapsOf(d, n)[0]| == k }

  ghost function Behind(d: Direction, n: Node): nat {
    SomeBehind(d, n);
    var k :| BehindIs(d, n, k);
    k
  }

  function LastSize(g: Gaps<Traffic>): nat { |g[|g| - 1]| }

  lemma SomeBehind(d: Direction, n: Node)
    ensures exists k :: BehindIs(d, n, k)
  {
    forall z: nat ensures HasBehind(d, n, z) <==> z == LastSize(GapsOf(Opposite(d), n)) {
    }
    assert BehindIs(d, n, LastSize(GapsOf(Opposite(d), n)));
  }

  lemma BehindOf(d: Direction, n: Node)
    ensures Behind(d, n) == LastSize(GapsOf(Opposite(d), n))
  {
    assert HasBehind(d, n, Behind(d, n));
  }

  ghost predicate BehindIs(d: Direction, n: Node, k: nat) {
    forall z: nat {:trigger HasBehind(d, n, z)} :: HasBehind(d, n, z) <==> z == k
  }

  predicate HasBehind(d: Direction, n: Node, k: nat) { LastSize(GapsOf(Opposite(d), n)) == k }

  /** What is on its way in is what is on the child's links, what is for it in the mailbox, and `u` more. */
  lemma InParts(d: Direction, n: Node) returns (u: nat)
    requires n.Nest? && Single(d, n)
    ensures In(d, n) == InKid(d, n.kids[LastKid(d, n)]) + MailIn(d, n.mailbox, |n.kids|) + Repeat(d, u)
    ensures Ahead(d, n) == Count(d, InKid(d, n.kids[LastKid(d, n)])) + Count(d, MailIn(d, n.mailbox, |n.kids|)) + u
    ensures |n.kids| == 1 ==> u == 0
  {
    u := Waiting(d, n);
    InIs(d, n);
    AheadOf(d, n);
    InTotal(d, n);
    MarksJoin(d, InKid(d, n.kids[LastKid(d, n)]), MailIn(d, n.mailbox, |n.kids|));
  }

  lemma OutParts(d: Direction, n: Node) returns (v: nat)
    requires n.Nest? && Single(d, n)
    ensures Out(d, n) == MailOut(d, n.mailbox, |n.kids|) + (Repeat(Opposite(d), v) + OutKid(d, n.kids[LastKid(d, n)]))
    ensures Behind(d, n)
         == Count(Opposite(d), MailOut(d, n.mailbox, |n.kids|)) + Count(Opposite(d), OutKid(d, n.kids[LastKid(d, n)])) + v
    ensures |n.kids| == 1 ==> v == 0
  {
    v := Leaving(d, n);
    OutIs(d, n);
    BehindOf(d, n);
    OutTotal(d, n);
  }

  /** A proxy by itself has nothing on its way. */
  lemma LeafParts(d: Direction)
    ensures In(d, Leaf) == [] && Out(d, Leaf) == []
  {
    InIs(d, Leaf);
    OutIs(d, Leaf);
  }
}
