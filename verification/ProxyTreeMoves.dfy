// Every move of a tree of conductors respects the order of the messages in flight.

module ProxyTreeMoves {
  import opened Outcomes
  import opened Messages
  import opened Envelope
  import opened Routing
  import opened GapLists
  import opened ProxyTree

  // ---- How the buffers change ----------------------------------------------------------------

  lemma {:induction false} PlainAppend(ws: seq<Wire>, w: Wire)
    ensures Plain(ws + [w]) == if IsWrapped(w) then Plain(ws) else Plain(ws) + [Erase(FromProxyForm(w))]
  {
    if ws != [] {
      assert (ws + [w])[1..] == ws[1..] + [w];
      PlainAppend(ws[1..], w);
    }
  }

  lemma {:induction false} WrappedAppend(ws: seq<Wire>, w: Wire)
    ensures Wrapped(ws + [w]) == if IsWrapped(w) then Wrapped(ws) + [Erase(Inner(w))] else Wrapped(ws)
  {
    if ws != [] {
      assert (ws + [w])[1..] == ws[1..] + [w];
      WrappedAppend(ws[1..], w);
    }
  }

  lemma {:induction false} MailAppend(dir: Direction, mail: seq<Routed>, r: Routed, k: nat, p: nat)
    ensures InMail(dir, mail + [r], k, p)
         == if WaitsAt(dir, k, p, r) then InMail(dir, mail, k, p) + [Erase(r.m)] else InMail(dir, mail, k, p)
  {
    if mail != [] {
      assert (mail + [r])[1..] == mail[1..] + [r];
      MailAppend(dir, mail[1..], r, k, p);
    }
  }

  lemma ErasedAppend(ms: seq<Traffic>, m: Traffic)
    ensures Erased(ms + [m]) == Erased(ms) + [Erase(m)]
  {
  }

  lemma ErasedRest(ms: seq<Traffic>)
    requires ms != []
    ensures Erased(ms)[0] == Erase(ms[0]) && Erased(ms[1..]) == Erased(ms)[1..]
  {
  }

  lemma {:induction false} LeavesAppend(a: seq<Kid>, b: seq<Kid>)
    ensures LeavesOf(a + b) == LeavesOf(a) + LeavesOf(b)
  {
    if a == [] {
      assert a + b == b;
    } else {
      assert (a + b)[1..] == a[1..] + b;
      LeavesAppend(a[1..], b);
    }
  }

  lemma {:induction false} LeavesSplit(kids: seq<Kid>, i: nat)
    requires i < |kids|
    ensures LeavesOf(kids) == LeavesOf(kids[..i]) + Leaves(kids[i].node) + LeavesOf(kids[i + 1..])
  {
    assert kids == kids[..i] + kids[i..];
    LeavesAppend(kids[..i], kids[i..]);
  }

  /** The number of leaves met before travel place `p`. */
  function LeavesBefore(dir: Direction, kids: seq<Kid>, p: nat): nat
    requires p <= |kids|
  {
    if dir == Rightward then LeavesOf(kids[..p]) else LeavesOf(kids[|kids| - p..])
  }

  lemma {:induction false} LeavesBeforeNext(dir: Direction, kids: seq<Kid>, p: nat)
    requires p < |kids|
    ensures LeavesBefore(dir, kids, p + 1)
         == LeavesBefore(dir, kids, p) + Leaves(kids[Place(dir, |kids|, p)].node)
  {
    if dir == Rightward {
      assert kids[..p + 1] == kids[..p] + [kids[p]];
      LeavesAppend(kids[..p], [kids[p]]);
    } else {
      var q := |kids| - p;
      assert kids[q - 1..][1..] == kids[q..];
    }
  }

  lemma {:induction false} LeavesBeforeAll(dir: Direction, kids: seq<Kid>)
    ensures LeavesBefore(dir, kids, |kids|) == LeavesOf(kids)
  {
    assert kids[..|kids|] == kids && kids[|kids| - |kids|..] == kids;
  }

  /** A node has one gap more than it has leaves. */
  lemma {:induction false} GapCount(dir: Direction, n: Node)
    ensures |GapsOf(dir, n)| == Leaves(n) + 1
    decreases n, |if n.Nest? then n.kids else []| + 1
  {
    if n.Nest? {
      GapsBefore(dir, n, |n.kids|);
      LeavesBeforeAll(dir, n.kids);
      LineLength(Mails(dir, n.mailbox, |n.kids|), StagesOf(dir, n.kids));
    }
  }

  /** One gap begins before a child for every leaf passed on the way to it. */
  lemma {:induction false} GapsBefore(dir: Direction, n: Node, p: nat)
    requires n.Nest? && p <= |n.kids|
    ensures Offset(StagesOf(dir, n.kids), p) == LeavesBefore(dir, n.kids, p)
    decreases n, p
  {
    if p > 0 {
      GapsBefore(dir, n, p - 1);
      GapCount(dir, n.kids[Place(dir, |n.kids|, p - 1)].node);
      OffsetNext(StagesOf(dir, n.kids), p - 1);
      LeavesBeforeNext(dir, n.kids, p - 1);
    }
  }

  // ---- How mailbox and children change -------------------------------------------------------

  /** A new entry shows at the place it waits at, if it travels in this direction at all. */
  lemma {:induction false} EntryAdded(dir: Direction, mailbox: seq<Routed>, k: nat, entry: Routed, p: nat)
    requires p <= k && WaitsAt(dir, k, p, entry)
    ensures var mails := Mails(dir, mailbox, k);
            Mails(dir, mailbox + [entry], k) == mails[p := mails[p] + [Erase(entry.m)]]
  {
    forall q | 0 <= q <= k
      ensures InMail(dir, mailbox + [entry], k, q)
           == if q == p then InMail(dir, mailbox, k, q) + [Erase(entry.m)] else InMail(dir, mailbox, k, q)
    {
      MailAppend(dir, mailbox, entry, k, q);
    }
  }

  lemma {:induction false} EntryAddedElsewhere(dir: Direction, mailbox: seq<Routed>, k: nat, entry: Routed)
    requires entry.LeftToRight? <==> dir != Rightward
    ensures Mails(dir, mailbox + [entry], k) == Mails(dir, mailbox, k)
  {
    forall q | 0 <= q <= k ensures InMail(dir, mailbox + [entry], k, q) == InMail(dir, mailbox, k, q) {
      MailAppend(dir, mailbox, entry, k, q);
    }
  }

  lemma {:induction false} EntryDropped(dir: Direction, mailbox: seq<Routed>, k: nat, p: nat)
    requires p <= k && mailbox != [] && WaitsAt(dir, k, p, mailbox[0])
    ensures var rest := InMail(dir, mailbox[1..], k, p);
      && Mails(dir, mailbox, k)[p] == [Erase(mailbox[0].m)] + rest
      && Mails(dir, mailbox[1..], k) == Mails(dir, mailbox, k)[p := rest]
  {
    forall q | 0 <= q <= k && q != p ensures InMail(dir, mailbox, k, q) == InMail(dir, mailbox[1..], k, q) {
    }
  }

  lemma {:induction false} EntryDroppedElsewhere(dir: Direction, mailbox: seq<Routed>, k: nat)
    requires mailbox != [] && (mailbox[0].LeftToRight? <==> dir != Rightward)
    ensures Mails(dir, mailbox[1..], k) == Mails(dir, mailbox, k)
  {
    forall q | 0 <= q <= k ensures InMail(dir, mailbox, k, q) == InMail(dir, mailbox[1..], k, q) {
    }
  }

  /** The travel place of child `i`. */
  function PlaceOf(dir: Direction, k: nat, i: nat): (p: nat)
    requires i < k
    ensures p < k && Place(dir, k, p) == i
  {
    if dir == Rightward then i else k - 1 - i
  }

  lemma {:induction false} KidReplaced(dir: Direction, kids: seq<Kid>, i: nat, kid: Kid)
    requires i < |kids|
    ensures var p := PlaceOf(dir, |kids|, i);
      && StagesOf(dir, kids)[p] == StageOf(dir, kids[i])
      && StagesOf(dir, kids[i := kid]) == StagesOf(dir, kids)[p := StageOf(dir, kid)]
    ensures Leaves(kid.node) == Leaves(kids[i].node) ==> LeavesOf(kids[i := kid]) == LeavesOf(kids)
  {
    LeavesSplit(kids, i);
    LeavesSplit(kids[i := kid], i);
    assert kids[i := kid][..i] == kids[..i] && kids[i := kid][i + 1..] == kids[i + 1..];
  }

  lemma {:induction false} SameUpdate<T>(s: seq<T>, j: nat, x: T)
    requires j < |s| && s[j] == x
    ensures s[j := x] == s
  {
  }

  // ---- Every move respects the gaps ----------------------------------------------------------

  /** A leaf's place in the direction of travel. */
  function Travel(dir: Direction, leaves: nat, at: nat): nat
    requires at < leaves
  {
    if dir == Rightward then at else leaves - 1 - at
  }

  /** What an event does to the gaps in direction `dir` of a node with so many leaves. */
  function ChangeOf(dir: Direction, leaves: nat, e: Option<Event>): Change<Traffic>
    requires e.Some? ==> e.value.at < leaves
  {
    match e
    case Some(Sent(at, d, m)) => if d == dir then Sends(Travel(dir, leaves, at) + 1, Erase(m)) else NoChange
    case Some(Received(at, d, m)) => if d == dir then Takes(Travel(dir, leaves, at), Erase(m)) else NoChange
    case None => NoChange
  }

  function Taking(dir: Direction, g: Gaps<Traffic>, take: Option<Give>): (r: Gaps<Traffic>)
    ensures |r| == |g|
  {
    if take.Some? && take.value.dir == dir then Append(g, 0, Erase(take.value.m)) else g
  }

  /** The gaps change only as follows: a taken message enters behind all others, the event happens,
      and a given message leaves as the oldest of the last gap. */
  ghost predicate Respects(dir: Direction, n: Node, take: Option<Give>, o: Outcome) {
    var leaves, before, after := Leaves(n), GapsOf(dir, n), GapsOf(dir, o.node);
    var taken := Taking(dir, before, take);
    && |before| == |after| == leaves + 1
    && Leaves(o.node) == leaves
    && (o.event.Some? ==> o.event.value.at < leaves)
    && Possible(taken, ChangeOf(dir, leaves, o.event))
    && var changed := After(taken, ChangeOf(dir, leaves, o.event));
       if o.gives.Some? && o.gives.value.dir == dir then
         AtHead(changed, leaves, Erase(o.gives.value.m)) && after == Pop(changed, leaves)
       else
         after == changed
  }

  lemma {:induction false} TakeRespects(dir: Direction, n: Node, g: Give)
    ensures Respects(dir, n, Some(g), ApplyTake(n, g))
  {
    GapCount(dir, n);
    GapCount(dir, ApplyTake(n, g).node);
    if n.Leaf? {
      LeafTakes(Erase(g.m));
    } else {
      var entry := if g.dir == Rightward then LeftToRight(0, g.m) else RightToLeft(FromSuccessor, g.m);
      if g.dir == dir {
        EntryAdded(dir, n.mailbox, |n.kids|, entry, 0);
        LineTake(Mails(dir, n.mailbox, |n.kids|), StagesOf(dir, n.kids), Erase(g.m));
      } else {
        EntryAddedElsewhere(dir, n.mailbox, |n.kids|, entry);
      }
    }
  }

  /** A message that a leaf takes, or sends, passes through the leaf's own gaps at once. */
  lemma LeafTakes(m: Traffic)
    ensures var taken: Gaps<Traffic> := Append([[], []], 0, m);
            Possible(taken, Takes(0, m)) && After(taken, Takes(0, m)) == [[], []]
  {
    assert [] + [m] == [m] && [m][1..] == [];
  }

  lemma LeafGives(m: Traffic)
    ensures var g: Gaps<Traffic> := [[], []];
      && Possible(g, Sends(1, m))
      && AtHead(After(g, Sends(1, m)), 1, m) && Pop(After(g, Sends(1, m)), 1) == [[], []]
  {
    assert [] + [m] == [m] && [m][1..] == [];
  }

  // ---- Pumping and routing -------------------------------------------------------------------

  /** The mailbox entry for message `w` from child `i`. */
  function EntryFor(i: nat, w: Wire): Routed
    requires !IsCall(w, METHOD_INITIALIZE_PROXY)
  {
    if IsWrapped(w) then LeftToRight(i + 1, Inner(w)) else RightToLeft(FromProxy(i), w)
  }

  /** The place a mailbox entry comes from, counting the children from 1 and what is outside as their neighbours. */
  function SenderOf(k: nat, r: Routed): nat {
    if r.LeftToRight? then r.target else SourceIndex(k, r.source) + 1
  }

  lemma {:induction false} PumpRespects(dir: Direction, n: Node, i: nat)
    requires n.Nest? && ApplyPump(n, i).Some?
    ensures Respects(dir, n, None, ApplyPump(n, i).value)
  {
    var o, k, up := ApplyPump(n, i).value, |n.kids|, n.kids[i].up;
    var entry, kid, p := EntryFor(i, up[0]), n.kids[i].(up := up[1..]), PlaceOf(dir, |n.kids|, i);
    var mails, stages := Mails(dir, n.mailbox, k), StagesOf(dir, n.kids);
    GapCount(dir, n);
    GapCount(dir, o.node);
    KidReplaced(dir, n.kids, i, kid);
    if IsWrapped(up[0]) <==> dir == Rightward {
      EntryAdded(dir, n.mailbox, k, entry, p + 1);
      LinePump(mails, stages, p, Erase(entry.m), InUp(dir, up[1..]));
    } else {
      EntryAddedElsewhere(dir, n.mailbox, k, entry);
      assert InUp(dir, up[1..]) == InUp(dir, up);
      SameUpdate(stages, p, StageOf(dir, kid));
    }
  }

  lemma {:induction false} DeliverRespects(dir: Direction, n: Node, i: nat, w: DownWire)
    requires n.Nest? && n.mailbox != [] && i < |n.kids|
    requires var d := if n.mailbox[0].LeftToRight? then Rightward else Leftward;
      && WaitsAt(d, |n.kids|, PlaceOf(d, |n.kids|, i), n.mailbox[0])
      && OffLinkDown(w).dir == d && Erase(OffLinkDown(w).m) == Erase(n.mailbox[0].m)
    ensures Respects(dir, n, None, Outcome(PushDown(n.(mailbox := n.mailbox[1..]), i, w), None, None))
  {
    var n', k, m := PushDown(n.(mailbox := n.mailbox[1..]), i, w), |n.kids|, Erase(n.mailbox[0].m);
    var p, stages := PlaceOf(dir, k, i), StagesOf(dir, n.kids);
    GapCount(dir, n);
    GapCount(dir, n');
    KidReplaced(dir, n.kids, i, n'.kids[i]);
    PlainAppend(n.kids[i].down, w);
    WrappedAppend(n.kids[i].down, w);
    if n.mailbox[0].LeftToRight? <==> dir == Rightward {
      EntryDropped(dir, n.mailbox, k, p);
      LineRoute(Mails(dir, n.mailbox, k), stages, p, m, InMail(dir, n.mailbox[1..], k, p));
    } else {
      EntryDroppedElsewhere(dir, n.mailbox, k);
      SameUpdate(stages, p, StageOf(dir, n'.kids[i]));
    }
  }

  /** At either end of the chain the oldest entry leaves the node. */
  lemma {:induction false} GiveRespects(dir: Direction, n: Node, g: Give)
    requires n.Nest? && n.mailbox != []
    requires g.m == n.mailbox[0].m && WaitsAt(g.dir, |n.kids|, |n.kids|, n.mailbox[0])
    ensures Respects(dir, n, None, Outcome(n.(mailbox := n.mailbox[1..]), None, Some(g)))
  {
    GapCount(dir, n);
    GapCount(dir, n.(mailbox := n.mailbox[1..]));
    if g.dir == dir {
      GiveGaps(dir, n, g);
    } else {
      EntryDroppedElsewhere(dir, n.mailbox, |n.kids|);
    }
  }

  lemma {:induction false} GiveGaps(dir: Direction, n: Node, g: Give)
    requires n.Nest? && n.mailbox != [] && g.dir == dir
    requires g.m == n.mailbox[0].m && WaitsAt(g.dir, |n.kids|, |n.kids|, n.mailbox[0])
    ensures var gaps := GapsOf(dir, n);
      && AtHead(gaps, |gaps| - 1, Erase(g.m))
      && GapsOf(dir, n.(mailbox := n.mailbox[1..])) == Pop(gaps, |gaps| - 1)
  {
    var k := |n.kids|;
    var rest := InMail(dir, n.mailbox[1..], k, k);
    EntryDropped(dir, n.mailbox, k, k);
    LineGive(Mails(dir, n.mailbox, k), StagesOf(dir, n.kids), Erase(g.m), rest);
  }

  lemma {:induction false} RouteRespects(dir: Direction, schema: Schema, n: Node)
    requires n.Nest? && n.mailbox != [] && RouteEntry(schema, n).Some?
    ensures Respects(dir, n, None, RouteEntry(schema, n).value)
  {
    match n.mailbox[0] {
      case LeftToRight(target, m) =>
        if target < |n.kids| {
          DeliverRespects(dir, n, target, OnLinkDown(schema, m).value);
        } else {
          GiveRespects(dir, n, Give(Rightward, m));
        }
      case RightToLeft(source, m) =>
        var index := SourceIndex(|n.kids|, source);
        if index == 0 {
          GiveRespects(dir, n, Give(Leftward, m));
        } else {
          UnwrapWrap(m);
          DeliverRespects(dir, n, index - 1, Wrap(m));
        }
    }
  }

  /** What is in flight does not depend on the parameters of a handshake, nor on a conductor's being ready. */
  lemma {:induction false} BegunGaps(dir: Direction, n: Node, params: Json)
    requires n.Nest? && n.mailbox != [] && IsCall(n.mailbox[0].m, METHOD_INITIALIZE)
    ensures GapsOf(dir, Begun(n, params)) == GapsOf(dir, n) && Leaves(Begun(n, params)) == Leaves(n)
  {
    var mail, k := Begun(n, params).mailbox, |n.kids|;
    assert mail[1..] == n.mailbox[1..];
    forall p | 0 <= p <= k ensures InMail(dir, mail, k, p) == InMail(dir, n.mailbox, k, p) {
      assert WaitsAt(dir, k, p, mail[0]) <==> WaitsAt(dir, k, p, n.mailbox[0]);
    }
    assert Mails(dir, mail, k) == Mails(dir, n.mailbox, k);
  }

  lemma {:induction false} BeginRespects(dir: Direction, schema: Schema, n: Node, params: Json)
    requires n.Nest? && ApplyBegin(schema, n, params).Some?
    ensures Respects(dir, n, None, ApplyBegin(schema, n, params).value)
  {
    BegunGaps(dir, n, params);
    RouteRespects(dir, schema, Begun(n, params));
  }

  // ---- Children that move --------------------------------------------------------------------

  /** An event of child `i`, seen from its conductor, is the child's own change shifted past the gaps before it. */
  lemma {:induction false} EventShifts(dir: Direction, kids: seq<Kid>, i: nat, e: Option<Event>)
    requires i < |kids| && (e.Some? ==> e.value.at < Leaves(kids[i].node))
    ensures var e' := ShiftEvent(e, LeavesOf(kids[..i]));
      && (e'.Some? ==> e'.value.at < LeavesOf(kids))
      && ChangeOf(dir, LeavesOf(kids), e')
         == Shift(ChangeOf(dir, Leaves(kids[i].node), e), LeavesBefore(dir, kids, PlaceOf(dir, |kids|, i)))
  {
    LeavesSplit(kids, i);
    assert |kids| - (|kids| - 1 - i) == i + 1;
  }

  /** If a child changes, together with its links, as its event says, so does its conductor. */
  lemma {:induction false} KidRespects(dir: Direction, n: Node, i: nat, kid: Kid, e: Option<Event>)
    requires n.Nest? && i < |n.kids| && Leaves(kid.node) == Leaves(n.kids[i].node)
    requires e.Some? ==> e.value.at < Leaves(kid.node)
    requires var stage, c := StageGaps(StageOf(dir, n.kids[i])), ChangeOf(dir, Leaves(kid.node), e);
             Possible(stage, c) && StageGaps(StageOf(dir, kid)) == After(stage, c)
    ensures Respects(dir, n, None,
                     Outcome(n.(kids := n.kids[i := kid]), ShiftEvent(e, LeavesOf(n.kids[..i])), None))
  {
    var p := PlaceOf(dir, |n.kids|, i);
    GapCount(dir, n);
    GapCount(dir, n.(kids := n.kids[i := kid]));
    KidReplaced(dir, n.kids, i, kid);
    EventShifts(dir, n.kids, i, e);
    GapsBefore(dir, n, p);
    LineChange(Mails(dir, n.mailbox, |n.kids|), StagesOf(dir, n.kids), p, StageOf(dir, kid),
               ChangeOf(dir, Leaves(kid.node), e));
  }

  /** A child that takes the next message off its link respects the gaps of its conductor. */
  lemma {:induction false} FeedRespects(dir: Direction, n: Node, i: nat)
    requires n.Nest? && ApplyFeed(n, i).Some?
    ensures Respects(dir, n, None, ApplyFeed(n, i).value)
  {
    var g, down, up := OffLinkDown(n.kids[i].down[0]), n.kids[i].down, n.kids[i].up;
    var taken := ApplyTake(n.kids[i].node, g);
    var before, after := GapsOf(dir, n.kids[i].node), GapsOf(dir, taken.node);
    TakeRespects(dir, n.kids[i].node, g);
    var c := ChangeOf(dir, Leaves(taken.node), taken.event);
    if g.dir == dir {
      ChangeBefore(Append(before, 0, Erase(g.m)), [InUp(dir, up)], c);
      JoinAppendLeft(before, [InUp(dir, up)], 0, Erase(g.m));
      TakeFromBuffer(InDown(dir, down), Join(before, [InUp(dir, up)]), c);
    } else {
      assert c == NoChange && InDown(dir, down[1..]) == InDown(dir, down);
    }
    KidRespects(dir, n, i, Kid(taken.node, down[1..], up), taken.event);
  }

  /** What a child gives shows on its link, in its own direction only. */
  lemma {:induction false} GivenUp(dir: Direction, up: seq<Wire>, g: Give)
    ensures InUp(dir, up + [ToLinkUp(g)]) == if g.dir == dir then InUp(dir, up) + [Erase(g.m)] else InUp(dir, up)
  {
    PlainAppend(up, ToLinkUp(g));
    WrappedAppend(up, ToLinkUp(g));
    UnwrapWrap(g.m);
  }

  /** A child that moves by itself changes, together with its links, as its event says. */
  lemma {:induction false} StageChanges(dir: Direction, n: Node, i: nat, o: Outcome)
    requires n.Nest? && i < |n.kids| && Respects(dir, n.kids[i].node, None, o)
    ensures var stage, c := StageGaps(StageOf(dir, n.kids[i])), ChangeOf(dir, Leaves(o.node), o.event);
            Possible(stage, c) && StageGaps(StageOf(dir, AfterInside(n, i, o))) == After(stage, c)
  {
    var g, up := GapsOf(dir, n.kids[i].node), InUp(dir, n.kids[i].up);
    var c := ChangeOf(dir, Leaves(o.node), o.event);
    if o.gives.Some? {
      GivenUp(dir, n.kids[i].up, o.gives.value);
    }
    if o.gives.Some? && o.gives.value.dir == dir {
      GiveToBuffer(g, up, c, Erase(o.gives.value.m));
    } else {
      ChangeBefore(g, [up], c);
    }
    ChangeBehind([InDown(dir, n.kids[i].down)], Join(g, [up]), c);
    assert Shift(c, 0) == c;
  }

  /** A child that moves by itself respects the gaps of its conductor. */
  lemma {:induction false} InsideRespects(dir: Direction, n: Node, i: nat, o: Outcome)
    requires n.Nest? && i < |n.kids| && Respects(dir, n.kids[i].node, None, o)
    ensures Respects(dir, n, None,
                     Outcome(n.(kids := n.kids[i := AfterInside(n, i, o)]),
                             ShiftEvent(o.event, LeavesOf(n.kids[..i])), None))
  {
    StageChanges(dir, n, i, o);
    KidRespects(dir, n, i, AfterInside(n, i, o), o.event);
  }

  /** Every move of every node, however deeply conductors are nested, respects the gaps in both directions. */
  lemma {:induction false} MoveRespects(dir: Direction, schema: Schema, n: Node, mv: Move)
    requires Apply(schema, n, mv).Some?
    ensures Respects(dir, n, if mv.Take? then Some(Give(mv.dir, mv.m)) else None, Apply(schema, n, mv).value)
    decreases mv
  {
    match mv
    case Take(d, m) => TakeRespects(dir, n, Give(d, m));
    case LeafSends(_, m) => LeafGives(Erase(m));
    case Pump(i) => PumpRespects(dir, n, i);
    case Begin(params) => BeginRespects(dir, schema, n, params);
    case Route => RouteRespects(dir, schema, n);
    case Feed(i) => FeedRespects(dir, n, i);
    case Inside(i, sub) =>
      MoveRespects(dir, schema, n.kids[i].node, sub);
      InsideRespects(dir, n, i, Apply(schema, n.kids[i].node, sub).value);
  }
}
