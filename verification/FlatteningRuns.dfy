// One conductor is a row of places, and so whatever proxies do in one conductor they can do, event for event,
// in any nesting of conductors.

module FlatteningRuns {
  import opened Outcomes
  import opened Messages
  import opened Routing
  import opened ProxyTree
  import opened ProxyTreeMoves
  import opened Chain
  import opened ChainRuns
  import opened ChainSafety
  import opened Flattening
  import opened Rows
  import opened RowChains

  // ---- One conductor -------------------------------------------------------------------------

  /** All components are proxies, the conductor has had its handshake and no other is under way. */
  ghost predicate IsFlat(w: World) {
    && w.root.Nest? && AfterHandshake(w.root)
    && (forall i :: 0 <= i < |w.root.kids| ==> w.root.kids[i].node == Leaf)
    && (forall r :: r in w.root.mailbox ==> IsCalmEntry(|w.root.kids|, r))
    && AllQuiet(w.fromClient) && AllQuiet(w.toClient) && AllQuiet(w.fromAgent) && AllQuiet(w.toAgent)
  }

  predicate AllQuiet(ms: seq<Traffic>) { forall m :: m in ms ==> Quiet(m) }

  predicate IsCalmEntry(k: nat, r: Routed) {
    Quiet(r.m) && if r.LeftToRight? then r.target <= k else r.source.FromProxy? ==> r.source.index < k
  }

  function Gives(dir: Direction, ms: seq<Traffic>): (r: seq<Calm>)
    requires AllQuiet(ms)
    ensures |r| == |ms|
  {
    seq(|ms|, i requires 0 <= i < |ms| => assert ms[i] in ms; Give(dir, ms[i]))
  }

  /** What a proxy has put on its link. */
  function GiveOf(w: Wire): Calm
    requires QuietWire(w)
  {
    if IsWrapped(w) then Give(Rightward, Inner(w)) else Give(Leftward, w)
  }

  function GivesUp(ws: seq<Wire>): (r: seq<Calm>)
    requires forall w :: w in ws ==> QuietWire(w)
    ensures |r| == |ws|
  {
    seq(|ws|, i requires 0 <= i < |ws| => assert ws[i] in ws; GiveOf(ws[i]))
  }

  /** What a proxy is sent on its link. */
  function GiveDown(w: DownWire): (g: Calm)
    requires QuietWire(w)
    ensures g == OffLinkDown(w)
  {
    if IsWrapped(w) then Give(Leftward, Inner(w)) else Give(Rightward, w)
  }

  function GivesDown(ws: seq<DownWire>): (r: seq<Calm>)
    requires forall w :: w in ws ==> QuietWire(w)
    ensures |r| == |ws|
  {
    seq(|ws|, i requires 0 <= i < |ws| => assert ws[i] in ws; GiveDown(ws[i]))
  }

  function GiveIn(r: Routed): (g: Calm)
    requires Quiet(r.m)
  {
    Give(if r.LeftToRight? then Rightward else Leftward, r.m)
  }

  /** What of place `at` is in the mailbox. */
  function Held(k: nat, mail: seq<Routed>, at: nat): seq<Calm>
    requires forall r :: r in mail ==> Quiet(r.m)
  {
    if mail == [] then [] else
    (if SenderOf(k, mail[0]) == at then [GiveIn(mail[0])] else []) + Held(k, mail[1..], at)
  }

  /** What place `at` has sent that has not reached the conductor. */
  ghost function Own(w: World, at: nat): seq<Calm>
    requires IsFlat(w) && at < |w.root.kids| + 2
  {
    if at == 0 then Gives(Rightward, w.fromClient)
    else if at == |w.root.kids| + 1 then Gives(Leftward, w.fromAgent)
    else assert w.root.kids[at - 1] in w.root.kids; GivesUp(w.root.kids[at - 1].up)
  }

  ghost function Here(w: World, at: nat): seq<Calm>
    requires IsFlat(w) && at < |w.root.kids| + 2
  {
    if at == 0 then Gives(Leftward, w.toClient)
    else if at == |w.root.kids| + 1 then Gives(Rightward, w.toAgent)
    else assert w.root.kids[at - 1] in w.root.kids; GivesDown(w.root.kids[at - 1].down)
  }

  /** What place `at` has sent that its conductor has not handled. */
  ghost function Waiting(w: World, at: nat): seq<Calm>
    requires IsFlat(w) && at < |w.root.kids| + 2
  {
    Held(|w.root.kids|, w.root.mailbox, at) + Own(w, at)
  }

  /** The chain as a row: what is in the mailbox has not left its sender. */
  ghost function RowOf(w: World): (r: Row<Calm>)
    requires IsFlat(w)
    ensures Fits(|w.root.kids| + 2, r)
  {
    var k := |w.root.kids|;
    Row(seq(k + 2, at requires 0 <= at < k + 2 => Here(w, at)), seq(k + 2, at requires 0 <= at < k + 2 => Waiting(w, at)))
  }

  lemma {:induction false} HeldAppend(k: nat, mail: seq<Routed>, r: Routed, at: nat)
    requires (forall r' :: r' in mail ==> Quiet(r'.m)) && Quiet(r.m)
    ensures Held(k, mail + [r], at) == Held(k, mail, at) + if SenderOf(k, r) == at then [GiveIn(r)] else []
  {
    if mail == [] {
      assert [r][1..] == [] && mail + [r] == [r];
      assert Held(k, [r], at) == (if SenderOf(k, r) == at then [GiveIn(r)] else []) + Held(k, [], at);
    } else {
      assert (mail + [r])[1..] == mail[1..] + [r];
      HeldAppend(k, mail[1..], r, at);
    }
  }

  // ---- Taking messages in --------------------------------------------------------------------

  /** The message of entry `r` has left its sender's queue for the mailbox. */
  ghost predicate TakenIn(w: World, w': World, r: Routed)
    requires IsFlat(w) && IsFlat(w') && |w'.root.kids| == |w.root.kids|
  {
    && w'.root.mailbox == w.root.mailbox + [r] && Quiet(r.m)
    && forall at {:trigger TakenAt(w, w', r, at)} :: 0 <= at < |w.root.kids| + 2 ==> TakenAt(w, w', r, at)
  }

  ghost predicate TakenAt(w: World, w': World, r: Routed, at: nat)
    requires IsFlat(w) && IsFlat(w') && |w'.root.kids| == |w.root.kids| && Quiet(r.m) && at < |w.root.kids| + 2
  {
    && Here(w', at) == Here(w, at)
    && Own(w, at) == (if at == SenderOf(|w.root.kids|, r) then [GiveIn(r)] else []) + Own(w', at)
  }

  lemma WaitsOn(w: World, w': World, r: Routed, at: nat)
    requires IsFlat(w) && IsFlat(w') && |w'.root.kids| == |w.root.kids| && Quiet(r.m) && at < |w.root.kids| + 2
    requires w'.root.mailbox == w.root.mailbox + [r] && TakenAt(w, w', r, at)
    ensures Waiting(w', at) == Waiting(w, at)
  {
    var k, mail := |w.root.kids|, w.root.mailbox;
    HeldAppend(k, mail, r, at);
    var held, x := Held(k, mail, at), if at == SenderOf(k, r) then [GiveIn(r)] else [];
    assert held + x + Own(w', at) == held + (x + Own(w', at));
  }

  lemma MailboxGrows(w: World, w': World, r: Routed)
    requires IsFlat(w) && IsFlat(w') && |w'.root.kids| == |w.root.kids| && TakenIn(w, w', r)
    ensures RowOf(w') == RowOf(w)
  {
    forall at | 0 <= at < |w.root.kids| + 2 ensures Here(w', at) == Here(w, at) && Waiting(w', at) == Waiting(w, at) {
      assert TakenAt(w, w', r, at);
      WaitsOn(w, w', r, at);
    }
  }

  lemma GivesTail(dir: Direction, ms: seq<Traffic>)
    requires AllQuiet(ms) && ms != []
    ensures AllQuiet(ms[1..]) && Quiet(ms[0]) && Gives(dir, ms) == [Give(dir, ms[0])] + Gives(dir, ms[1..])
  {
    assert ms[0] in ms;
  }

  lemma ClientIn(schema: Schema, w: World)
    requires IsFlat(w) && w.fromClient != []
    ensures var w' := Advance(schema, w, FromClient).value.world;
      IsFlat(w') && |w'.root.kids| == |w.root.kids| && RowOf(w') == RowOf(w)
  {
    var w', r := Advance(schema, w, FromClient).value.world, LeftToRight(0, w.fromClient[0]);
    GivesTail(Rightward, w.fromClient);
    forall at | 0 <= at < |w.root.kids| + 2 ensures TakenAt(w, w', r, at) {
    }
    MailboxGrows(w, w', r);
  }

  lemma AgentIn(schema: Schema, w: World)
    requires IsFlat(w) && w.fromAgent != []
    ensures var w' := Advance(schema, w, FromAgent).value.world;
      IsFlat(w') && |w'.root.kids| == |w.root.kids| && RowOf(w') == RowOf(w)
  {
    var w', r := Advance(schema, w, FromAgent).value.world, RightToLeft(FromSuccessor, w.fromAgent[0]);
    GivesTail(Leftward, w.fromAgent);
    forall at | 0 <= at < |w.root.kids| + 2 ensures TakenAt(w, w', r, at) {
    }
    MailboxGrows(w, w', r);
  }

  /** The flat chain after one of its links has changed. */
  function WithLink(w: World, i: nat, link: Kid): World
    requires w.root.Nest? && i < |w.root.kids|
  {
    w.(root := w.root.(kids := w.root.kids[i := link]))
  }

  lemma ProxyIn(schema: Schema, w: World, i: nat)
    requires IsFlat(w) && Advance(schema, w, Conduct(Pump(i))).Some?
    ensures var r := Advance(schema, w, Conduct(Pump(i))).value; var w' := r.world;
      r.event == None && IsFlat(w') && |w'.root.kids| == |w.root.kids| && RowOf(w') == RowOf(w)
  {
    var w', kid, k := Advance(schema, w, Conduct(Pump(i))).value.world, w.root.kids[i], |w.root.kids|;
    assert kid in w.root.kids && kid.up[0] in kid.up;
    PumpKeepsAfterHandshake(w.root, i);
    var r := EntryFor(i, kid.up[0]);
    assert GiveOf(kid.up[0]) == GiveIn(r) && SenderOf(k, r) == i + 1;
    assert IsFlat(w');
    assert GivesUp(kid.up) == [GiveIn(r)] + GivesUp(kid.up[1..]);
    forall at | 0 <= at < k + 2 ensures TakenAt(w, w', r, at) {
    }
    MailboxGrows(w, w', r);
  }

  // ---- Routing -------------------------------------------------------------------------------

  /** The conductor has routed entry `r`, the oldest of its mailbox. */
  ghost predicate IsRouted(w: World, w': World, r: Routed)
    requires IsFlat(w) && IsFlat(w') && |w'.root.kids| == |w.root.kids| && Quiet(r.m)
  {
    var k := |w.root.kids|;
    && w.root.mailbox == [r] + w'.root.mailbox && HasNext(k + 2, SenderOf(k, r), GiveIn(r).dir)
    && forall at {:trigger RoutedAt(w, w', r, at)} :: 0 <= at < k + 2 ==> RoutedAt(w, w', r, at)
  }

  ghost predicate RoutedAt(w: World, w': World, r: Routed, at: nat)
    requires IsFlat(w) && IsFlat(w') && |w'.root.kids| == |w.root.kids| && Quiet(r.m) && at < |w.root.kids| + 2
  {
    && Own(w', at) == Own(w, at)
    && Here(w', at) == Here(w, at) + if at == Next(SenderOf(|w.root.kids|, r), GiveIn(r).dir) then [GiveIn(r)] else []
  }

  lemma WaitsLess(w: World, w': World, r: Routed, at: nat)
    requires IsFlat(w) && IsFlat(w') && |w'.root.kids| == |w.root.kids| && Quiet(r.m) && at < |w.root.kids| + 2
    requires w.root.mailbox == [r] + w'.root.mailbox && RoutedAt(w, w', r, at)
    ensures Waiting(w, at) == (if at == SenderOf(|w.root.kids|, r) then [GiveIn(r)] else []) + Waiting(w', at)
  {
    var k, mail := |w.root.kids|, w.root.mailbox;
    assert mail[0] == r && mail[1..] == w'.root.mailbox;
    var x, held := if at == SenderOf(k, r) then [GiveIn(r)] else [], Held(k, w'.root.mailbox, at);
    assert x + held + Own(w, at) == x + (held + Own(w, at));
  }

  lemma RoutedRow(w: World, w': World, r: Routed)
    requires IsFlat(w) && IsFlat(w') && |w'.root.kids| == |w.root.kids| && Quiet(r.m) && IsRouted(w, w', r)
    ensures var at := SenderOf(|w.root.kids|, r);
      && Do(RowOf(w), Moves(at)) == Some(RowOf(w'))
      && RowOf(w).up[at] != [] && RowOf(w).up[at][0] == GiveIn(r)
  {
    var at, k, row, row' := SenderOf(|w.root.kids|, r), |w.root.kids|, RowOf(w), RowOf(w');
    assert RoutedAt(w, w', r, at);
    WaitsLess(w, w', r, at);
    var moved := Passed(row, at, GiveIn(r).dir);
    forall b | 0 <= b < k + 2 ensures moved.up[b] == row'.up[b] && moved.down[b] == row'.down[b] {
      assert RoutedAt(w, w', r, b);
      WaitsLess(w, w', r, b);
    }
    assert moved.up == row'.up && moved.down == row'.down;
  }

  lemma RouteOut(schema: Schema, w: World)
    requires IsFlat(w) && Advance(schema, w, Conduct(Route)).Some?
    requires RouteEntry(schema, w.root).value.gives.Some?
    ensures var w', r := Advance(schema, w, Conduct(Route)).value.world, w.root.mailbox[0];
      && Quiet(r.m) && IsFlat(w') && |w'.root.kids| == |w.root.kids| && IsRouted(w, w', r) && ForAgent(schema, GiveIn(r))
  {
    var w', r, k := Advance(schema, w, Conduct(Route)).value.world, w.root.mailbox[0], |w.root.kids|;
    assert r in w.root.mailbox;
    RouteKeepsAfterHandshake(schema, w.root);
    assert w'.root == w.root.(mailbox := w.root.mailbox[1..]);
    assert IsFlat(w');
    var last := Next(SenderOf(k, r), GiveIn(r).dir);
    assert last == 0 || last == k + 1;
    forall at | 0 <= at < k + 2 ensures RoutedAt(w, w', r, at) {
      assert Here(w, at) + [] == Here(w, at);
    }
  }

  /** The message of entry `r` put on the link down to the proxy it is for. */
  function Landed(w: World, r: Routed, i: nat): World
    requires w.root.Nest? && w.root.mailbox != [] && i < |w.root.kids| && Quiet(r.m)
  {
    var kid := w.root.kids[i];
    w.(root := Nest(true, w.root.kids[i := kid.(down := kid.down + [DownForm(GiveIn(r).dir, r.m)])], w.root.mailbox[1..]))
  }

  lemma RouteLands(schema: Schema, w: World) returns (i: nat)
    requires IsFlat(w) && Advance(schema, w, Conduct(Route)).Some?
    requires RouteEntry(schema, w.root).value.gives.None?
    ensures var r, k := w.root.mailbox[0], |w.root.kids|;
      && Quiet(r.m) && i < k
      && HasNext(k + 2, SenderOf(k, r), GiveIn(r).dir) && Next(SenderOf(k, r), GiveIn(r).dir) == i + 1
      && Advance(schema, w, Conduct(Route)) == Some(Stepped(Landed(w, r, i), None))
  {
    var r := w.root.mailbox[0];
    assert r in w.root.mailbox;
    UnwrapWrap(r.m);
    i := Next(SenderOf(|w.root.kids|, r), GiveIn(r).dir) - 1;
  }

  lemma RouteIn(schema: Schema, w: World)
    requires IsFlat(w) && Advance(schema, w, Conduct(Route)).Some?
    requires RouteEntry(schema, w.root).value.gives.None?
    ensures var w', r := Advance(schema, w, Conduct(Route)).value.world, w.root.mailbox[0];
      && Advance(schema, w, Conduct(Route)).value.event == None
      && Quiet(r.m) && IsFlat(w') && |w'.root.kids| == |w.root.kids| && IsRouted(w, w', r)
      && Next(SenderOf(|w.root.kids|, r), GiveIn(r).dir) <= |w.root.kids|
  {
    var i := RouteLands(schema, w);
    var r, k := w.root.mailbox[0], |w.root.kids|;
    var w' := Landed(w, r, i);
    RouteKeepsAfterHandshake(schema, w.root);
    assert IsFlat(w');
    DownLonger(w.root.kids[i], w'.root.kids[i], GiveIn(r), w.root, w'.root);
    forall at | 0 <= at < k + 2 ensures RoutedAt(w, w', r, at) {
      assert Here(w, at) + [] == Here(w, at);
    }
  }

  lemma DownLonger(kid: Kid, kid': Kid, g: Calm, n: Node, n': Node)
    requires n.Nest? && n'.Nest? && AfterHandshake(n) && AfterHandshake(n') && kid in n.kids && kid' in n'.kids
    requires kid'.down == kid.down + [DownForm(g.dir, g.m)]
    ensures GivesDown(kid'.down) == GivesDown(kid.down) + [g]
  {
    UnwrapWrap(g.m);
  }

  // ---- What places do ------------------------------------------------------------------------

  /** Place `at` has one message more in its queue, or has taken the oldest that had come for it. */
  ghost predicate HasDone(w: World, w': World, e: Event)
    requires IsFlat(w) && IsFlat(w') && |w'.root.kids| == |w.root.kids|
  {
    var k := |w.root.kids|;
    && w'.root.mailbox == w.root.mailbox && Quiet(e.m) && e.at < k + 2
    && (e.Sent? ==> HasNext(k + 2, e.at, e.dir))
    && forall at {:trigger DoneAt(w, w', e, at)} :: 0 <= at < k + 2 ==> DoneAt(w, w', e, at)
  }

  ghost predicate DoneAt(w: World, w': World, e: Event, at: nat)
    requires IsFlat(w) && IsFlat(w') && |w'.root.kids| == |w.root.kids| && Quiet(e.m) && at < |w.root.kids| + 2
  {
    && Own(w', at) == Own(w, at) + (if e.Sent? && at == e.at then [Give(e.dir, e.m)] else [])
    && Here(w, at) == (if e.Received? && at == e.at then [Give(e.dir, e.m)] else []) + Here(w', at)
  }

  lemma DoneRow(w: World, w': World, e: Event)
    requires IsFlat(w) && IsFlat(w') && |w'.root.kids| == |w.root.kids| && HasDone(w, w', e)
    ensures Do(RowOf(w), Happens(e)) == Some(RowOf(w'))
  {
    var k, row, row', mail := |w.root.kids|, RowOf(w), RowOf(w'), w.root.mailbox;
    assert DoneAt(w, w', e, e.at);
    var done := Do(row, Happens(e)).value;
    forall b | 0 <= b < k + 2 ensures done.up[b] == row'.up[b] && done.down[b] == row'.down[b] {
      assert DoneAt(w, w', e, b);
      WaitsMore(w, w', e, b);
    }
    assert done.up == row'.up && done.down == row'.down;
  }

  lemma WaitsMore(w: World, w': World, e: Event, at: nat)
    requires IsFlat(w) && IsFlat(w') && |w'.root.kids| == |w.root.kids| && Quiet(e.m) && at < |w.root.kids| + 2
    requires w'.root.mailbox == w.root.mailbox && DoneAt(w, w', e, at)
    ensures Waiting(w', at) == Waiting(w, at) + (if e.Sent? && at == e.at then [Give(e.dir, e.m)] else [])
  {
    var held, x := Held(|w.root.kids|, w.root.mailbox, at), if e.Sent? && at == e.at then [Give(e.dir, e.m)] else [];
    assert held + Own(w, at) + x == held + (Own(w, at) + x);
  }

  lemma FlatPlaces(w: World)
    requires IsFlat(w)
    ensures Places(w) == |w.root.kids| + 2
    ensures forall i :: 0 <= i <= |w.root.kids| ==> LeavesOf(w.root.kids[..i]) == i
  {
    LeavesOfLeaves(w.root.kids);
    forall i | 0 <= i <= |w.root.kids| ensures LeavesOf(w.root.kids[..i]) == i {
      LeavesOfLeaves(w.root.kids[..i]);
    }
  }

  /** The step is one of the row, or shows nothing there. */
  ghost predicate StepsAsRow(schema: Schema, w: World, r: Stepped)
    requires IsFlat(w)
  {
    && IsFlat(r.world) && |r.world.root.kids| == |w.root.kids|
    && var k, row, row' := |w.root.kids|, RowOf(w), RowOf(r.world);
       match r.event
       case Some(e) => e.at < k + 2 && Do(row, Happens(e)) == Some(row')
       case None => row' == row || exists at :: RowMoves(schema, k, row, at, row')
  }

  ghost predicate RowMoves(schema: Schema, k: nat, row: Row<Calm>, at: nat, row': Row<Calm>)
    requires Fits(k + 2, row)
  {
    Do(row, Moves(at)) == Some(row') && (at == k ==> ForAgent(schema, row.up[at][0]))
  }

  lemma ClientDoes(schema: Schema, w: World, step: Step)
    requires IsFlat(w) && Advance(schema, w, step).Some? && (step.ClientSends? || step.ClientReceives?)
    requires step.ClientSends? ==> Quiet(step.m)
    ensures StepsAsRow(schema, w, Advance(schema, w, step).value)
  {
    var r := Advance(schema, w, step).value;
    if step.ClientReceives? {
      GivesTail(Leftward, w.toClient);
    } else {
      assert Gives(Rightward, r.world.fromClient) == Gives(Rightward, w.fromClient) + [Give(Rightward, step.m)];
    }
    forall at | 0 <= at < |w.root.kids| + 2 ensures DoneAt(w, r.world, r.event.value, at) {
      assert Own(w, at) + [] == Own(w, at);
    }
    DoneRow(w, r.world, r.event.value);
  }

  lemma AgentDoes(schema: Schema, w: World, step: Step)
    requires IsFlat(w) && Advance(schema, w, step).Some? && (step.AgentSends? || step.AgentReceives?)
    requires step.AgentSends? ==> Quiet(step.m)
    ensures StepsAsRow(schema, w, Advance(schema, w, step).value)
  {
    var r := Advance(schema, w, step).value;
    FlatPlaces(w);
    if step.AgentReceives? {
      GivesTail(Rightward, w.toAgent);
    } else {
      assert Gives(Leftward, r.world.fromAgent) == Gives(Leftward, w.fromAgent) + [Give(Leftward, step.m)];
    }
    forall at | 0 <= at < |w.root.kids| + 2 ensures DoneAt(w, r.world, r.event.value, at) {
      assert Own(w, at) + [] == Own(w, at);
    }
    DoneRow(w, r.world, r.event.value);
  }

  lemma ProxyReceives(schema: Schema, w: World, i: nat)
    requires IsFlat(w) && Advance(schema, w, Conduct(Feed(i))).Some?
    ensures StepsAsRow(schema, w, Advance(schema, w, Conduct(Feed(i))).value)
  {
    var r, kid, k := Advance(schema, w, Conduct(Feed(i))).value, w.root.kids[i], |w.root.kids|;
    var w' := r.world;
    assert kid in w.root.kids && kid.down[0] in kid.down;
    var g := GiveDown(kid.down[0]);
    FlatPlaces(w);
    FeedKeepsAfterHandshake(w.root, i);
    assert w' == WithLink(w, i, kid.(down := kid.down[1..]));
    assert IsFlat(w');
    assert GivesDown(kid.down) == [g] + GivesDown(kid.down[1..]);
    var e := Received(i + 1, g.dir, g.m);
    assert r.event == Some(e);
    forall at | 0 <= at < k + 2 ensures DoneAt(w, w', e, at) {
      assert Own(w, at) + [] == Own(w, at);
    }
    DoneRow(w, w', e);
  }

  lemma ProxySends(schema: Schema, w: World, i: nat, sub: Move)
    requires IsFlat(w) && Advance(schema, w, Conduct(Inside(i, sub))).Some?
    requires var e := Advance(schema, w, Conduct(Inside(i, sub))).value.event; e.Some? ==> Quiet(e.value.m)
    ensures StepsAsRow(schema, w, Advance(schema, w, Conduct(Inside(i, sub))).value)
  {
    var r, kid, k := Advance(schema, w, Conduct(Inside(i, sub))).value, w.root.kids[i], |w.root.kids|;
    var w' := r.world;
    var g := SentInside(schema, w, i, sub);
    var e := Sent(i + 1, g.dir, g.m);
    forall at | 0 <= at < k + 2 ensures DoneAt(w, w', e, at) {
      assert Own(w, at) + [] == Own(w, at);
      assert at == i + 1 ==> Own(w', at) == GivesUp(kid.up + [ToLinkUp(g)]);
    }
    DoneRow(w, w', e);
  }

  lemma SentInside(schema: Schema, w: World, i: nat, sub: Move) returns (g: Calm)
    requires IsFlat(w) && Advance(schema, w, Conduct(Inside(i, sub))).Some?
    requires var e := Advance(schema, w, Conduct(Inside(i, sub))).value.event; e.Some? ==> Quiet(e.value.m)
    ensures i < |w.root.kids| && var kid := w.root.kids[i]; var w' := WithLink(w, i, kid.(up := kid.up + [ToLinkUp(g)]));
      && IsFlat(w') && kid in w.root.kids && kid.(up := kid.up + [ToLinkUp(g)]) in w'.root.kids
      && Advance(schema, w, Conduct(Inside(i, sub))) == Some(Stepped(w', Some(Sent(i + 1, g.dir, g.m))))
      && GivesUp(kid.up + [ToLinkUp(g)]) == GivesUp(kid.up) + [g]
  {
    var kid := w.root.kids[i];
    assert Apply(schema, Leaf, sub).Some? && sub.LeafSends?;
    FlatPlaces(w);
    g := Give(sub.dir, sub.m);
    MoveKeepsAfterHandshake(schema, w.root, Inside(i, sub));
    UnwrapWrap(sub.m);
    var kid' := kid.(up := kid.up + [ToLinkUp(g)]);
    assert WithLink(w, i, kid').root.kids[i] == kid';
  }

  lemma RouteStepsAsRow(schema: Schema, w: World)
    requires IsFlat(w) && Advance(schema, w, Conduct(Route)).Some?
    ensures StepsAsRow(schema, w, Advance(schema, w, Conduct(Route)).value)
  {
    var r, k := w.root.mailbox[0], |w.root.kids|;
    var w' := Advance(schema, w, Conduct(Route)).value.world;
    if RouteEntry(schema, w.root).value.gives.Some? {
      RouteOut(schema, w);
    } else {
      RouteIn(schema, w);
    }
    RoutedRow(w, w', r);
    assert RowMoves(schema, k, RowOf(w), SenderOf(k, r), RowOf(w'));
  }

  /** Every step of one conductor's chain is a step of a row of places. */
  lemma FlatStep(schema: Schema, w: World, step: Step)
    requires IsFlat(w) && Advance(schema, w, step).Some?
    requires var e := Advance(schema, w, step).value.event; e.Some? ==> Quiet(e.value.m)
    ensures StepsAsRow(schema, w, Advance(schema, w, step).value)
  {
    match step
    case Conduct(Pump(i)) => ProxyIn(schema, w, i);
    case Conduct(Route) => RouteStepsAsRow(schema, w);
    case Conduct(Feed(i)) => ProxyReceives(schema, w, i);
    case Conduct(Inside(i, sub)) => ProxySends(schema, w, i, sub);
    case FromClient => ClientIn(schema, w);
    case FromAgent => AgentIn(schema, w);
    case ClientSends(m) => ClientDoes(schema, w, step);
    case AgentSends(m) => AgentDoes(schema, w, step);
    case ClientReceives => ClientDoes(schema, w, step);
    case AgentReceives => AgentDoes(schema, w, step);
    case _ =>
  }

  // ---- Every run -----------------------------------------------------------------------------

  function Proxies(n: nat): (r: seq<Node>)
    ensures |r| == n
  {
    seq(n, _ => Leaf)
  }

  lemma ProxyPlaces(n: nat, at: nat)
    requires at < n + 2
    ensures WorldPlace(Proxies(n), at) == at
  {
    if at > 0 {
      LeavesOfLeaves(RowLinks(Proxies(n), Still(n + 2))[..at - 1]);
    }
  }

  /** Any grouping of the proxies can do what the row does. */
  lemma ProxyOpShown(schema: Schema, parts: seq<Shape>, r: Row<Calm>, op: Op)
    requires Fits(SizeOf(parts) + 2, r) && EndsRight(r) && Do(r, op).Some?
    requires op.Moves? && op.at == SizeOf(parts) ==> ForAgent(schema, r.up[op.at][0])
    ensures Fits(SizeOf(parts) + 2, Do(r, op).value) && EndsRight(Do(r, op).value)
    ensures var nodes := Proxies(SizeOf(parts));
      Shows(schema, RowWorld(parts, nodes, r), if op.Happens? then [op.e] else [], RowWorld(parts, nodes, Do(r, op).value))
  {
    OpShown(schema, parts, Proxies(SizeOf(parts)), r, op);
    KeepsEnds(r, op);
    if op.Happens? {
      ProxyPlaces(SizeOf(parts), op.e.at);
    }
  }

  lemma FlatEnds(w: World)
    requires IsFlat(w)
    ensures EndsRight(RowOf(w))
  {
  }

  lemma StepMimicked(schema: Schema, parts: seq<Shape>, w: World, step: Step)
    requires IsFlat(w) && |w.root.kids| == SizeOf(parts) && Advance(schema, w, step).Some?
    requires var e := Advance(schema, w, step).value.event; e.Some? ==> Quiet(e.value.m)
    ensures var r, nodes := Advance(schema, w, step).value, Proxies(SizeOf(parts));
      && IsFlat(r.world) && |r.world.root.kids| == SizeOf(parts)
      && Shows(schema, RowWorld(parts, nodes, RowOf(w)), Shown(r), RowWorld(parts, nodes, RowOf(r.world)))
  {
    var r, row := Advance(schema, w, step).value, RowOf(w);
    FlatStep(schema, w, step);
    FlatEnds(w);
    if r.event.Some? {
      ProxyOpShown(schema, parts, row, Happens(r.event.value));
    } else if RowOf(r.world) == row {
      NothingToDo(schema, RowWorld(parts, Proxies(SizeOf(parts)), row));
    } else {
      var at :| RowMoves(schema, |w.root.kids|, row, at, RowOf(r.world));
      ProxyOpShown(schema, parts, row, Moves(at));
    }
  }

  function Shown(r: Stepped): seq<Event> {
    if r.event.Some? then [r.event.value] else []
  }

  /** A nesting follows any run of the flat chain: after it, what is in the flat conductor's mailbox has not left
      its sender, and everything else is where it is in the flat chain. */
  lemma {:induction false} RunMimicked(schema: Schema, parts: seq<Shape>, w: World, steps: seq<Step>)
    requires IsFlat(w) && |w.root.kids| == SizeOf(parts) && Run(schema, w, steps).Some?
    requires forall e :: e in Run(schema, w, steps).value.events ==> Quiet(e.m)
    ensures var t, nodes := Run(schema, w, steps).value, Proxies(SizeOf(parts));
      && IsFlat(t.world) && |t.world.root.kids| == SizeOf(parts)
      && Shows(schema, RowWorld(parts, nodes, RowOf(w)), t.events, RowWorld(parts, nodes, RowOf(t.world)))
  {
    var nodes := Proxies(SizeOf(parts));
    if steps == [] {
      NothingToDo(schema, RowWorld(parts, nodes, RowOf(w)));
    } else {
      var before := Run(schema, w, steps[..|steps| - 1]).value;
      var r := Advance(schema, before.world, steps[|steps| - 1]).value;
      assert Run(schema, w, steps).value.events == before.events + Shown(r);
      assert r.event.Some? ==> r.event.value in Shown(r);
      RunMimicked(schema, parts, w, steps[..|steps| - 1]);
      StepMimicked(schema, parts, before.world, steps[|steps| - 1]);
      Then(schema, RowWorld(parts, nodes, RowOf(w)), before.events, RowWorld(parts, nodes, RowOf(before.world)),
           Shown(r), RowWorld(parts, nodes, RowOf(r.world)));
    }
  }

  /** A proxy with nothing on its link. */
  const IDLE: Kid := Kid(Leaf, [], [])

  /** Proxies in one conductor that has had its handshake, all queues empty. */
  function FlatChain(n: nat): World {
    World([], [], [], [], Nest(true, seq(n, _ => IDLE), []))
  }

  /** The same proxies grouped into conductors that have had theirs. */
  ghost function NestedChain(parts: seq<Shape>): World {
    World([], [], [], [], Resting(parts, seq(SizeOf(parts), _ => IDLE), []))
  }

  /** Some run shows exactly these events. */
  ghost predicate CanShow(schema: Schema, w: World, events: seq<Event>) {
    exists w' :: Shows(schema, w, events, w')
  }

  lemma StillChain(parts: seq<Shape>)
    ensures RowWorld(parts, Proxies(SizeOf(parts)), Still(SizeOf(parts) + 2)) == NestedChain(parts)
    ensures EndsRight(Still<Calm>(SizeOf(parts) + 2))
  {
    var links := RowLinks(Proxies(SizeOf(parts)), Still(SizeOf(parts) + 2));
    forall t | 0 <= t < |links| ensures links[t] == IDLE {
    }
    assert links == seq(SizeOf(parts), _ => IDLE);
  }

  lemma FlatStart(n: nat)
    ensures IsFlat(FlatChain(n)) && RowOf(FlatChain(n)) == Still(n + 2)
  {
    var w := FlatChain(n);
    forall at | 0 <= at < n + 2 ensures Here(w, at) == [] && Waiting(w, at) == [] {
    }
    assert RowOf(w).down == Still<Calm>(n + 2).down && RowOf(w).up == Still<Calm>(n + 2).up;
  }

  /** Taking nested conductors apart adds nothing that was not there: what proxies show in one conductor, in any
      run without further handshakes, they can show in any nesting, in the same order. */
  lemma FlatRunsAreNestedRuns(schema: Schema, parts: seq<Shape>, steps: seq<Step>)
    requires Run(schema, FlatChain(SizeOf(parts)), steps).Some?
    requires forall e :: e in Run(schema, FlatChain(SizeOf(parts)), steps).value.events ==> Quiet(e.m)
    ensures CanShow(schema, NestedChain(parts), Run(schema, FlatChain(SizeOf(parts)), steps).value.events)
  {
    FlatStart(SizeOf(parts));
    StillChain(parts);
    RunMimicked(schema, parts, FlatChain(SizeOf(parts)), steps);
  }

  // ---- One conductor is a row ----------------------------------------------------------------

  /** A message that leaves the chain in the form in which it came. */
  predicate Ordinary(schema: Schema, m: Traffic) {
    Quiet(m) && AgentForm(schema, m) == Forward(m)
  }

  ghost predicate AllOrdinary(schema: Schema, events: seq<Event>) {
    forall e :: e in events ==> Ordinary(schema, e.m)
  }

  ghost predicate OrdinaryUps(schema: Schema, r: Row<Calm>) {
    forall at, g :: 0 <= at < |r.up| && g in r.up[at] ==> Ordinary(schema, g.m)
  }

  lemma StaysOrdinary(schema: Schema, r: Row<Calm>, op: Op)
    requires |r.up| == |r.down| && OrdinaryUps(schema, r) && Do(r, op).Some? && (op.Happens? ==> Ordinary(schema, op.e.m))
    ensures OrdinaryUps(schema, Do(r, op).value)
  {
    var r' := Do(r, op).value;
    forall at, g | 0 <= at < |r'.up| && g in r'.up[at] ensures Ordinary(schema, g.m) {
      assert g in r.up[at] || (op.Happens? && g.m == op.e.m);
    }
  }

  /** Whatever a row shows, its places can show as proxies in any nesting. */
  lemma {:induction false} RowShown(schema: Schema, parts: seq<Shape>, ops: seq<Op>)
    requires DoAll(Still(SizeOf(parts) + 2), ops).Some? && AllOrdinary(schema, EventsOf(ops))
    ensures var r := DoAll(Still(SizeOf(parts) + 2), ops).value;
      && EndsRight(r) && OrdinaryUps(schema, r)
      && Shows(schema, NestedChain(parts), EventsOf(ops), RowWorld(parts, Proxies(SizeOf(parts)), r))
  {
    if ops == [] {
      StillChain(parts);
      NothingToDo(schema, NestedChain(parts));
    } else {
      var init, op := ops[..|ops| - 1], ops[|ops| - 1];
      var shown := if op.Happens? then [op.e] else [];
      assert EventsOf(ops) == EventsOf(init) + shown;
      assert op.Happens? ==> op.e in shown;
      RowShown(schema, parts, init);
      var r := DoAll(Still(SizeOf(parts) + 2), init).value;
      assert op.Moves? ==> r.up[op.at][0] in r.up[op.at];
      StaysOrdinary(schema, r, op);
      ProxyOpShown(schema, parts, r, op);
      var nodes := Proxies(SizeOf(parts));
      Then(schema, NestedChain(parts), EventsOf(init), RowWorld(parts, nodes, r), shown,
           RowWorld(parts, nodes, Do(r, op).value));
    }
  }

  lemma {:induction false} RunAsRow(schema: Schema, n: nat, steps: seq<Step>) returns (ops: seq<Op>)
    requires Run(schema, FlatChain(n), steps).Some?
    requires forall e :: e in Run(schema, FlatChain(n), steps).value.events ==> Quiet(e.m)
    ensures var t := Run(schema, FlatChain(n), steps).value;
      && IsFlat(t.world) && |t.world.root.kids| == n
      && DoAll(Still(n + 2), ops) == Some(RowOf(t.world)) && EventsOf(ops) == t.events
  {
    if steps == [] {
      FlatStart(n);
      ops := [];
    } else {
      var before := Run(schema, FlatChain(n), steps[..|steps| - 1]).value;
      var r := Advance(schema, before.world, steps[|steps| - 1]).value;
      assert Run(schema, FlatChain(n), steps).value.events == before.events + Shown(r);
      assert r.event.Some? ==> r.event.value in Shown(r);
      var init := RunAsRow(schema, n, steps[..|steps| - 1]);
      FlatStep(schema, before.world, steps[|steps| - 1]);
      if r.event == None && RowOf(r.world) == RowOf(before.world) {
        ops := init;
      } else {
        var op;
        if r.event.Some? {
          op := Happens(r.event.value);
        } else {
          var at :| RowMoves(schema, n, RowOf(before.world), at, RowOf(r.world));
          op := Moves(at);
        }
        ops := init + [op];
        assert ops[..|ops| - 1] == init;
      }
    }
  }

  lemma OneShapes(n: nat) returns (parts: seq<Shape>)
    ensures SizeOf(parts) == n && NestedChain(parts) == FlatChain(n)
  {
    parts := seq(n, _ => One);
    forall i | 0 <= i <= n ensures Offset(parts, i) == i {
      OneOffsets(parts, i);
    }
    var links := seq(n, _ => IDLE);
    forall i | 0 <= i < n ensures KidsOf(parts, links)[i] == links[i] {
      KidsAt(parts, links, i);
    }
    assert KidsOf(parts, links) == links;
  }

  lemma {:induction false} OneOffsets(parts: seq<Shape>, i: nat)
    requires i <= |parts| && forall j :: 0 <= j < |parts| ==> parts[j] == One
    ensures Offset(parts, i) == i
  {
    if i > 0 {
      OneOffsets(parts, i - 1);
    }
  }

  /** One conductor's chain shows exactly what a row of places shows: each place has one queue for all that comes
      for it and one for all that it sends, and the oldest message a place has sent can come to its neighbour. */
  lemma OneConductorIsARow(schema: Schema, n: nat, events: seq<Event>)
    requires AllOrdinary(schema, events)
    ensures CanShow(schema, FlatChain(n), events) <==> RowShows(n + 2, events)
  {
    if CanShow(schema, FlatChain(n), events) {
      var w :| Shows(schema, FlatChain(n), events, w);
      var steps := RunOf(schema, FlatChain(n), events, w);
      var ops := RunAsRow(schema, n, steps);
    }
    if RowShows(n + 2, events) {
      var ops :| EventsOf(ops) == events && DoAll(Still(n + 2), ops).Some?;
      var parts := OneShapes(n);
      RowShown(schema, parts, ops);
    }
  }
}
