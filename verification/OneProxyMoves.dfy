// Every move of a conductor with one proxy keeps the order of what passes through, but for what may fall behind.

module OneProxyMoves {
  import opened Outcomes
  import opened Routing
  import opened ProxyTree
  import opened ProxyTreeMoves
  import opened Rows
  import opened Delays
  import opened OneProxy

  /** What is on its way in changes from `s` to `s'`: something comes, the proxy takes the first, some falls behind. */
  ghost predicate InStep(d: Direction, exact: bool, s: seq<Direction>, take: Option<Give>, e: Option<Event>, s': seq<Direction>) {
    var come := s + if take.Some? then [take.value.dir] else [];
    if e.Some? && e.value.Received? then come != [] && come[0] == e.value.dir && Shifts(d, exact, come[1..], s')
    else Shifts(d, exact, come, s')
  }

  /** What is on its way out changes: the proxy sends something, some falls behind, the first leaves. */
  ghost predicate OutStep(d: Direction, exact: bool, s: seq<Direction>, e: Option<Event>, gives: Option<Give>, s': seq<Direction>) {
    Shifts(Opposite(d), exact, s + (if e.Some? && e.value.Sent? then [e.value.dir] else []),
           (if gives.Some? then [gives.value.dir] else []) + s')
  }

  /** A node with one proxy stays one. */
  ghost predicate Stays(d: Direction, n: Node, n': Node) {
    Single(d, n') && (Pure(n) ==> Pure(n'))
  }

  ghost predicate NodeStep(d: Direction, n: Node, take: Option<Give>, o: Outcome)
    requires Single(d, n)
  {
    && Stays(d, n, o.node) && (o.event.Some? ==> o.event.value.at == 0)
    && InStep(d, Pure(n), In(d, n), take, o.event, In(d, o.node))
    && OutStep(d, Pure(n), Out(d, n), o.event, o.gives, Out(d, o.node))
  }

  ghost predicate KidStep(d: Direction, kid: Kid, e: Option<Event>, kid': Kid)
    requires Single(d, kid.node)
  {
    && Stays(d, kid.node, kid'.node) && (e.Some? ==> e.value.at == 0)
    && InStep(d, Pure(kid.node), InKid(d, kid), None, e, InKid(d, kid'))
    && OutStep(d, Pure(kid.node), OutKid(d, kid), e, None, OutKid(d, kid'))
  }

  // ---- How many are on their way -------------------------------------------------------------

  predicate Receives(e: Option<Event>, d: Direction) { e.Some? && e.value.Received? && e.value.dir == d }
  predicate Sends(e: Option<Event>, d: Direction) { e.Some? && e.value.Sent? && e.value.dir == d }
  predicate Of(g: Option<Give>, d: Direction) { g.Some? && g.value.dir == d }

  /** What is on its way in from the one side grows by what is taken and shrinks by what the proxy receives; what is
      on its way out to it grows by what the proxy sends and shrinks by what is given. */
  ghost predicate SizeStep(d: Direction, n: Node, take: Option<Give>, o: Outcome) {
    && Ahead(d, o.node) + OneIf(Receives(o.event, d)) == Ahead(d, n) + OneIf(Of(take, d))
    && Behind(d, o.node) + OneIf(Of(o.gives, Opposite(d))) == Behind(d, n) + OneIf(Sends(o.event, Opposite(d)))
  }

  lemma GapSizes(d: Direction, n: Node, take: Option<Give>, o: Outcome)
    requires Leaves(n) == 1 && Respects(d, n, take, o) && Respects(Opposite(d), n, take, o)
    ensures (o.event.Some? ==> o.event.value.at == 0) && SizeStep(d, n, take, o)
  {
    FirstSize(d, n, take, o);
    SecondSize(Opposite(d), n, take, o);
    AheadOf(d, n);
    AheadOf(d, o.node);
    BehindOf(d, n);
    BehindOf(d, o.node);
  }

  lemma FirstSize(d: Direction, n: Node, take: Option<Give>, o: Outcome)
    requires Leaves(n) == 1 && Respects(d, n, take, o)
    ensures o.event.Some? ==> o.event.value.at == 0
    ensures |GapsOf(d, o.node)[0]| + OneIf(Receives(o.event, d)) == |GapsOf(d, n)[0]| + OneIf(Of(take, d))
  {
  }

  lemma SecondSize(d: Direction, n: Node, take: Option<Give>, o: Outcome)
    requires Leaves(n) == 1 && Respects(d, n, take, o)
    ensures LastSize(GapsOf(d, o.node)) + OneIf(Of(o.gives, d)) == LastSize(GapsOf(d, n)) + OneIf(Sends(o.event, d))
  {
  }

  // ---- Putting sequences together ------------------------------------------------------------

  lemma Regroup(m: seq<Direction>, tag: seq<Direction>, y: seq<Direction>)
    ensures (m + tag) + y == m + (tag + y)
  {
  }

  /** More stands behind. */
  lemma InFront(d: Direction, exact: bool, a: seq<Direction>, e: Option<Event>, a': seq<Direction>, rest: seq<Direction>)
    requires InStep(d, exact, a, None, e, a')
    ensures InStep(d, exact, a + rest, None, e, a' + rest)
    ensures Count(d, a') + OneIf(Receives(e, d)) == Count(d, a)
  {
    assert a + [] == a;
    assert a + rest + [] == a + rest;
    if e.Some? && e.value.Received? {
      TailOf(d, a, rest);
      ShiftsBefore(d, exact, a[1..], a', rest);
      ShiftsCount(d, exact, a[1..], a');
    } else {
      ShiftsBefore(d, exact, a, a', rest);
      ShiftsCount(d, exact, a, a');
    }
  }

  lemma TailOf(d: Direction, a: seq<Direction>, rest: seq<Direction>)
    requires a != []
    ensures (a + rest)[0] == a[0] && (a + rest)[1..] == a[1..] + rest
    ensures Count(d, a) == OneIf(a[0] == d) + Count(d, a[1..])
  {
  }

  /** More stands in front. */
  lemma OutBehind(d: Direction, exact: bool, a: seq<Direction>, e: Option<Event>, a': seq<Direction>, front: seq<Direction>)
    requires OutStep(d, exact, a, e, None, a')
    ensures OutStep(d, exact, front + a, e, None, front + a')
    ensures Count(Opposite(d), a') == Count(Opposite(d), a) + OneIf(Sends(e, Opposite(d)))
  {
    var opp, sent := Opposite(d), if e.Some? && e.value.Sent? then [e.value.dir] else [];
    MarksJoin(opp, a, sent);
    if sent != [] {
      OneMark(opp, sent[0]);
    }
    assert [] + a' == a';
    assert [] + (front + a') == front + a';
    Regroup(front, a, sent);
    ShiftsBehind(opp, exact, front, a + sent, a');
    ShiftsCount(opp, exact, a + sent, a');
  }

  /** A message comes in from the side without the groups, or waits among them, or passes what waits there. */
  lemma Comes(d: Direction, exact: bool, x: seq<Direction>, u: nat, t: Direction, tag: seq<Direction>, u': nat)
    requires (tag == [t] && u' == u && (t == d || exact ==> u == 0)) || (tag == [] && t == d && u' == u + 1)
    ensures Shifts(d, exact, x + Repeat(d, u) + [t], x + tag + Repeat(d, u'))
  {
    Regroup(x, Repeat(d, u), [t]);
    Regroup(x, tag, Repeat(d, u'));
    if tag == [] {
      RepeatMore(d, u);
      assert [] + Repeat(d, u') == Repeat(d, u');
      ShiftsNot(d, exact, x + Repeat(d, u'));
    } else if t == d {
      assert Repeat(d, u) + [t] == [t] + Repeat(d, u);
      ShiftsNot(d, exact, x + ([t] + Repeat(d, u)));
    } else {
      ShiftsSwap(d, exact, u);
      ShiftsBehind(d, exact, x, Repeat(d, u) + [t], [t] + Repeat(d, u));
    }
  }

  /** The child with the proxy gives a message to the mailbox, where it is past the groups without proxies or
      joins what waits among them. */
  lemma Goes(d: Direction, exact: bool, m: seq<Direction>, v: nat, t: Direction, y: seq<Direction>, tag: seq<Direction>, v': nat)
    requires (tag == [t] && v' == v && (t != d || exact ==> v == 0)) || (tag == [] && t != d && v' == v + 1)
    ensures var opp := Opposite(d); Shifts(opp, exact, m + (Repeat(opp, v) + ([t] + y)), (m + tag) + (Repeat(opp, v') + y))
  {
    var opp := Opposite(d);
    Regroup(Repeat(opp, v), [t], y);
    Regroup(m, tag, Repeat(opp, v') + y);
    Regroup(tag, Repeat(opp, v'), y);
    if tag == [] {
      RepeatMore(opp, v);
      assert [] + Repeat(opp, v') == Repeat(opp, v) + [t];
      ShiftsNot(opp, exact, m + ((Repeat(opp, v) + [t]) + y));
    } else if t != d {
      assert Repeat(opp, v) + [t] == [t] + Repeat(opp, v);
      ShiftsNot(opp, exact, m + ((Repeat(opp, v) + [t]) + y));
    } else {
      ShiftsSwap(opp, exact, v);
      ShiftsBefore(opp, exact, Repeat(opp, v) + [t], [t] + Repeat(opp, v), y);
      ShiftsBehind(opp, exact, m, (Repeat(opp, v) + [t]) + y, ([t] + Repeat(opp, v)) + y);
    }
  }

  /** What waited among the groups without proxies is past them, on the way in and on the way out. */
  lemma PastGroups(e: Direction, m: seq<Direction>, tag: seq<Direction>, v: nat, y: seq<Direction>)
    requires tag == [] || tag == [e]
    ensures m + Repeat(e, v + |tag|) == (m + tag) + Repeat(e, v)
    ensures m + (Repeat(e, v + |tag|) + y) == (m + tag) + (Repeat(e, v) + y)
  {
    assert tag + Repeat(e, v) == Repeat(e, v + |tag|);
    Regroup(m, tag, Repeat(e, v));
    Regroup(m, tag, Repeat(e, v) + y);
    Regroup(tag, Repeat(e, v), y);
  }

  // ---- Conductors that change ----------------------------------------------------------------

  /** The child with the proxy. */
  function Its(d: Direction, n: Node): Kid
    requires n.Nest? && n.kids != []
  {
    n.kids[LastKid(d, n)]
  }

  lemma Silently(d: Direction, n: Node, n': Node, gives: Option<Give>)
    requires Single(d, n) && Stays(d, n, n') && Shifts(d, Pure(n), In(d, n), In(d, n'))
    requires Shifts(Opposite(d), Pure(n), Out(d, n), (if gives.Some? then [gives.value.dir] else []) + Out(d, n'))
    ensures NodeStep(d, n, None, Outcome(n', None, gives))
  {
    assert In(d, n) + [] == In(d, n) && Out(d, n) + [] == Out(d, n);
  }

  /** Neither the child nor the way in is touched, but for what has come out of the groups without proxies. */
  lemma SameIn(d: Direction, n: Node, n': Node, tag: seq<Direction>)
    requires n.Nest? && Single(d, n) && n'.Nest? && Single(d, n') && |n'.kids| == |n.kids|
    requires InKid(d, Its(d, n')) == InKid(d, Its(d, n)) && (tag == [] || tag == [d])
    requires MailIn(d, n'.mailbox, |n.kids|) == MailIn(d, n.mailbox, |n.kids|) + tag
    requires Ahead(d, n') == Ahead(d, n)
    ensures In(d, n') == In(d, n)
  {
    var u := InParts(d, n);
    var u' := InParts(d, n');
    SameComing(d, InKid(d, Its(d, n)), MailIn(d, n.mailbox, |n.kids|), tag, u, u');
  }

  lemma SameComing(e: Direction, x: seq<Direction>, c: seq<Direction>, tag: seq<Direction>, u: nat, u': nat)
    requires tag == [] || tag == [e]
    requires Count(e, x) + Count(e, c) + u == Count(e, x) + Count(e, c + tag) + u'
    ensures x + c + Repeat(e, u) == x + (c + tag) + Repeat(e, u')
  {
    MarksJoin(e, c, tag);
    OneMark(e, e);
    Regroup(x, c, tag);
    PastGroups(e, x + c, tag, u', []);
  }

  lemma SameOut(d: Direction, n: Node, n': Node, tag: seq<Direction>)
    requires n.Nest? && Single(d, n) && n'.Nest? && Single(d, n') && |n'.kids| == |n.kids|
    requires OutKid(d, Its(d, n')) == OutKid(d, Its(d, n)) && (tag == [] || tag == [Opposite(d)])
    requires MailOut(d, n'.mailbox, |n.kids|) == MailOut(d, n.mailbox, |n.kids|) + tag
    requires Behind(d, n') == Behind(d, n)
    ensures Out(d, n') == Out(d, n)
  {
    var v := OutParts(d, n);
    var v' := OutParts(d, n');
    SamePast(Opposite(d), MailOut(d, n.mailbox, |n.kids|), tag, v, v', OutKid(d, Its(d, n)));
  }

  lemma SamePast(e: Direction, m: seq<Direction>, tag: seq<Direction>, v: nat, v': nat, y: seq<Direction>)
    requires tag == [] || tag == [e]
    requires Count(e, m) + Count(e, y) + v == Count(e, m + tag) + Count(e, y) + v'
    ensures m + (Repeat(e, v) + y) == (m + tag) + (Repeat(e, v') + y)
  {
    MarksJoin(e, m, tag);
    OneMark(e, e);
    PastGroups(e, m, tag, v', y);
  }

  lemma Unmoved(d: Direction, n: Node, n': Node)
    requires Single(d, n) && Stays(d, n, n') && In(d, n') == In(d, n) && Out(d, n') == Out(d, n)
    ensures NodeStep(d, n, None, Outcome(n', None, None))
  {
    assert [] + Out(d, n') == Out(d, n');
    Silently(d, n, n', None);
  }

  /** The conductor with another child in place of that with the proxy. */
  function WithKid(d: Direction, n: Node, kid: Kid): (r: Node)
    requires n.Nest? && n.kids != []
    ensures r.Nest?
  {
    n.(kids := n.kids[LastKid(d, n) := kid])
  }

  lemma InWithKid(d: Direction, n: Node, kid: Kid, e: Option<Event>)
    requires n.Nest? && Single(d, n) && Single(d, kid.node) && Single(d, WithKid(d, n, kid))
    requires InStep(d, Pure(n), InKid(d, Its(d, n)), None, e, InKid(d, kid))
    requires Ahead(d, WithKid(d, n, kid)) + OneIf(Receives(e, d)) == Ahead(d, n)
    ensures InStep(d, Pure(n), In(d, n), None, e, In(d, WithKid(d, n, kid)))
  {
    var n', mail := WithKid(d, n, kid), MailIn(d, n.mailbox, |n.kids|);
    assert Its(d, n') == kid;
    var u := InParts(d, n);
    var u' := InParts(d, n');
    InFront(d, Pure(n), InKid(d, Its(d, n)), e, InKid(d, kid), mail + Repeat(d, u));
    Regroup(InKid(d, Its(d, n)), mail, Repeat(d, u));
    Regroup(InKid(d, kid), mail, Repeat(d, u));
  }

  lemma OutWithKid(d: Direction, n: Node, kid: Kid, e: Option<Event>)
    requires n.Nest? && Single(d, n) && Single(d, kid.node) && Single(d, WithKid(d, n, kid))
    requires OutStep(d, Pure(n), OutKid(d, Its(d, n)), e, None, OutKid(d, kid))
    requires Behind(d, WithKid(d, n, kid)) == Behind(d, n) + OneIf(Sends(e, Opposite(d)))
    ensures OutStep(d, Pure(n), Out(d, n), e, None, Out(d, WithKid(d, n, kid)))
  {
    var n', opp, mail := WithKid(d, n, kid), Opposite(d), MailOut(d, n.mailbox, |n.kids|);
    assert Its(d, n') == kid;
    var v := OutParts(d, n);
    var v' := OutParts(d, n');
    OutBehind(d, Pure(n), OutKid(d, Its(d, n)), e, OutKid(d, kid), mail + Repeat(opp, v));
    Regroup(mail, Repeat(opp, v), OutKid(d, Its(d, n)));
    Regroup(mail, Repeat(opp, v), OutKid(d, kid));
  }

  /** A conductor moves as its child with the proxy does. */
  lemma WithKidStep(d: Direction, n: Node, kid: Kid, e: Option<Event>)
    requires n.Nest? && Single(d, n) && KidStep(d, Its(d, n), e, kid)
    requires SizeStep(d, n, None, Outcome(WithKid(d, n, kid), e, None))
    ensures NodeStep(d, n, None, Outcome(WithKid(d, n, kid), e, None))
  {
    PureKid(d, n);
    InWithKid(d, n, kid, e);
    OutWithKid(d, n, kid, e);
  }

  lemma PureKid(d: Direction, n: Node)
    requires n.Nest? && Single(d, n)
    ensures Pure(n) ==> Pure(Its(d, n).node)
  {
  }

  /** The other children have no part in what passes. */
  lemma OtherKid(d: Direction, n: Node, j: nat, kid: Kid)
    requires n.Nest? && Single(d, n) && j < |n.kids| && j != LastKid(d, n) && Leaves(kid.node) == 0
    requires SizeStep(d, n, None, Outcome(n.(kids := n.kids[j := kid]), None, None))
    ensures NodeStep(d, n, None, Outcome(n.(kids := n.kids[j := kid]), None, None))
  {
    var n', k := n.(kids := n.kids[j := kid]), |n.kids|;
    assert Its(d, n') == Its(d, n);
    assert MailIn(d, n.mailbox, k) + [] == MailIn(d, n.mailbox, k) && MailOut(d, n.mailbox, k) + [] == MailOut(d, n.mailbox, k);
    SameIn(d, n, n', []);
    SameOut(d, n, n', []);
    Unmoved(d, n, n');
  }

  // ---- Taking --------------------------------------------------------------------------------

  function EntryOf(g: Give): Routed {
    if g.dir == Rightward then LeftToRight(0, g.m) else RightToLeft(FromSuccessor, g.m)
  }

  lemma TakeSteps(d: Direction, n: Node, g: Give)
    requires n.Nest? && Single(d, n)
    ensures NodeStep(d, n, Some(g), ApplyTake(n, g))
  {
    var n' := n.(mailbox := n.mailbox + [EntryOf(g)]);
    OneLeaf(d, n);
    TakeRespects(d, n, g);
    TakeRespects(Opposite(d), n, g);
    assert ApplyTake(n, g) == Outcome(n', None, None);
    GapSizes(d, n, Some(g), Outcome(n', None, None));
    TakenTo(d, n, g, n');
  }

  lemma TakenTo(d: Direction, n: Node, g: Give, n': Node)
    requires n.Nest? && Single(d, n) && n' == n.(mailbox := n.mailbox + [EntryOf(g)])
    requires SizeStep(d, n, Some(g), Outcome(n', None, None))
    ensures NodeStep(d, n, Some(g), Outcome(n', None, None))
  {
    var k, entry := |n.kids|, EntryOf(g);
    assert Its(d, n') == Its(d, n);
    MailTagsMore(d, n.mailbox, entry, k, k - 1, 0);
    MailTagsMore(d, n.mailbox, entry, k, k, k);
    TakeIn(d, n, g, n', MailTag(d, entry, k, k - 1, 0));
    SameOut(d, n, n', []);
    assert Out(d, n) + [] == Out(d, n) == [] + Out(d, n);
  }

  lemma TakeIn(d: Direction, n: Node, g: Give, n': Node, tag: seq<Direction>)
    requires n.Nest? && Single(d, n) && n'.Nest? && Single(d, n') && |n'.kids| == |n.kids| && Its(d, n') == Its(d, n)
    requires MailIn(d, n'.mailbox, |n.kids|) == MailIn(d, n.mailbox, |n.kids|) + tag
    requires tag == if g.dir == d && |n.kids| > 1 then [] else [g.dir]
    requires Ahead(d, n') == Ahead(d, n) + OneIf(g.dir == d)
    ensures Shifts(d, Pure(n), In(d, n) + [g.dir], In(d, n'))
  {
    var u := InParts(d, n);
    var u' := InParts(d, n');
    var x, c := InKid(d, Its(d, n)), MailIn(d, n.mailbox, |n.kids|);
    MarksJoin(d, c, tag);
    OneMark(d, g.dir);
    Regroup(x, c, tag);
    Comes(d, Pure(n), x + c, u, g.dir, tag, u');
  }

  // ---- Pumping -------------------------------------------------------------------------------

  function TagOf(r: Routed): Direction { if r.LeftToRight? then Rightward else Leftward }

  /** The conductor after its child `j` has given its oldest message to the mailbox. */
  function Pumped(n: Node, j: nat): Node
    requires n.Nest? && j < |n.kids| && n.kids[j].up != [] && !IsCall(n.kids[j].up[0], METHOD_INITIALIZE_PROXY)
  {
    Nest(n.ready, n.kids[j := n.kids[j].(up := n.kids[j].up[1..])], n.mailbox + [EntryFor(j, n.kids[j].up[0])])
  }

  lemma PumpSteps(d: Direction, n: Node, j: nat)
    requires n.Nest? && Single(d, n) && ApplyPump(n, j).Some?
    ensures NodeStep(d, n, None, ApplyPump(n, j).value)
  {
    OneLeaf(d, n);
    PumpRespects(d, n, j);
    PumpRespects(Opposite(d), n, j);
    assert ApplyPump(n, j).value == Outcome(Pumped(n, j), None, None);
    GapSizes(d, n, None, Outcome(Pumped(n, j), None, None));
    if j == LastKid(d, n) {
      PumpLast(d, n, j, n.kids[j].(up := n.kids[j].up[1..]), EntryFor(j, n.kids[j].up[0]), Pumped(n, j));
    } else {
      PumpOther(d, n, j, n.kids[j].(up := n.kids[j].up[1..]), EntryFor(j, n.kids[j].up[0]), Pumped(n, j));
    }
  }

  /** The child with the proxy gives its oldest message to the mailbox. */
  lemma PumpLast(d: Direction, n: Node, i: nat, kid': Kid, entry: Routed, n': Node)
    requires n.Nest? && Single(d, n) && i == LastKid(d, n) && n.kids[i].up != []
    requires !IsCall(n.kids[i].up[0], METHOD_INITIALIZE_PROXY) && entry == EntryFor(i, n.kids[i].up[0])
    requires kid' == n.kids[i].(up := n.kids[i].up[1..]) && n' == Nest(n.ready, n.kids[i := kid'], n.mailbox + [entry])
    requires SizeStep(d, n, None, Outcome(n', None, None))
    ensures NodeStep(d, n, None, Outcome(n', None, None))
  {
    var k := |n.kids|;
    assert Its(d, n') == kid';
    MailTagsMore(d, n.mailbox, entry, k, k - 1, 0);
    MailTagsMore(d, n.mailbox, entry, k, k, k);
    PumpTags(d, i, k, n.kids[i], kid', entry);
    SameIn(d, n, n', []);
    PumpedOut(d, n, n', TagOf(entry), MailTag(d, entry, k, k, k));
    Silently(d, n, n', None);
  }

  lemma PumpTags(d: Direction, i: nat, k: nat, kid: Kid, kid': Kid, entry: Routed)
    requires i < k && i == Place(d, k, k - 1) && Single(d, kid.node) && kid.up != [] && kid' == kid.(up := kid.up[1..])
    requires !IsCall(kid.up[0], METHOD_INITIALIZE_PROXY) && entry == EntryFor(i, kid.up[0])
    ensures InKid(d, kid') == InKid(d, kid)
    ensures OutKid(d, kid) == [TagOf(entry)] + OutKid(d, kid')
    ensures MailTag(d, entry, k, k - 1, 0) == []
    ensures MailTag(d, entry, k, k, k) == if TagOf(entry) != d && k > 1 then [] else [TagOf(entry)]
  {
    UpLess(kid.up);
    Regroup([TagOf(entry)], TagsUp(kid'.up), Out(d, kid.node));
  }

  lemma PumpedOut(d: Direction, n: Node, n': Node, t: Direction, tag: seq<Direction>)
    requires n.Nest? && Single(d, n) && n'.Nest? && Single(d, n') && |n'.kids| == |n.kids|
    requires MailOut(d, n'.mailbox, |n.kids|) == MailOut(d, n.mailbox, |n.kids|) + tag
    requires tag == if t != d && |n.kids| > 1 then [] else [t]
    requires OutKid(d, Its(d, n)) == [t] + OutKid(d, Its(d, n'))
    requires Behind(d, n') == Behind(d, n)
    ensures Shifts(Opposite(d), Pure(n), Out(d, n), [] + Out(d, n'))
  {
    var opp, y, m := Opposite(d), OutKid(d, Its(d, n')), MailOut(d, n.mailbox, |n.kids|);
    var v := OutParts(d, n);
    var v' := OutParts(d, n');
    MarksJoin(opp, m, tag);
    MarksJoin(opp, [t], y);
    OneMark(opp, t);
    Goes(d, Pure(n), m, v, t, y, tag, v');
    assert [] + Out(d, n') == Out(d, n');
  }

  /** Another child does: what comes out of the groups without proxies is past them. */
  lemma PumpOther(d: Direction, n: Node, j: nat, kid': Kid, entry: Routed, n': Node)
    requires n.Nest? && Single(d, n) && j < |n.kids| && j != LastKid(d, n) && n.kids[j].up != []
    requires !IsCall(n.kids[j].up[0], METHOD_INITIALIZE_PROXY) && entry == EntryFor(j, n.kids[j].up[0])
    requires kid' == n.kids[j].(up := n.kids[j].up[1..]) && n' == Nest(n.ready, n.kids[j := kid'], n.mailbox + [entry])
    requires SizeStep(d, n, None, Outcome(n', None, None))
    ensures NodeStep(d, n, None, Outcome(n', None, None))
  {
    var k := |n.kids|;
    assert Its(d, n') == Its(d, n);
    MailTagsMore(d, n.mailbox, entry, k, k - 1, 0);
    MailTagsMore(d, n.mailbox, entry, k, k, k);
    PumpOtherTags(d, j, k, n.kids[j].up[0]);
    SameIn(d, n, n', MailTag(d, entry, k, k - 1, 0));
    SameOut(d, n, n', MailTag(d, entry, k, k, k));
    Unmoved(d, n, n');
  }

  lemma PumpOtherTags(d: Direction, j: nat, k: nat, w: Wire)
    requires j < k && j != Place(d, k, k - 1) && !IsCall(w, METHOD_INITIALIZE_PROXY)
    ensures MailTag(d, EntryFor(j, w), k, k - 1, 0) == [] || MailTag(d, EntryFor(j, w), k, k - 1, 0) == [d]
    ensures MailTag(d, EntryFor(j, w), k, k, k) == [] || MailTag(d, EntryFor(j, w), k, k, k) == [Opposite(d)]
  {
  }

  // ---- Routing -------------------------------------------------------------------------------

  /** The oldest entry of the mailbox leaves the conductor. */
  lemma RouteGives(d: Direction, n: Node, n': Node, g: Give)
    requires n.Nest? && Single(d, n) && n.mailbox != [] && n' == n.(mailbox := n.mailbox[1..])
    requires g.dir == TagOf(n.mailbox[0]) && WaitsAt(g.dir, |n.kids|, |n.kids|, n.mailbox[0])
    requires SizeStep(d, n, None, Outcome(n', None, Some(g)))
    ensures NodeStep(d, n, None, Outcome(n', None, Some(g)))
  {
    var k := |n.kids|;
    assert Its(d, n') == Its(d, n);
    assert MailIn(d, n.mailbox, k) == [] + MailIn(d, n'.mailbox, k) == MailIn(d, n'.mailbox, k);
    assert MailIn(d, n.mailbox, k) + [] == MailIn(d, n.mailbox, k);
    assert MailOut(d, n.mailbox, k) == [g.dir] + MailOut(d, n'.mailbox, k);
    SameIn(d, n, n', []);
    GivenOut(d, n, n', g.dir);
    Silently(d, n, n', Some(g));
  }

  lemma GivenOut(d: Direction, n: Node, n': Node, t: Direction)
    requires n.Nest? && Single(d, n) && n'.Nest? && Single(d, n') && |n'.kids| == |n.kids| && Its(d, n') == Its(d, n)
    requires MailOut(d, n.mailbox, |n.kids|) == [t] + MailOut(d, n'.mailbox, |n.kids|)
    requires Behind(d, n') + OneIf(t == Opposite(d)) == Behind(d, n)
    ensures Out(d, n) == [t] + Out(d, n')
  {
    var v := OutParts(d, n);
    var v' := OutParts(d, n');
    Given(Opposite(d), t, MailOut(d, n'.mailbox, |n.kids|), v, v', OutKid(d, Its(d, n)));
  }

  lemma Given(e: Direction, t: Direction, m: seq<Direction>, v: nat, v': nat, y: seq<Direction>)
    requires Count(e, m) + Count(e, y) + v' + OneIf(t == e) == Count(e, [t] + m) + Count(e, y) + v
    ensures ([t] + m) + (Repeat(e, v) + y) == [t] + (m + (Repeat(e, v') + y))
  {
    MarksJoin(e, [t], m);
    OneMark(e, t);
    Regroup([t], m, Repeat(e, v) + y);
  }

  /** The node after its oldest entry has gone to child `j`. */
  function Routed1(n: Node, j: nat, w: DownWire): Node
    requires n.Nest? && n.mailbox != [] && j < |n.kids|
  {
    PushDown(n.(mailbox := n.mailbox[1..]), j, w)
  }

  /** It goes to the child with the proxy. */
  lemma RouteLast(d: Direction, n: Node, w: DownWire, n': Node)
    requires n.Nest? && Single(d, n) && n.mailbox != [] && n' == Routed1(n, LastKid(d, n), w)
    requires var t, k := TagOf(n.mailbox[0]), |n.kids|;
      OffLinkDown(w).dir == t && WaitsAt(t, k, if t == d then k - 1 else 0, n.mailbox[0])
    requires SizeStep(d, n, None, Outcome(n', None, None))
    ensures NodeStep(d, n, None, Outcome(n', None, None))
  {
    var t, k := TagOf(n.mailbox[0]), |n.kids|;
    assert Its(d, n') == Its(d, n).(down := Its(d, n).down + [w]);
    DownMore(Its(d, n).down, w);
    Regroup(In(d, Its(d, n).node), TagsDown(Its(d, n).down), [t]);
    assert MailIn(d, n.mailbox, k) == [t] + MailIn(d, n'.mailbox, k);
    assert MailOut(d, n.mailbox, k) == [] + MailOut(d, n'.mailbox, k) == MailOut(d, n'.mailbox, k);
    assert MailOut(d, n.mailbox, k) + [] == MailOut(d, n.mailbox, k);
    LandedIn(d, n, n', t);
    SameOut(d, n, n', []);
    Unmoved(d, n, n');
  }

  lemma LandedIn(d: Direction, n: Node, n': Node, t: Direction)
    requires n.Nest? && Single(d, n) && n'.Nest? && Single(d, n') && |n'.kids| == |n.kids|
    requires MailIn(d, n.mailbox, |n.kids|) == [t] + MailIn(d, n'.mailbox, |n.kids|)
    requires InKid(d, Its(d, n')) == InKid(d, Its(d, n)) + [t]
    requires Ahead(d, n') == Ahead(d, n)
    ensures In(d, n') == In(d, n)
  {
    var x, c := InKid(d, Its(d, n)), MailIn(d, n'.mailbox, |n.kids|);
    var u := InParts(d, n);
    var u' := InParts(d, n');
    MarksJoin(d, [t], c);
    MarksJoin(d, x, [t]);
    Regroup(x, [t], c);
  }

  /** It goes to another child. */
  lemma RouteOther(d: Direction, n: Node, j: nat, w: DownWire, n': Node)
    requires n.Nest? && Single(d, n) && n.mailbox != [] && j < |n.kids| && j != LastKid(d, n) && n' == Routed1(n, j, w)
    requires var t, k := TagOf(n.mailbox[0]), |n.kids|; WaitsAt(t, k, PlaceOf(t, k, j), n.mailbox[0])
    requires SizeStep(d, n, None, Outcome(n', None, None))
    ensures NodeStep(d, n, None, Outcome(n', None, None))
  {
    var k := |n.kids|;
    assert Its(d, n') == Its(d, n);
    assert MailIn(d, n.mailbox, k) == [] + MailIn(d, n'.mailbox, k) == MailIn(d, n'.mailbox, k);
    assert MailOut(d, n.mailbox, k) == [] + MailOut(d, n'.mailbox, k) == MailOut(d, n'.mailbox, k);
    assert MailIn(d, n.mailbox, k) + [] == MailIn(d, n.mailbox, k) && MailOut(d, n.mailbox, k) + [] == MailOut(d, n.mailbox, k);
    SameIn(d, n, n', []);
    SameOut(d, n, n', []);
    Unmoved(d, n, n');
  }

  lemma RouteSteps(d: Direction, schema: Schema, n: Node)
    requires n.Nest? && Single(d, n) && n.mailbox != [] && RouteEntry(schema, n).Some?
    ensures NodeStep(d, n, None, RouteEntry(schema, n).value)
  {
    var o := RouteEntry(schema, n).value;
    OneLeaf(d, n);
    RouteRespects(d, schema, n);
    RouteRespects(Opposite(d), schema, n);
    GapSizes(d, n, None, o);
    RoutesTo(d, schema, n, o);
  }

  lemma RoutesTo(d: Direction, schema: Schema, n: Node, o: Outcome)
    requires n.Nest? && Single(d, n) && n.mailbox != [] && RouteEntry(schema, n) == Some(o) && SizeStep(d, n, None, o)
    ensures NodeStep(d, n, None, o)
  {
    var k, r := |n.kids|, n.mailbox[0];
    if o.gives.Some? {
      RouteGives(d, n, o.node, o.gives.value);
    } else {
      var j := match r case LeftToRight(target, _) => target case RightToLeft(source, _) => SourceIndex(k, source) - 1;
      var w := match r case LeftToRight(_, m) => OnLinkDown(schema, m).value case RightToLeft(_, m) => Wrap(m);
      UnwrapWrap(r.m);
      if j == LastKid(d, n) {
        RouteLast(d, n, w, o.node);
      } else {
        RouteOther(d, n, j, w, o.node);
      }
    }
  }

  // ---- Every move ----------------------------------------------------------------------------

  /** A child after it has taken the oldest message off its link. */
  function Fed(kid: Kid): Kid
    requires kid.down != []
  {
    Kid(ApplyTake(kid.node, OffLinkDown(kid.down[0])).node, kid.down[1..], kid.up)
  }

  lemma KidFeeds(d: Direction, kid: Kid)
    requires Single(d, kid.node) && kid.down != []
    ensures KidStep(d, kid, ApplyTake(kid.node, OffLinkDown(kid.down[0])).event, Fed(kid))
  {
    var g := OffLinkDown(kid.down[0]);
    DownLess(kid.down);
    assert TagsUp(kid.up) + Out(d, kid.node) + [] == TagsUp(kid.up) + Out(d, kid.node);
    if kid.node.Leaf? {
      LeafParts(d);
      LeafFeeds(d, kid, g);
    } else {
      TakeSteps(d, kid.node, g);
      NestFeeds(d, kid, g, ApplyTake(kid.node, g).node);
    }
  }

  lemma LeafFeeds(d: Direction, kid: Kid, g: Give)
    requires kid.node.Leaf? && kid.down != [] && g == OffLinkDown(kid.down[0])
    requires In(d, Leaf) == [] && Out(d, Leaf) == []
    ensures KidStep(d, kid, Some(Received(0, g.dir, g.m)), Kid(Leaf, kid.down[1..], kid.up))
  {
    var rest := TagsDown(kid.down[1..]);
    DownLess(kid.down);
    assert InKid(d, kid) == [g.dir] + rest && InKid(d, kid) + [] == [g.dir] + rest;
    assert ([g.dir] + rest)[1..] == rest;
    var kid' := Kid(Leaf, kid.down[1..], kid.up);
    assert InKid(d, kid') == rest;
    ShiftsNot(d, true, rest);
    ShiftsNot(Opposite(d), true, OutKid(d, kid));
    assert OutKid(d, kid) + [] == [] + OutKid(d, kid') == OutKid(d, kid);
  }

  lemma NestFeeds(d: Direction, kid: Kid, g: Give, node: Node)
    requires kid.node.Nest? && Single(d, kid.node) && kid.down != [] && g == OffLinkDown(kid.down[0])
    requires NodeStep(d, kid.node, Some(g), Outcome(node, None, None))
    ensures KidStep(d, kid, None, Kid(node, kid.down[1..], kid.up))
  {
    var exact, rest, kid' := Pure(kid.node), TagsDown(kid.down[1..]), Kid(node, kid.down[1..], kid.up);
    DownLess(kid.down);
    Regroup(In(d, kid.node), [g.dir], rest);
    ShiftsBefore(d, exact, In(d, kid.node) + [g.dir], In(d, node), rest);
    assert InKid(d, kid) + [] == InKid(d, kid);
    assert Out(d, kid.node) + [] == Out(d, kid.node) && [] + Out(d, node) == Out(d, node);
    ShiftsBehind(Opposite(d), exact, TagsUp(kid.up), Out(d, kid.node), Out(d, node));
    assert OutKid(d, kid) + [] == OutKid(d, kid) && [] + OutKid(d, kid') == OutKid(d, kid');
  }

  /** A child after it has moved by itself. */
  function Moved(kid: Kid, o: Outcome): Kid {
    Kid(o.node, kid.down, if o.gives.Some? then kid.up + [ToLinkUp(o.gives.value)] else kid.up)
  }

  lemma KidMoves(d: Direction, kid: Kid, o: Outcome)
    requires Single(d, kid.node) && NodeStep(d, kid.node, None, o)
    ensures KidStep(d, kid, o.event, Moved(kid, o))
  {
    var exact, kid' := Pure(kid.node), Moved(kid, o);
    InFront(d, exact, In(d, kid.node), o.event, In(d, o.node), TagsDown(kid.down));
    var given := if o.gives.Some? then [o.gives.value.dir] else [];
    var sent := if o.event.Some? && o.event.value.Sent? then [o.event.value.dir] else [];
    if o.gives.Some? {
      UpMore(kid.up, o.gives.value);
    } else {
      assert TagsUp(kid.up) + [] == TagsUp(kid.up);
    }
    assert TagsUp(kid'.up) == TagsUp(kid.up) + given;
    Regroup(TagsUp(kid.up), given, Out(d, o.node));
    Regroup(TagsUp(kid.up), Out(d, kid.node), sent);
    ShiftsBehind(Opposite(d), exact, TagsUp(kid.up), Out(d, kid.node) + sent, given + Out(d, o.node));
    assert [] + OutKid(d, kid') == OutKid(d, kid');
  }

  lemma NoneBefore(d: Direction, n: Node)
    requires n.Nest? && Single(d, n)
    ensures LeavesOf(n.kids[..LastKid(d, n)]) == 0
  {
    NoLeaves(n.kids[..LastKid(d, n)]);
  }

  lemma Unshifted(e: Option<Event>)
    ensures ShiftEvent(e, 0) == e
  {
  }

  lemma FeedSteps(d: Direction, n: Node, i: nat)
    requires n.Nest? && Single(d, n) && ApplyFeed(n, i).Some?
    ensures NodeStep(d, n, None, ApplyFeed(n, i).value)
  {
    var o, taken := ApplyFeed(n, i).value, ApplyTake(n.kids[i].node, OffLinkDown(n.kids[i].down[0]));
    OneLeaf(d, n);
    FeedRespects(d, n, i);
    FeedRespects(Opposite(d), n, i);
    GapSizes(d, n, None, o);
    if i == LastKid(d, n) {
      NoneBefore(d, n);
      Unshifted(taken.event);
      KidFeeds(d, n.kids[i]);
      WithKidStep(d, n, Fed(n.kids[i]), taken.event);
    } else {
      TakeRespects(d, n.kids[i].node, OffLinkDown(n.kids[i].down[0]));
      OtherKid(d, n, i, Fed(n.kids[i]));
    }
  }

  lemma InsideSteps(d: Direction, schema: Schema, n: Node, i: nat, sub: Move)
    requires n.Nest? && Single(d, n) && Apply(schema, n, Inside(i, sub)).Some?
    requires i == LastKid(d, n) ==> NodeStep(d, n.kids[i].node, None, Apply(schema, n.kids[i].node, sub).value)
    ensures NodeStep(d, n, None, Apply(schema, n, Inside(i, sub)).value)
  {
    var o, inner := Apply(schema, n, Inside(i, sub)).value, Apply(schema, n.kids[i].node, sub).value;
    OneLeaf(d, n);
    MoveRespects(d, schema, n, Inside(i, sub));
    MoveRespects(Opposite(d), schema, n, Inside(i, sub));
    GapSizes(d, n, None, o);
    if i == LastKid(d, n) {
      NoneBefore(d, n);
      Unshifted(inner.event);
      KidMoves(d, n.kids[i], inner);
      WithKidStep(d, n, Moved(n.kids[i], inner), inner.event);
    } else {
      MoveRespects(d, schema, n.kids[i].node, sub);
      OtherKid(d, n, i, Moved(n.kids[i], inner));
    }
  }

  lemma LeafSteps(d: Direction, g: Give)
    ensures NodeStep(d, Leaf, None, Outcome(Leaf, Some(Sent(0, g.dir, g.m)), Some(g)))
  {
    LeafParts(d);
    var nothing: seq<Direction> := [];
    assert nothing + nothing == nothing && nothing + [g.dir] == [g.dir] + nothing;
    ShiftsNot(d, true, nothing);
    ShiftsNot(Opposite(d), true, [g.dir] + nothing);
  }

  /** Every move of a node with one proxy. */
  lemma {:induction false} NodeMoves(d: Direction, schema: Schema, n: Node, mv: Move)
    requires Single(d, n) && !mv.Take? && Apply(schema, n, mv).Some?
    ensures NodeStep(d, n, None, Apply(schema, n, mv).value)
    decreases mv
  {
    match mv
    case LeafSends(dir, m) => LeafSteps(d, Give(dir, m));
    case Pump(i) => PumpSteps(d, n, i);
    case Route => RouteSteps(d, schema, n);
    case Feed(i) => FeedSteps(d, n, i);
    case Inside(i, sub) =>
      if i == LastKid(d, n) {
        NodeMoves(d, schema, n.kids[i].node, sub);
      }
      InsideSteps(d, schema, n, i, sub);
    case _ =>
  }
}
