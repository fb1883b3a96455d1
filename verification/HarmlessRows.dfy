// What passes through a chain of harmless groups, in the directions of its messages only, is what a row of places
// can do.

module HarmlessRows {
  import opened Outcomes
  import opened ProxyTree
  import opened ChainSafety
  import opened Rows
  import opened Delays

  /** For each of the proxies, what is on its way in to it from its neighbours and out of it to them, as far as the
      conductor that holds all proxies is concerned; and how much is in flight, in each direction, to the first
      proxy and from the last. */
  datatype Flow = Flow(ins: seq<seq<Direction>>, outs: seq<seq<Direction>>,
                       comingR: nat, comingL: nat, leavingR: nat, leavingL: nat)

  function Coming(f: Flow, d: Direction): nat { if d == Rightward then f.comingR else f.comingL }
  function Going(f: Flow, d: Direction): nat { if d == Rightward then f.leavingR else f.leavingL }

  /** The place from which direction `d` starts, and the proxy next to it. */
  function Start(d: Direction, n: nat): nat { if d == Rightward then 0 else n + 1 }
  function Edge(d: Direction, n: nat): nat { if d == Rightward || n == 0 then 0 else n - 1 }

  predicate Interior(n: nat, j: nat) { 0 < j && j + 1 < n }

  /** The direction that starts at the end proxy `j` is next to. */
  function DirOf(j: nat): Direction { if j == 0 then Rightward else Leftward }

  datatype Change =
    | Calm
    | Acts(e: Event)                     // the place does what the event says
    | Crosses(p: nat, t: Direction)      // a message of place `p` passes the conductor that holds all proxies

  /** Place `at` sends, or receives, a message travelling in direction `d`. */
  predicate SendsAt(c: Change, at: nat, d: Direction) { c.Acts? && c.e.Sent? && c.e.at == at && c.e.dir == d }
  predicate ReceivesAt(c: Change, at: nat, d: Direction) { c.Acts? && c.e.Received? && c.e.at == at && c.e.dir == d }

  ghost predicate FlowAt(n: nat, f: Flow, c: Change, f': Flow, j: nat)
    requires j < n == |f.ins| == |f.outs| == |f'.ins| == |f'.outs|
  {
    var d, exact := DirOf(j), Interior(n, j);
    if c.Crosses? then
      && (if c.p == j + 1 then f.outs[j] == [c.t] + f'.outs[j] else f'.outs[j] == f.outs[j])
      && f'.ins[j] == f.ins[j] + if HasNext(n + 2, c.p, c.t) && Next(c.p, c.t) == j + 1 then [c.t] else []
    else
      var mine := c.Acts? && c.e.at == j + 1;
      && (if mine && c.e.Received? then
            f.ins[j] != [] && f.ins[j][0] == c.e.dir && Shifts(d, exact, f.ins[j][1..], f'.ins[j])
          else Shifts(d, exact, f.ins[j], f'.ins[j]))
      && Shifts(Opposite(d), exact, if mine && c.e.Sent? then f.outs[j] + [c.e.dir] else f.outs[j], f'.outs[j])
  }

  ghost predicate FlowStep(n: nat, f: Flow, c: Change, f': Flow) {
    && n == |f.ins| == |f.outs| == |f'.ins| == |f'.outs|
    && (forall j {:trigger FlowAt(n, f, c, f', j)} :: 0 <= j < n ==> FlowAt(n, f, c, f', j))
    && FlowSizes(n, f, c, f', Rightward) && FlowSizes(n, f, c, f', Leftward)
  }

  predicate FlowSizes(n: nat, f: Flow, c: Change, f': Flow, d: Direction) {
    && Coming(f', d) + OneIf(ReceivesAt(c, Edge(d, n) + 1, d)) == Coming(f, d) + OneIf(SendsAt(c, Start(d, n), d))
    && Going(f', d) + OneIf(ReceivesAt(c, Start(Opposite(d), n), d)) == Going(f, d) + OneIf(SendsAt(c, Edge(Opposite(d), n) + 1, d))
  }

  /** What is on its way to the end proxies, and from them to the ends, is in flight there. */
  predicate Sound(n: nat, f: Flow)
    requires n == |f.ins| == |f.outs|
  {
    n >= 2 && SoundAt(n, f, Rightward) && SoundAt(n, f, Leftward)
  }

  predicate SoundAt(n: nat, f: Flow, d: Direction)
    requires n == |f.ins| == |f.outs| && n >= 2
  {
    && Count(d, f.ins[Edge(d, n)]) <= Coming(f, d)
    && Count(Opposite(d), f.outs[Edge(d, n)]) <= Going(f, Opposite(d))
  }

  // ---- The rows that follow ------------------------------------------------------------------

  /** What proxy `j` of the row has sent that has not left it: what is sent to the ends leaves at once. */
  ghost predicate KeptAt(n: nat, f: Flow, up: seq<seq<Direction>>, j: nat)
    requires j < n == |up| == |f.outs|
  {
    if Interior(n, j) then up[j] == f.outs[j]
    else Sooner(Opposite(DirOf(j)), up[j], f.outs[j]) && (up[j] == [] || up[j][0] == DirOf(j))
  }

  ghost predicate Kept(n: nat, f: Flow, up: seq<seq<Direction>>) {
    && n == |up| == |f.outs|
    && forall j {:trigger KeptAt(n, f, up, j)} :: 0 <= j < n ==> KeptAt(n, f, up, j)
  }

  /** What may have come for proxy `j` of the row: what comes from the ends may have come late, or not yet. */
  ghost predicate MayComeAt(n: nat, f: Flow, down: seq<seq<Direction>>, j: nat)
    requires j < n == |down| == |f.ins|
  {
    if Interior(n, j) then down[j] == f.ins[j]
    else Early(DirOf(j), down[j], f.ins[j]) && Count(DirOf(j), down[j]) <= Coming(f, DirOf(j))
  }

  ghost predicate MayCome(n: nat, f: Flow, down: seq<seq<Direction>>) {
    && n == |down| == |f.ins|
    && forall j {:trigger MayComeAt(n, f, down, j)} :: 0 <= j < n ==> MayComeAt(n, f, down, j)
  }

  /** The row with these queues for the proxies, and what remains for the client and the agent. */
  function RowFor(n: nat, down: seq<seq<Direction>>, up: seq<seq<Direction>>, f: Flow): (r: Row<Direction>)
    requires n == |down| == |up| && n >= 2
    ensures Fits(n + 2, r)
  {
    Row(seq(n + 2, p requires 0 <= p < n + 2 =>
          if p == 0 then Repeat(Leftward, Less(f.leavingL, Count(Leftward, up[0])))
          else if p == n + 1 then Repeat(Rightward, Less(f.leavingR, Count(Rightward, up[n - 1])))
          else down[p - 1]),
        seq(n + 2, p requires 0 <= p < n + 2 =>
          if p == 0 then Repeat(Rightward, Less(f.comingR, Count(Rightward, down[0])))
          else if p == n + 1 then Repeat(Leftward, Less(f.comingL, Count(Leftward, down[n - 1])))
          else up[p - 1]))
  }

  /** Whatever may have come, a row shows these events and ends so. */
  ghost predicate AllGot(n: nat, f: Flow, up: seq<seq<Direction>>, events: seq<Event>)
    requires n == |up| && n >= 2
  {
    forall down {:trigger MayCome(n, f, down)} :: MayCome(n, f, down) ==> Gets(n + 2, events, RowFor(n, down, up, f))
  }

  ghost predicate Follows(n: nat, f: Flow, events: seq<Event>)
    requires n >= 2
  {
    exists up {:trigger Kept(n, f, up)} :: Kept(n, f, up) && AllGot(n, f, up, events)
  }

  // ---- Passing several messages on -----------------------------------------------------------

  lemma {:induction false} PassRun(places: nat, events: seq<Event>, r: Row<Direction>, at: nat, t: Direction, k: nat,
                                   rest: seq<Direction>)
    requires Gets(places, events, r) && Fits(places, r) && HasNext(places, at, t) && r.up[at] == Repeat(t, k) + rest
    ensures var q := Next(at, t); Gets(places, events, Row(r.down[q := r.down[q] + Repeat(t, k)], r.up[at := rest]))
    decreases k
  {
    var q := Next(at, t);
    if k == 0 {
      assert Repeat(t, 0) + rest == rest && r.down[q] + Repeat(t, 0) == r.down[q];
      SameRow(r, Row(r.down[q := r.down[q] + Repeat(t, k)], r.up[at := rest]));
    } else {
      RepeatMore(t, k - 1);
      var mid := Passed(r, at, t);
      assert r.up[at] == [t] + (Repeat(t, k - 1) + rest);
      GetsOn(places, events, r, Moves(at), mid);
      assert mid.up[at] == Repeat(t, k - 1) + rest;
      PassRun(places, events, mid, at, t, k - 1, rest);
      assert mid.down[q] + Repeat(t, k - 1) == r.down[q] + Repeat(t, k);
      SameRow(Row(mid.down[q := mid.down[q] + Repeat(t, k - 1)], mid.up[at := rest]),
              Row(r.down[q := r.down[q] + Repeat(t, k)], r.up[at := rest]));
    }
  }

  lemma RunJoin(d: Direction, a: nat, b: nat)
    ensures Repeat(d, a) + Repeat(d, b) == Repeat(d, a + b)
  {
  }

  lemma EndQueues(n: nat, down: seq<seq<Direction>>, up: seq<seq<Direction>>, f: Flow)
    requires n == |down| == |up| && n >= 2
    ensures var r := RowFor(n, down, up, f);
      && r.down[0] == Repeat(Leftward, Less(f.leavingL, Count(Leftward, up[0])))
      && r.down[n + 1] == Repeat(Rightward, Less(f.leavingR, Count(Rightward, up[n - 1])))
      && r.up[0] == Repeat(Rightward, Less(f.comingR, Count(Rightward, down[0])))
      && r.up[n + 1] == Repeat(Leftward, Less(f.comingL, Count(Leftward, down[n - 1])))
      && forall p :: 0 < p < n + 1 ==> r.down[p] == down[p - 1] && r.up[p] == up[p - 1]
  {
  }

  /** What the row has at the end next to proxy `j`. */
  lemma RowEnds(n: nat, down: seq<seq<Direction>>, up: seq<seq<Direction>>, f: Flow, j: nat)
    requires n == |down| == |up| && n >= 2 && j < n && !Interior(n, j)
    ensures var d, a, r := DirOf(j), Opposite(DirOf(j)), RowFor(n, down, up, f);
      && HasNext(n + 2, j + 1, a) && Next(j + 1, a) == Start(d, n) && HasNext(n + 2, Start(d, n), d) && Next(Start(d, n), d) == j + 1
      && r.down[Start(d, n)] == Repeat(a, Less(Going(f, a), Count(a, up[j])))
      && r.up[Start(d, n)] == Repeat(d, Less(Coming(f, d), Count(d, down[j])))
      && r.down[j + 1] == down[j] && r.up[j + 1] == up[j]
  {
  }

  /** Two rows with the same queues for the proxies are the same but for the end where more or less is in flight. */
  lemma ElseSame(n: nat, down: seq<seq<Direction>>, up: seq<seq<Direction>>, f: Flow, f': Flow, d: Direction)
    requires n == |down| == |up| && n >= 2
    requires Coming(f', Opposite(d)) == Coming(f, Opposite(d)) && Going(f', d) == Going(f, d)
    ensures var r, r' := RowFor(n, down, up, f), RowFor(n, down, up, f');
      forall p :: 0 <= p < n + 2 && p != Start(d, n) ==> r.down[p] == r'.down[p] && r.up[p] == r'.up[p]
  {
  }

  /** An end proxy's first messages for the end leave it. */
  lemma Flushes(n: nat, down: seq<seq<Direction>>, up: seq<seq<Direction>>, f: Flow, events: seq<Event>, j: nat, k: nat,
                rest: seq<Direction>)
    requires n == |down| == |up| && n >= 2 && j < n && !Interior(n, j)
    requires Gets(n + 2, events, RowFor(n, down, up, f))
    requires up[j] == Repeat(Opposite(DirOf(j)), k) + rest
    requires Count(Opposite(DirOf(j)), up[j]) <= Going(f, Opposite(DirOf(j)))
    ensures Gets(n + 2, events, RowFor(n, down, up[j := rest], f))
  {
    var a, r := Opposite(DirOf(j)), RowFor(n, down, up, f);
    PassRun(n + 2, events, r, j + 1, a, k, rest);
    MarksJoin(a, Repeat(a, k), rest);
    MarksRepeat(a, a, k);
    var q := Next(j + 1, a);
    RunJoin(a, Less(Going(f, a), Count(a, up[j])), k);
    RowEnds(n, down, up, f, j);
    RowEnds(n, down, up[j := rest], f, j);
    SameRow(Row(r.down[q := r.down[q] + Repeat(a, k)], r.up[j + 1 := rest]), RowFor(n, down, up[j := rest], f));
  }

  /** More comes for an end proxy from the end. */
  lemma Trails(n: nat, down: seq<seq<Direction>>, up: seq<seq<Direction>>, f: Flow, events: seq<Event>, j: nat, k: nat)
    requires n == |down| == |up| && n >= 2 && j < n && !Interior(n, j)
    requires Gets(n + 2, events, RowFor(n, down, up, f))
    requires Count(DirOf(j), down[j]) + k <= Coming(f, DirOf(j))
    ensures Gets(n + 2, events, RowFor(n, down[j := down[j] + Repeat(DirOf(j), k)], up, f))
  {
    var d, r := DirOf(j), RowFor(n, down, up, f);
    var start, left := Start(d, n), Coming(f, d) - Count(d, down[j]) - k;
    RunJoin(d, k, left);
    RowEnds(n, down, up, f, j);
    RowEnds(n, down[j := down[j] + Repeat(d, k)], up, f, j);
    PassRun(n + 2, events, r, start, d, k, Repeat(d, left));
    MarksRun(d, down[j], k);
    SameRow(Row(r.down[j + 1 := r.down[j + 1] + Repeat(d, k)], r.up[start := Repeat(d, left)]),
            RowFor(n, down[j := down[j] + Repeat(d, k)], up, f));
  }

  // ---- When nothing is done at a proxy -------------------------------------------------------

  lemma StillKept(n: nat, f: Flow, f': Flow, up: seq<seq<Direction>>, j: nat)
    requires j < n == |up| == |f.outs| == |f'.outs| && KeptAt(n, f, up, j)
    requires Shifts(Opposite(DirOf(j)), Interior(n, j), f.outs[j], f'.outs[j])
    ensures KeptAt(n, f', up, j)
  {
    if !Interior(n, j) {
      SoonerLater(Opposite(DirOf(j)), up[j], f.outs[j], f'.outs[j]);
    }
  }

  lemma StillComes(n: nat, f: Flow, f': Flow, down: seq<seq<Direction>>, j: nat)
    requires j < n == |down| == |f.ins| == |f'.ins| && MayComeAt(n, f', down, j)
    requires Shifts(DirOf(j), Interior(n, j), f.ins[j], f'.ins[j]) && Count(DirOf(j), down[j]) <= Coming(f, DirOf(j))
    ensures MayComeAt(n, f, down, j)
  {
    if !Interior(n, j) {
      EarlyLater(DirOf(j), down[j], f.ins[j], f'.ins[j]);
    }
  }

  /** No more waits to leave for an end than is in flight there. */
  lemma KeptCount(n: nat, f: Flow, up: seq<seq<Direction>>, j: nat)
    requires n == |f.ins| == |f.outs| && Sound(n, f) && Kept(n, f, up) && j < n && !Interior(n, j)
    ensures var a := Opposite(DirOf(j)); Count(a, up[j]) <= Count(a, f.outs[j]) <= Going(f, a)
  {
    assert KeptAt(n, f, up, j);
    SoonerCount(Opposite(DirOf(j)), up[j], f.outs[j]);
    assert SoundAt(n, f, DirOf(j)) && Edge(DirOf(j), n) == j;
  }

  lemma CalmFollows(n: nat, f: Flow, f': Flow, events: seq<Event>)
    requires n == |f.ins| == |f.outs| && Sound(n, f) && FlowStep(n, f, Calm, f') && Follows(n, f, events)
    ensures Follows(n, f', events)
  {
    var up :| Kept(n, f, up) && AllGot(n, f, up, events);
    forall j | 0 <= j < n ensures KeptAt(n, f', up, j) {
      assert FlowAt(n, f, Calm, f', j) && KeptAt(n, f, up, j);
      StillKept(n, f, f', up, j);
    }
    forall down | MayCome(n, f', down) ensures Gets(n + 2, events, RowFor(n, down, up, f')) {
      CalmComes(n, f, f', down);
      CalmRow(n, down, up, f, f');
    }
    assert Kept(n, f', up) && AllGot(n, f', up, events);
  }

  lemma CalmRow(n: nat, down: seq<seq<Direction>>, up: seq<seq<Direction>>, f: Flow, f': Flow)
    requires n >= 2 && n == |down| == |up|
    requires FlowSizes(n, f, Calm, f', Rightward) && FlowSizes(n, f, Calm, f', Leftward)
    ensures RowFor(n, down, up, f') == RowFor(n, down, up, f)
  {
    SameRow(RowFor(n, down, up, f), RowFor(n, down, up, f'));
  }

  lemma CalmComes(n: nat, f: Flow, f': Flow, down: seq<seq<Direction>>)
    requires FlowStep(n, f, Calm, f') && MayCome(n, f', down)
    ensures MayCome(n, f, down)
  {
    forall j | 0 <= j < n ensures MayComeAt(n, f, down, j) {
      assert FlowAt(n, f, Calm, f', j) && MayComeAt(n, f', down, j);
      if !Interior(n, j) {
        StillComes(n, f, f', down, j);
      }
    }
  }

  // ---- The ends ------------------------------------------------------------------------------

  /** `c` is done at one of the ends: all proxies see is that something may fall behind. */
  ghost predicate AtEnds(n: nat, c: Change) { c.Acts? && (c.e.at == 0 || c.e.at == n + 1) }

  lemma EndsKeep(n: nat, f: Flow, c: Change, f': Flow, up: seq<seq<Direction>>)
    requires FlowStep(n, f, c, f') && AtEnds(n, c) && Kept(n, f, up)
    ensures Kept(n, f', up)
  {
    forall j | 0 <= j < n ensures KeptAt(n, f', up, j) {
      assert FlowAt(n, f, c, f', j) && KeptAt(n, f, up, j);
      StillKept(n, f, f', up, j);
    }
  }

  /** What may have come after it may have come before, unless it is more than there was. */
  lemma EndsCome(n: nat, f: Flow, c: Change, f': Flow, down: seq<seq<Direction>>)
    requires FlowStep(n, f, c, f') && AtEnds(n, c) && MayCome(n, f', down) && n >= 2
    requires Count(Rightward, down[0]) <= f.comingR && Count(Leftward, down[n - 1]) <= f.comingL
    ensures MayCome(n, f, down)
  {
    forall j | 0 <= j < n ensures MayComeAt(n, f, down, j) {
      assert FlowAt(n, f, c, f', j) && MayComeAt(n, f', down, j);
      if !Interior(n, j) {
        StillComes(n, f, f', down, j);
      }
    }
  }

  /** If as much may have come as has just been sent, the last message to come is that. */
  lemma LastIsNew(d: Direction, down: seq<Direction>, ins: seq<Direction>, most: nat) returns (init: seq<Direction>)
    requires Early(d, down, ins) && Count(d, ins) <= most && Count(d, down) == most + 1
    ensures down == init + [d] && Early(d, init, ins) && Count(d, init) == most
  {
    init := down[..|down| - 1];
    var last := down[|down| - 1];
    assert down == init + [last];
    MarksMore(d, init, last);
    if last != d {
      LastBelow(d, init, ins);
    }
    EarlyTrail(d, init, ins);
  }

  lemma LastBelow(d: Direction, init: seq<Direction>, ins: seq<Direction>)
    requires Early(d, init + [Opposite(d)], ins)
    ensures Count(d, init) <= Count(d, ins)
  {
    MarksMore(d, init, Opposite(d));
    EarlyIs(d, init + [Opposite(d)], ins);
    MarksBelow(d, ins);
    assert Marks(d, init + [Opposite(d)])[|Marks(d, init)|] == Count(d, init);
  }

  lemma EndSends(n: nat, f: Flow, c: Change, f': Flow, events: seq<Event>, d: Direction)
    requires n == |f.ins| == |f.outs| && Sound(n, f) && FlowStep(n, f, c, f') && Follows(n, f, events)
    requires c.Acts? && c.e.Sent? && c.e.at == Start(d, n) && c.e.dir == d && Quiet(c.e.m)
    ensures Follows(n, f', events + [c.e])
  {
    var up :| Kept(n, f, up) && AllGot(n, f, up, events);
    EndsKeep(n, f, c, f', up);
    forall down | MayCome(n, f', down) ensures Gets(n + 2, events + [c.e], RowFor(n, down, up, f')) {
      EndSendsRow(n, f, c, f', events, d, up, down);
    }
    assert Kept(n, f', up) && AllGot(n, f', up, events + [c.e]);
  }

  lemma EndSendsRow(n: nat, f: Flow, c: Change, f': Flow, events: seq<Event>, d: Direction, up: seq<seq<Direction>>,
                    down: seq<seq<Direction>>)
    requires n == |f.ins| == |f.outs| == |up| && Sound(n, f) && FlowStep(n, f, c, f') && AllGot(n, f, up, events)
    requires c.Acts? && c.e.Sent? && c.e.at == Start(d, n) && c.e.dir == d && Quiet(c.e.m)
    requires MayCome(n, f', down)
    ensures Gets(n + 2, events + [c.e], RowFor(n, down, up, f'))
  {
    var j := Edge(d, n);
    assert DirOf(j) == d && MayComeAt(n, f', down, j) && SoundAt(n, f, d);
    assert MayComeAt(n, f', down, Edge(Opposite(d), n));
    if Count(d, down[j]) <= Coming(f, d) {
      EndsCome(n, f, c, f', down);
      SentFromEnd(n, f, c, f', events, d, up, down);
    } else {
      assert FlowAt(n, f, c, f', j);
      EarlyLater(d, down[j], f.ins[j], f'.ins[j]);
      var init := LastIsNew(d, down[j], f.ins[j], Coming(f, d));
      var less := down[j := init];
      LessComes(n, f, c, f', d, down, less);
      SentFromEnd(n, f, c, f', events, d, up, less);
      Trails(n, less, up, f', events + [c.e], j, 1);
      assert Repeat(d, 1) == [d] && less[j := init + Repeat(d, 1)] == down;
    }
  }

  lemma LessComes(n: nat, f: Flow, c: Change, f': Flow, d: Direction, down: seq<seq<Direction>>, less: seq<seq<Direction>>)
    requires n >= 2 && FlowStep(n, f, c, f') && AtEnds(n, c) && MayCome(n, f', down)
    requires var j := Edge(d, n); |less| == n && less == down[j := less[j]] && Early(d, less[j], f.ins[j]) && Count(d, less[j]) <= Coming(f, d)
    requires Coming(f', Opposite(d)) <= Coming(f, Opposite(d))
    ensures MayCome(n, f, less)
  {
    forall i | 0 <= i < n ensures MayComeAt(n, f, less, i) {
      assert FlowAt(n, f, c, f', i) && MayComeAt(n, f', down, i);
      if i != Edge(d, n) && !Interior(n, i) {
        StillComes(n, f, f', down, i);
      }
    }
  }

  lemma SentFromEnd(n: nat, f: Flow, c: Change, f': Flow, events: seq<Event>, d: Direction, up: seq<seq<Direction>>,
                    down: seq<seq<Direction>>)
    requires n >= 2 && n == |up| && FlowStep(n, f, c, f') && AllGot(n, f, up, events) && MayCome(n, f, down)
    requires c.Acts? && c.e.Sent? && c.e.at == Start(d, n) && c.e.dir == d && Quiet(c.e.m)
    ensures Gets(n + 2, events + [c.e], RowFor(n, down, up, f'))
  {
    var j, r, r' := Edge(d, n), RowFor(n, down, up, f), RowFor(n, down, up, f');
    assert DirOf(j) == d && MayComeAt(n, f, down, j);
    EndFills(n, f, f', d, up, down);
    GetsOn(n + 2, events, r, Happens(c.e), r');
  }

  lemma EndFills(n: nat, f: Flow, f': Flow, d: Direction, up: seq<seq<Direction>>, down: seq<seq<Direction>>)
    requires n >= 2 && n == |down| == |up|
    requires Coming(f', d) == Coming(f, d) + 1 && Going(f', Opposite(d)) == Going(f, Opposite(d))
    requires Coming(f', Opposite(d)) == Coming(f, Opposite(d)) && Going(f', d) == Going(f, d)
    requires Count(d, down[Edge(d, n)]) <= Coming(f, d)
    ensures var r := RowFor(n, down, up, f); r.(up := PutIn(r.up, Start(d, n), d)) == RowFor(n, down, up, f')
  {
    var j, r, r' := Edge(d, n), RowFor(n, down, up, f), RowFor(n, down, up, f');
    RowEnds(n, down, up, f, j);
    RowEnds(n, down, up, f', j);
    RepeatMore(d, Less(Coming(f, d), Count(d, down[j])));
    ElseSame(n, down, up, f, f', d);
    SameRow(r.(up := PutIn(r.up, Start(d, n), d)), r');
  }

  lemma EndReceives(n: nat, f: Flow, c: Change, f': Flow, events: seq<Event>, d: Direction)
    requires n == |f.ins| == |f.outs| && Sound(n, f) && FlowStep(n, f, c, f') && Follows(n, f, events)
    requires c.Acts? && c.e.Received? && c.e.at == Start(d, n) && c.e.dir == Opposite(d) && Quiet(c.e.m)
    requires Count(Opposite(d), f.outs[Edge(d, n)]) < Going(f, Opposite(d))
    ensures Follows(n, f', events + [c.e])
  {
    var up :| Kept(n, f, up) && AllGot(n, f, up, events);
    EndsKeep(n, f, c, f', up);
    forall down | MayCome(n, f', down) ensures Gets(n + 2, events + [c.e], RowFor(n, down, up, f')) {
      assert MayComeAt(n, f', down, 0) && MayComeAt(n, f', down, n - 1);
      EndsCome(n, f, c, f', down);
      ReceivedAtEnd(n, f, c, f', events, d, up, down);
    }
    assert Kept(n, f', up) && AllGot(n, f', up, events + [c.e]);
  }

  lemma ReceivedAtEnd(n: nat, f: Flow, c: Change, f': Flow, events: seq<Event>, d: Direction, up: seq<seq<Direction>>,
                      down: seq<seq<Direction>>)
    requires n == |f.ins| == |f.outs| && Sound(n, f) && FlowStep(n, f, c, f')
    requires Kept(n, f, up) && AllGot(n, f, up, events) && MayCome(n, f, down)
    requires c.Acts? && c.e.Received? && c.e.at == Start(d, n) && c.e.dir == Opposite(d) && Quiet(c.e.m)
    requires Count(Opposite(d), f.outs[Edge(d, n)]) < Going(f, Opposite(d))
    ensures Gets(n + 2, events + [c.e], RowFor(n, down, up, f'))
  {
    var j, r, r' := Edge(d, n), RowFor(n, down, up, f), RowFor(n, down, up, f');
    assert DirOf(j) == d;
    KeptCount(n, f, up, j);
    TakenAtEnd(n, f, f', d, up, down);
    GetsOn(n + 2, events, r, Happens(c.e), r');
  }

  lemma TakenAtEnd(n: nat, f: Flow, f': Flow, d: Direction, up: seq<seq<Direction>>, down: seq<seq<Direction>>)
    requires n >= 2 && n == |down| == |up|
    requires Coming(f', d) == Coming(f, d) && Going(f', Opposite(d)) + 1 == Going(f, Opposite(d))
    requires Coming(f', Opposite(d)) == Coming(f, Opposite(d)) && Going(f', d) == Going(f, d)
    requires Count(Opposite(d), up[Edge(d, n)]) < Going(f, Opposite(d))
    ensures var r := RowFor(n, down, up, f);
      && r.down[Start(d, n)] != [] && r.down[Start(d, n)][0] == Opposite(d)
      && r.(down := TakeFrom(r.down, Start(d, n))) == RowFor(n, down, up, f')
  {
    var j, a, r, r' := Edge(d, n), Opposite(d), RowFor(n, down, up, f), RowFor(n, down, up, f');
    RowEnds(n, down, up, f, j);
    RowEnds(n, down, up, f', j);
    var left := Less(Going(f', a), Count(a, up[j]));
    RepeatMore(a, left);
    TailOf(a, Repeat(a, left));
    ElseSame(n, down, up, f, f', d);
    SameRow(r.(down := TakeFrom(r.down, Start(d, n))), r');
  }

  // ---- What proxies do -----------------------------------------------------------------------

  lemma ProxySends(n: nat, f: Flow, c: Change, f': Flow, events: seq<Event>, j: nat)
    requires n == |f.ins| == |f.outs| && Sound(n, f) && FlowStep(n, f, c, f') && Follows(n, f, events)
    requires j < n && c.Acts? && c.e.Sent? && c.e.at == j + 1 && Quiet(c.e.m)
    ensures Follows(n, f', events + [c.e])
  {
    var up :| Kept(n, f, up) && AllGot(n, f, up, events);
    var sent := up[j] + [c.e.dir];
    assert FlowAt(n, f, c, f', j) && KeptAt(n, f, up, j);
    var k := 0;
    if !Interior(n, j) {
      SoonerMore(Opposite(DirOf(j)), up[j], f.outs[j], c.e.dir);
      SoonerLater(Opposite(DirOf(j)), sent, f.outs[j] + [c.e.dir], f'.outs[j]);
      k := Leading(Opposite(DirOf(j)), sent, f'.outs[j]);
      KeptCount(n, f, up, j);
      MarksMore(Opposite(DirOf(j)), up[j], c.e.dir);
    } else {
      assert sent[0..] == sent;
    }
    var up' := up[j := sent[k..]];
    forall i | 0 <= i < n ensures KeptAt(n, f', up', i) {
      if i != j {
        assert FlowAt(n, f, c, f', i) && KeptAt(n, f, up, i);
        StillKept(n, f, f', up, i);
      }
    }
    forall down | MayCome(n, f', down) ensures Gets(n + 2, events + [c.e], RowFor(n, down, up', f')) {
      SentComes(n, f, c, f', down, j);
      SentRow(n, f, c, f', events, j, up, down, k);
    }
    assert Kept(n, f', up') && AllGot(n, f', up', events + [c.e]);
  }

  lemma SentComes(n: nat, f: Flow, c: Change, f': Flow, down: seq<seq<Direction>>, j: nat)
    requires n >= 2 && FlowStep(n, f, c, f') && j < n && c.Acts? && c.e.Sent? && c.e.at == j + 1 && MayCome(n, f', down)
    ensures MayCome(n, f, down)
  {
    forall i | 0 <= i < n ensures MayComeAt(n, f, down, i) {
      assert FlowAt(n, f, c, f', i) && MayComeAt(n, f', down, i);
      if !Interior(n, i) {
        StillComes(n, f, f', down, i);
      }
    }
  }

  lemma SentRow(n: nat, f: Flow, c: Change, f': Flow, events: seq<Event>, j: nat, up: seq<seq<Direction>>,
                down: seq<seq<Direction>>, k: nat)
    requires n >= 2 && FlowStep(n, f, c, f') && n == |up| && AllGot(n, f, up, events) && MayCome(n, f, down)
    requires j < n && c.Acts? && c.e.Sent? && c.e.at == j + 1 && Quiet(c.e.m)
    requires var sent, a := up[j] + [c.e.dir], Opposite(DirOf(j));
      if Interior(n, j) then k == 0
      else k <= |sent| && sent == Repeat(a, k) + sent[k..] && Count(a, up[j]) <= Going(f, a)
    ensures Gets(n + 2, events + [c.e], RowFor(n, down, up[j := (up[j] + [c.e.dir])[k..]], f'))
  {
    var sent := up[j] + [c.e.dir];
    SentOn(n, f, c, f', events, j, up, down, up[j := sent]);
    if Interior(n, j) {
      assert sent[k..] == sent;
    } else {
      MarksMore(Opposite(DirOf(j)), up[j], c.e.dir);
      Flushes(n, down, up[j := sent], f', events + [c.e], j, k, sent[k..]);
      assert up[j := sent][j := sent[k..]] == up[j := sent[k..]];
    }
  }

  lemma SentOn(n: nat, f: Flow, c: Change, f': Flow, events: seq<Event>, j: nat, up: seq<seq<Direction>>,
               down: seq<seq<Direction>>, up': seq<seq<Direction>>)
    requires n >= 2 && FlowStep(n, f, c, f') && n == |up| && AllGot(n, f, up, events) && MayCome(n, f, down)
    requires j < n && c.Acts? && c.e.Sent? && c.e.at == j + 1 && Quiet(c.e.m)
    requires up' == up[j := up[j] + [c.e.dir]]
    requires !Interior(n, j) ==> var a := Opposite(DirOf(j)); Count(a, up[j]) <= Going(f, a)
    ensures Gets(n + 2, events + [c.e], RowFor(n, down, up', f'))
  {
    SentLeft(n, f, c, f', j, up, up');
    SentSame(n, down, up, up', f, f', j, c.e.dir);
    GetsOn(n + 2, events, RowFor(n, down, up, f), Happens(c.e), RowFor(n, down, up', f'));
  }

  lemma SentLeft(n: nat, f: Flow, c: Change, f': Flow, j: nat, up: seq<seq<Direction>>, up': seq<seq<Direction>>)
    requires n >= 2 && n == |up| && FlowSizes(n, f, c, f', Rightward) && FlowSizes(n, f, c, f', Leftward)
    requires j < n && c.Acts? && c.e.Sent? && c.e.at == j + 1 && up' == up[j := up[j] + [c.e.dir]]
    requires !Interior(n, j) ==> var a := Opposite(DirOf(j)); Count(a, up[j]) <= Going(f, a)
    ensures f'.comingR == f.comingR && f'.comingL == f.comingL
    ensures Less(f'.leavingL, Count(Leftward, up'[0])) == Less(f.leavingL, Count(Leftward, up[0]))
    ensures Less(f'.leavingR, Count(Rightward, up'[n - 1])) == Less(f.leavingR, Count(Rightward, up[n - 1]))
  {
    MarksMore(Leftward, up[j], c.e.dir);
    MarksMore(Rightward, up[j], c.e.dir);
  }

  lemma SentSame(n: nat, down: seq<seq<Direction>>, up: seq<seq<Direction>>, up': seq<seq<Direction>>, f: Flow, f': Flow,
                 j: nat, t: Direction)
    requires n >= 2 && n == |up| == |down| && j < n && up' == up[j := up[j] + [t]]
    requires f'.comingR == f.comingR && f'.comingL == f.comingL
    requires Less(f'.leavingL, Count(Leftward, up'[0])) == Less(f.leavingL, Count(Leftward, up[0]))
    requires Less(f'.leavingR, Count(Rightward, up'[n - 1])) == Less(f.leavingR, Count(Rightward, up[n - 1]))
    ensures var r := RowFor(n, down, up, f); r.(up := PutIn(r.up, j + 1, t)) == RowFor(n, down, up', f')
  {
    var r, r' := RowFor(n, down, up, f), RowFor(n, down, up', f');
    EndQueues(n, down, up, f);
    EndQueues(n, down, up', f');
    SameRow(r.(up := PutIn(r.up, j + 1, t)), r');
  }

  lemma ProxyReceives(n: nat, f: Flow, c: Change, f': Flow, events: seq<Event>, j: nat)
    requires n == |f.ins| == |f.outs| && Sound(n, f) && FlowStep(n, f, c, f') && Follows(n, f, events)
    requires j < n && c.Acts? && c.e.Received? && c.e.at == j + 1 && Quiet(c.e.m)
    ensures Follows(n, f', events + [c.e])
  {
    var up :| Kept(n, f, up) && AllGot(n, f, up, events);
    forall i | 0 <= i < n ensures KeptAt(n, f', up, i) {
      assert FlowAt(n, f, c, f', i) && KeptAt(n, f, up, i);
      StillKept(n, f, f', up, i);
    }
    forall down | MayCome(n, f', down) ensures Gets(n + 2, events + [c.e], RowFor(n, down, up, f')) {
      var before := down[j := [c.e.dir] + down[j]];
      forall i | 0 <= i < n ensures MayComeAt(n, f, before, i) {
        ReceivedComes(n, f, c, f', j, down, before, i);
      }
      assert MayCome(n, f, before);
      TakenRow(n, f, c, f', events, j, up, before, down);
    }
    assert Kept(n, f', up) && AllGot(n, f', up, events + [c.e]);
  }

  lemma ReceivedComes(n: nat, f: Flow, c: Change, f': Flow, j: nat, down: seq<seq<Direction>>, before: seq<seq<Direction>>, i: nat)
    requires n >= 2 && FlowStep(n, f, c, f') && j < n && i < n && c.Acts? && c.e.Received? && c.e.at == j + 1
    requires MayCome(n, f', down) && before == down[j := [c.e.dir] + down[j]]
    ensures MayComeAt(n, f, before, i)
  {
    var d := DirOf(i);
    assert FlowAt(n, f, c, f', i) && MayComeAt(n, f', down, i);
    if i != j {
      if !Interior(n, i) {
        StillComes(n, f, f', down, i);
      }
    } else {
      var t, rest := c.e.dir, f.ins[j][1..];
      assert f.ins[j] == [t] + rest;
      if !Interior(n, j) {
        EarlyLater(d, down[j], rest, f'.ins[j]);
        EarlyFirst(d, t, down[j], rest);
        MarksFirst(d, t, down[j]);
      }
    }
  }

  lemma TakenRow(n: nat, f: Flow, c: Change, f': Flow, events: seq<Event>, j: nat, up: seq<seq<Direction>>,
                 before: seq<seq<Direction>>, down: seq<seq<Direction>>)
    requires n >= 2 && FlowStep(n, f, c, f') && n == |up| == |down| && AllGot(n, f, up, events) && MayCome(n, f, before)
    requires j < n && c.Acts? && c.e.Received? && c.e.at == j + 1 && Quiet(c.e.m)
    requires before == down[j := [c.e.dir] + down[j]]
    ensures Gets(n + 2, events + [c.e], RowFor(n, down, up, f'))
  {
    TakenLeft(n, f, c, f', j, before, down);
    TakenSame(n, before, down, up, f, f', j, c.e.dir);
    GetsOn(n + 2, events, RowFor(n, before, up, f), Happens(c.e), RowFor(n, down, up, f'));
  }

  lemma TakenLeft(n: nat, f: Flow, c: Change, f': Flow, j: nat, before: seq<seq<Direction>>, down: seq<seq<Direction>>)
    requires n >= 2 && n == |down| && FlowSizes(n, f, c, f', Rightward) && FlowSizes(n, f, c, f', Leftward)
    requires j < n && c.Acts? && c.e.Received? && c.e.at == j + 1 && before == down[j := [c.e.dir] + down[j]]
    requires MayCome(n, f, before)
    ensures f'.leavingR == f.leavingR && f'.leavingL == f.leavingL
    ensures Less(f'.comingR, Count(Rightward, down[0])) == Less(f.comingR, Count(Rightward, before[0]))
    ensures Less(f'.comingL, Count(Leftward, down[n - 1])) == Less(f.comingL, Count(Leftward, before[n - 1]))
  {
    MarksFirst(Leftward, c.e.dir, down[j]);
    MarksFirst(Rightward, c.e.dir, down[j]);
    assert MayComeAt(n, f, before, 0) && MayComeAt(n, f, before, n - 1);
  }

  lemma TakenSame(n: nat, before: seq<seq<Direction>>, down: seq<seq<Direction>>, up: seq<seq<Direction>>, f: Flow, f': Flow,
                  j: nat, t: Direction)
    requires n >= 2 && n == |up| == |down| && j < n && before == down[j := [t] + down[j]]
    requires f'.leavingR == f.leavingR && f'.leavingL == f.leavingL
    requires Less(f'.comingR, Count(Rightward, down[0])) == Less(f.comingR, Count(Rightward, before[0]))
    requires Less(f'.comingL, Count(Leftward, down[n - 1])) == Less(f.comingL, Count(Leftward, before[n - 1]))
    ensures var r := RowFor(n, before, up, f);
      r.down[j + 1] != [] && r.down[j + 1][0] == t && r.(down := TakeFrom(r.down, j + 1)) == RowFor(n, down, up, f')
  {
    var r, r' := RowFor(n, before, up, f), RowFor(n, down, up, f');
    EndQueues(n, before, up, f);
    EndQueues(n, down, up, f');
    assert ([t] + down[j])[1..] == down[j];
    SameRow(r.(down := TakeFrom(r.down, j + 1)), r');
  }

  // ---- What passes the conductor -------------------------------------------------------------

  lemma SameSizes(n: nat, down: seq<seq<Direction>>, up: seq<seq<Direction>>, f: Flow, p: nat, t: Direction, f': Flow)
    requires n == |down| == |up| && n >= 2 && FlowStep(n, f, Crosses(p, t), f')
    ensures RowFor(n, down, up, f') == RowFor(n, down, up, f)
  {
    SameRow(RowFor(n, down, up, f), RowFor(n, down, up, f'));
  }

  /** A message from an end comes to the conductors of the first proxy: it may come late. */
  lemma Enters(n: nat, f: Flow, t: Direction, f': Flow, events: seq<Event>)
    requires n == |f.ins| == |f.outs| && Sound(n, f) && FlowStep(n, f, Crosses(Start(t, n), t), f') && Follows(n, f, events)
    ensures Follows(n, f', events)
  {
    var c := Crosses(Start(t, n), t);
    var up :| Kept(n, f, up) && AllGot(n, f, up, events);
    forall j | 0 <= j < n ensures KeptAt(n, f', up, j) {
      assert FlowAt(n, f, c, f', j) && KeptAt(n, f, up, j);
    }
    forall down | MayCome(n, f', down) ensures Gets(n + 2, events, RowFor(n, down, up, f')) {
      forall j | 0 <= j < n ensures MayComeAt(n, f, down, j) {
        assert FlowAt(n, f, c, f', j) && MayComeAt(n, f', down, j);
        EntersAt(n, f, t, f', down, j);
      }
      assert MayCome(n, f, down);
      SameSizes(n, down, up, f, Start(t, n), t, f');
    }
    assert Kept(n, f', up) && AllGot(n, f', up, events);
  }

  lemma EntersAt(n: nat, f: Flow, t: Direction, f': Flow, down: seq<seq<Direction>>, j: nat)
    requires n >= 2 && n == |down| == |f.ins| == |f.outs| == |f'.ins| == |f'.outs| && j < n
    requires FlowAt(n, f, Crosses(Start(t, n), t), f', j) && MayComeAt(n, f', down, j)
    requires Coming(f', Rightward) == Coming(f, Rightward) && Coming(f', Leftward) == Coming(f, Leftward)
    ensures MayComeAt(n, f, down, j)
  {
    if j == Edge(t, n) {
      EarlyTrail(t, down[j], f.ins[j]);
    } else {
      assert f.ins[j] + [] == f.ins[j];
    }
  }

  /** A message leaves for an end: in the row it has left its proxy before. */
  lemma Leaves(n: nat, f: Flow, j: nat, f': Flow, events: seq<Event>)
    requires n == |f.ins| == |f.outs| && Sound(n, f) && j < n && !Interior(n, j)
    requires FlowStep(n, f, Crosses(j + 1, Opposite(DirOf(j))), f') && Follows(n, f, events)
    ensures Follows(n, f', events)
  {
    var a := Opposite(DirOf(j));
    var c := Crosses(j + 1, a);
    var up :| Kept(n, f, up) && AllGot(n, f, up, events);
    forall i | 0 <= i < n ensures KeptAt(n, f', up, i) {
      assert FlowAt(n, f, c, f', i) && KeptAt(n, f, up, i);
      if i == j {
        SoonerHead(a, up[j], f'.outs[j]);
      }
    }
    forall down | MayCome(n, f', down) ensures Gets(n + 2, events, RowFor(n, down, up, f')) {
      LeavesCome(n, f, j, f', down);
      SameSizes(n, down, up, f, j + 1, a, f');
    }
    assert Kept(n, f', up) && AllGot(n, f', up, events);
  }

  lemma LeavesCome(n: nat, f: Flow, j: nat, f': Flow, down: seq<seq<Direction>>)
    requires n >= 2 && j < n && !Interior(n, j) && FlowStep(n, f, Crosses(j + 1, Opposite(DirOf(j))), f') && MayCome(n, f', down)
    ensures MayCome(n, f, down)
  {
    forall i | 0 <= i < n ensures MayComeAt(n, f, down, i) {
      assert FlowAt(n, f, Crosses(j + 1, Opposite(DirOf(j))), f', i) && MayComeAt(n, f', down, i);
      assert f.ins[i] + [] == f.ins[i];
    }
  }

  /** What is left of what a proxy has sent when its oldest message has passed: an end proxy's next ones may be for
      the end, and leave with it. */
  lemma NextKept(n: nat, f: Flow, up: seq<seq<Direction>>, j: nat, t: Direction, outs: seq<Direction>)
    returns (rest: seq<Direction>, k: nat)
    requires j < n == |up| == |f.outs| && KeptAt(n, f, up, j) && f.outs[j] == [t] + outs
    requires !Interior(n, j) ==> t == DirOf(j)
    ensures up[j] == [t] + rest && k <= |rest|
    ensures if Interior(n, j) then k == 0 && rest == outs
            else var a := Opposite(DirOf(j));
              && rest == Repeat(a, k) + rest[k..]
              && Sooner(a, rest[k..], outs) && (rest[k..] == [] || rest[k..][0] == DirOf(j))
  {
    if Interior(n, j) {
      rest, k := outs, 0;
    } else {
      var a := Opposite(DirOf(j));
      SoonerIs(a, up[j], f.outs[j]);
      MarksFirst(a, t, outs);
      assert Marks(a, up[j]) != [];
      assert up[j] != [];
      rest := up[j][1..];
      assert up[j] == [t] + rest;
      SoonerPop(a, rest, outs);
      k := Leading(a, rest, outs);
    }
  }

  /** What had come for the proxy the message goes to, and what came after the message. */
  lemma BeforeIt(n: nat, f: Flow, f': Flow, down: seq<seq<Direction>>, j: nat, t: Direction)
    returns (init: seq<Direction>, k: nat)
    requires j < n == |down| == |f.ins| == |f'.ins| && MayComeAt(n, f', down, j) && f'.ins[j] == f.ins[j] + [t]
    requires Coming(f', DirOf(j)) == Coming(f, DirOf(j))
    requires !Interior(n, j) ==> t == Opposite(DirOf(j))
    ensures if Interior(n, j) then k == 0 && down[j] == init + [t] && init == f.ins[j]
            else var d := DirOf(j);
              && down[j] == init + [t] + Repeat(d, k) && Early(d, init, f.ins[j])
              && Count(d, init) + k <= Coming(f, d)
  {
    if Interior(n, j) {
      init, k := f.ins[j], 0;
    } else {
      var d := DirOf(j);
      EarlyIs(d, down[j], f'.ins[j]);
      MarksMore(d, f.ins[j], t);
      init, k := LastOther(d, down[j]);
      EarlySplit(d, init, k, f.ins[j]);
      MarksRun(d, init + [t], k);
      MarksMore(d, init, t);
    }
  }

  /** A message passes from one proxy's conductors to the next's. */
  lemma Passes(n: nat, f: Flow, j: nat, t: Direction, f': Flow, events: seq<Event>)
    requires n == |f.ins| == |f.outs| && Sound(n, f) && j < n && HasNext(n, j, t)
    requires FlowStep(n, f, Crosses(j + 1, t), f') && Follows(n, f, events)
    ensures Follows(n, f', events)
  {
    var c := Crosses(j + 1, t);
    var up :| Kept(n, f, up) && AllGot(n, f, up, events);
    assert FlowAt(n, f, c, f', j) && KeptAt(n, f, up, j);
    var rest, k := NextKept(n, f, up, j, t, f'.outs[j]);
    if !Interior(n, j) {
      KeptCount(n, f, up, j);
    }
    var up' := up[j := rest[k..]];
    forall i | 0 <= i < n ensures KeptAt(n, f', up', i) {
      assert FlowAt(n, f, c, f', i) && KeptAt(n, f, up, i);
    }
    forall down | MayCome(n, f', down) ensures Gets(n + 2, events, RowFor(n, down, up', f')) {
      PassesRow(n, f, j, t, f', events, up, rest, k, down);
    }
    assert Kept(n, f', up') && AllGot(n, f', up', events);
  }

  lemma PassesRow(n: nat, f: Flow, j: nat, t: Direction, f': Flow, events: seq<Event>, up: seq<seq<Direction>>,
                  rest: seq<Direction>, k: nat, down: seq<seq<Direction>>)
    requires n >= 2 && n == |up| && j < n && HasNext(n, j, t) && FlowStep(n, f, Crosses(j + 1, t), f')
    requires AllGot(n, f, up, events) && MayCome(n, f', down) && up[j] == [t] + rest && k <= |rest|
    requires if Interior(n, j) then k == 0
             else var a := Opposite(DirOf(j)); rest == Repeat(a, k) + rest[k..] && Count(a, up[j]) <= Going(f, a)
    ensures Gets(n + 2, events, RowFor(n, down, up[j := rest[k..]], f'))
  {
    var before, after, l := BeforeAll(n, f, j, t, f', down);
    PassesTo(n, f, j, t, events, up, rest, k, before, after, l);
    assert up[j := rest][j := rest[k..]] == up[j := rest[k..]];
    SameSizes(n, down, up[j := rest[k..]], f, j + 1, t, f');
  }

  lemma BeforeAll(n: nat, f: Flow, j: nat, t: Direction, f': Flow, down: seq<seq<Direction>>)
    returns (before: seq<seq<Direction>>, after: seq<seq<Direction>>, l: nat)
    requires n >= 2 && j < n && HasNext(n, j, t) && FlowStep(n, f, Crosses(j + 1, t), f') && MayCome(n, f', down)
    ensures MayCome(n, f, before) && after == before[Next(j, t) := before[Next(j, t)] + [t]]
    ensures var q := Next(j, t);
      && (!Interior(n, q) ==> Count(DirOf(q), after[q]) + l <= Coming(f, DirOf(q)))
      && down == if Interior(n, q) then after else after[q := after[q] + Repeat(DirOf(q), l)]
  {
    var c, q := Crosses(j + 1, t), Next(j, t);
    assert FlowAt(n, f, c, f', q) && MayComeAt(n, f', down, q);
    var init;
    init, l := BeforeIt(n, f, f', down, q, t);
    before, after := down[q := init], down[q := init + [t]];
    MarksMore(DirOf(q), init, t);
    PassesBefore(n, f, j, t, f', down, before);
  }

  lemma PassesTo(n: nat, f: Flow, j: nat, t: Direction, events: seq<Event>, up: seq<seq<Direction>>, rest: seq<Direction>, k: nat,
                 before: seq<seq<Direction>>, after: seq<seq<Direction>>, l: nat)
    requires n >= 2 && n == |up| == |before| && j < n && HasNext(n, j, t) && AllGot(n, f, up, events) && MayCome(n, f, before)
    requires up[j] == [t] + rest && k <= |rest| && after == before[Next(j, t) := before[Next(j, t)] + [t]]
    requires if Interior(n, j) then k == 0
             else var a := Opposite(DirOf(j)); rest == Repeat(a, k) + rest[k..] && Count(a, up[j]) <= Going(f, a)
    requires var q := Next(j, t); !Interior(n, q) ==> Count(DirOf(q), after[q]) + l <= Coming(f, DirOf(q))
    ensures var q := Next(j, t);
      Gets(n + 2, events, RowFor(n, if Interior(n, q) then after else after[q := after[q] + Repeat(DirOf(q), l)],
                                 up[j := rest][j := rest[k..]], f))
  {
    var sent := up[j := rest];
    assert sent[j := [t] + sent[j]] == up;
    PassOne(n, f, j, t, events, up, sent, before, after);
    if !Interior(n, j) {
      MarksFirst(Opposite(DirOf(j)), t, rest);
    }
    PassRest(n, f, j, Next(j, t), events, sent, k, after, l);
  }

  lemma PassesBefore(n: nat, f: Flow, j: nat, t: Direction, f': Flow, down: seq<seq<Direction>>, before: seq<seq<Direction>>)
    requires n >= 2 && j < n && HasNext(n, j, t) && FlowStep(n, f, Crosses(j + 1, t), f') && MayCome(n, f', down)
    requires |before| == n && before == down[Next(j, t) := before[Next(j, t)]] && MayComeAt(n, f, before, Next(j, t))
    ensures MayCome(n, f, before)
  {
    var c := Crosses(j + 1, t);
    forall i | 0 <= i < n ensures MayComeAt(n, f, before, i) {
      assert FlowAt(n, f, c, f', i) && MayComeAt(n, f', down, i);
      assert f.ins[i] + [] == f.ins[i];
    }
  }

  lemma PassOne(n: nat, f: Flow, j: nat, t: Direction, events: seq<Event>, up: seq<seq<Direction>>, sent: seq<seq<Direction>>,
                before: seq<seq<Direction>>, after: seq<seq<Direction>>)
    requires n >= 2 && n == |up| == |sent| == |before| && j < n && HasNext(n, j, t)
    requires Gets(n + 2, events, RowFor(n, before, up, f))
    requires up == sent[j := [t] + sent[j]] && after == before[Next(j, t) := before[Next(j, t)] + [t]]
    ensures Gets(n + 2, events, RowFor(n, after, sent, f))
  {
    PassedRow(n, f, j, t, up, sent, before, after);
    GetsOn(n + 2, events, RowFor(n, before, up, f), Moves(j + 1), RowFor(n, after, sent, f));
  }

  lemma PassedRow(n: nat, f: Flow, j: nat, t: Direction, up: seq<seq<Direction>>, sent: seq<seq<Direction>>,
                  before: seq<seq<Direction>>, after: seq<seq<Direction>>)
    requires n >= 2 && n == |up| == |sent| == |before| && j < n && HasNext(n, j, t)
    requires up == sent[j := [t] + sent[j]] && after == before[Next(j, t) := before[Next(j, t)] + [t]]
    ensures var r := RowFor(n, before, up, f);
      && r.up[j + 1] != [] && r.up[j + 1][0] == t && HasNext(n + 2, j + 1, t)
      && Passed(r, j + 1, t) == RowFor(n, after, sent, f)
  {
    var r, r' := RowFor(n, before, up, f), RowFor(n, after, sent, f);
    PassCounts(n, j, t, up, sent, before, after);
    EndQueues(n, before, up, f);
    EndQueues(n, after, sent, f);
    PassedUp(n, j, t, up, sent, r.up, r'.up);
    PassedDown(n, Next(j, t), t, before, after, r.down, r'.down);
    SameRow(Passed(r, j + 1, t), r');
  }

  /** A queue of the row is one of the proxies' or is at an end and stays as it is. */
  lemma PassedUp(n: nat, j: nat, t: Direction, up: seq<seq<Direction>>, sent: seq<seq<Direction>>,
                 row: seq<seq<Direction>>, row': seq<seq<Direction>>)
    requires n == |up| == |sent| && |row| == |row'| == n + 2 && j < n && up == sent[j := [t] + sent[j]]
    requires row[0] == row'[0] && row[n + 1] == row'[n + 1]
    requires forall p :: 0 < p < n + 1 ==> row[p] == up[p - 1] && row'[p] == sent[p - 1]
    ensures row[j + 1] != [] && row[j + 1][0] == t && TakeFrom(row, j + 1) == row'
  {
    TailOf(t, sent[j]);
    forall p | 0 <= p < n + 2 ensures TakeFrom(row, j + 1)[p] == row'[p] {
      if 0 < p < n + 1 && p != j + 1 {
        assert up[p - 1] == sent[p - 1];
      }
    }
  }

  lemma PassedDown(n: nat, q: nat, t: Direction, before: seq<seq<Direction>>, after: seq<seq<Direction>>,
                   row: seq<seq<Direction>>, row': seq<seq<Direction>>)
    requires n == |before| && |row| == |row'| == n + 2 && q < n && after == before[q := before[q] + [t]]
    requires row[0] == row'[0] && row[n + 1] == row'[n + 1]
    requires forall p :: 0 < p < n + 1 ==> row[p] == before[p - 1] && row'[p] == after[p - 1]
    ensures PutIn(row, q + 1, t) == row'
  {
    forall p | 0 <= p < n + 2 ensures PutIn(row, q + 1, t)[p] == row'[p] {
      if 0 < p < n + 1 && p != q + 1 {
        assert after[p - 1] == before[p - 1];
      }
    }
  }

  lemma TailOf(t: Direction, s: seq<Direction>)
    ensures ([t] + s)[1..] == s
  {
  }

  /** What passes between proxies does not count at the ends. */
  lemma PassCounts(n: nat, j: nat, t: Direction, up: seq<seq<Direction>>, sent: seq<seq<Direction>>,
                   before: seq<seq<Direction>>, after: seq<seq<Direction>>)
    requires n >= 2 && n == |up| == |sent| == |before| && j < n && HasNext(n, j, t)
    requires up == sent[j := [t] + sent[j]] && after == before[Next(j, t) := before[Next(j, t)] + [t]]
    ensures Count(Leftward, sent[0]) == Count(Leftward, up[0]) && Count(Rightward, sent[n - 1]) == Count(Rightward, up[n - 1])
    ensures Count(Rightward, after[0]) == Count(Rightward, before[0]) && Count(Leftward, after[n - 1]) == Count(Leftward, before[n - 1])
  {
    var q := Next(j, t);
    MarksFirst(Leftward, t, sent[j]);
    MarksFirst(Rightward, t, sent[j]);
    MarksMore(Leftward, before[q], t);
    MarksMore(Rightward, before[q], t);
  }

  lemma PassRest(n: nat, f: Flow, j: nat, q: nat, events: seq<Event>, sent: seq<seq<Direction>>, k: nat,
                 after: seq<seq<Direction>>, l: nat)
    requires n >= 2 && n == |sent| == |after| && j < n && q < n && k <= |sent[j]|
    requires Gets(n + 2, events, RowFor(n, after, sent, f))
    requires if Interior(n, j) then k == 0
             else var a := Opposite(DirOf(j)); sent[j] == Repeat(a, k) + sent[j][k..] && Count(a, sent[j]) <= Going(f, a)
    requires !Interior(n, q) ==> Count(DirOf(q), after[q]) + l <= Coming(f, DirOf(q))
    ensures Gets(n + 2, events, RowFor(n, if Interior(n, q) then after else after[q := after[q] + Repeat(DirOf(q), l)],
                                       sent[j := sent[j][k..]], f))
  {
    if Interior(n, j) {
      assert sent[j := sent[j][k..]] == sent;
    } else {
      Flushes(n, after, sent, f, events, j, k, sent[j][k..]);
    }
    if !Interior(n, q) {
      Trails(n, after, sent[j := sent[j][k..]], f, events, q, l);
    }
  }

  // ---- Every step ----------------------------------------------------------------------------

  /** What happens somewhere in a chain of so many proxies. */
  predicate Proper(n: nat, f: Flow, c: Change)
    requires n == |f.outs| && n >= 2
  {
    match c
    case Calm => true
    case Crosses(p, t) => HasNext(n + 2, p, t)
    case Acts(Sent(at, d, m)) => Quiet(m) && HasNext(n + 2, at, d)
    case Acts(Received(at, d, m)) =>
      Quiet(m) && at < n + 2 && (at == Start(Opposite(d), n) ==> Count(d, f.outs[Edge(Opposite(d), n)]) < Going(f, d))
      && at != Start(d, n)
  }

  function EventsIn(c: Change): seq<Event> {
    match c
    case Acts(e) => [e]
    case _ => []
  }

  /** Whatever happens, a row of places can follow. */
  lemma Followed(n: nat, f: Flow, c: Change, f': Flow, events: seq<Event>)
    requires n == |f.ins| == |f.outs| && Sound(n, f) && FlowStep(n, f, c, f') && Follows(n, f, events) && Proper(n, f, c)
    ensures Follows(n, f', events + EventsIn(c))
  {
    assert events + [] == events;
    match c
    case Calm => CalmFollows(n, f, f', events);
    case Crosses(p, t) =>
      if p == Start(t, n) {
        Enters(n, f, t, f', events);
      } else if p == Edge(Opposite(t), n) + 1 {
        assert DirOf(p - 1) == Opposite(t);
        Leaves(n, f, p - 1, f', events);
      } else {
        Passes(n, f, p - 1, t, f', events);
      }
    case Acts(e) =>
      if e.at == 0 || e.at == n + 1 {
        var d := if e.at == 0 then Rightward else Leftward;
        if e.Sent? {
          EndSends(n, f, c, f', events, d);
        } else {
          EndReceives(n, f, c, f', events, d);
        }
      } else if e.Sent? {
        ProxySends(n, f, c, f', events, e.at - 1);
      } else {
        ProxyReceives(n, f, c, f', events, e.at - 1);
      }
  }

  /** At the start, and whenever there is a row that follows, some row shows the events. */
  lemma NothingYet(n: nat, f: Flow)
    requires n >= 2 && f == Flow(seq(n, _ => []), seq(n, _ => []), 0, 0, 0, 0)
    ensures Follows(n, f, [])
  {
    var up: seq<seq<Direction>> := seq(n, _ => []);
    forall j | 0 <= j < n ensures KeptAt(n, f, up, j) {
      SoonerSame(Opposite(DirOf(j)), up[j]);
    }
    forall down | MayCome(n, f, down) ensures Gets(n + 2, [], RowFor(n, down, up, f)) {
      forall j | 0 <= j < n ensures down[j] == [] {
        assert MayComeAt(n, f, down, j);
        NoMarks(DirOf(j), down[j]);
        EarlyIs(DirOf(j), down[j], f.ins[j]);
      }
      EndQueues(n, down, up, f);
      assert Repeat(Leftward, 0) == [] && Repeat(Rightward, 0) == [];
      SameRow(RowFor(n, down, up, f), Still(n + 2));
      GetsStill(n + 2);
    }
    assert Kept(n, f, up) && AllGot(n, f, up, []);
  }

  lemma {:induction false} NoMarks(d: Direction, s: seq<Direction>)
    ensures Marks(d, s) == [] && Count(d, s) == 0 ==> s == []
  {
    if s != [] {
      NoMarks(d, s[1..]);
    }
  }

  lemma SomeRow(n: nat, f: Flow, events: seq<Event>) returns (r: Row<Direction>)
    requires n == |f.ins| == |f.outs| && Sound(n, f) && Follows(n, f, events)
    ensures Gets(n + 2, events, r)
  {
    var up :| Kept(n, f, up) && AllGot(n, f, up, events);
    forall j | 0 <= j < n ensures MayComeAt(n, f, f.ins, j) {
      EarlySame(DirOf(j), f.ins[j]);
      assert SoundAt(n, f, DirOf(j));
    }
    assert MayCome(n, f, f.ins);
    r := RowFor(n, f.ins, up, f);
  }
}
