// A row of places that pass messages to their neighbours: what one conductor comes down to.

module Rows {
  import opened Outcomes
  import opened Messages
  import opened Routing
  import opened GapLists
  import opened ProxyTree
  import opened ProxyTreeMoves
  import opened ChainRuns
  import opened ChainSafety

  /** A message on its way that is not a handshake. */
  type Calm = g: Give | Quiet(g.m) witness Give(Rightward, Msg(false, Untyped("", JNull)))

  /** For each place, what has come for it and what it has sent and has not left it yet, oldest first. */
  datatype Row<T> = Row(down: seq<seq<T>>, up: seq<seq<T>>)

  /** Something a place does, or the oldest message a place has sent comes to its neighbour. */
  datatype Op = Happens(e: Event) | Moves(at: nat)

  predicate HasNext(places: nat, at: nat, dir: Direction) {
    at < places && if dir == Rightward then at + 1 < places else at > 0
  }

  function Next(at: nat, dir: Direction): nat {
    if dir == Rightward then at + 1 else if at > 0 then at - 1 else 0
  }

  function Opposite(dir: Direction): Direction { if dir == Rightward then Leftward else Rightward }

  predicate Fits<T>(places: nat, r: Row<T>) { |r.down| == |r.up| == places }

  function PutIn<T>(queues: seq<seq<T>>, at: nat, x: T): (r: seq<seq<T>>)
    requires at < |queues|
    ensures |r| == |queues|
  {
    queues[at := queues[at] + [x]]
  }

  function TakeFrom<T>(queues: seq<seq<T>>, at: nat): (r: seq<seq<T>>)
    requires at < |queues| && queues[at] != []
    ensures |r| == |queues|
  {
    queues[at := queues[at][1..]]
  }

  function Passed<T>(r: Row<T>, at: nat, dir: Direction): Row<T>
    requires at < |r.up| == |r.down| && r.up[at] != [] && HasNext(|r.up|, at, dir)
  {
    Row(PutIn(r.down, Next(at, dir), r.up[at][0]), TakeFrom(r.up, at))
  }

  function Do(r: Row<Calm>, op: Op): Option<Row<Calm>>
    requires |r.up| == |r.down|
  {
    match op
    case Happens(Sent(at, dir, m)) =>
      if HasNext(|r.up|, at, dir) && Quiet(m) then Some(r.(up := PutIn(r.up, at, Give(dir, m)))) else None
    case Happens(Received(at, dir, m)) =>
      if at < |r.down| && r.down[at] != [] && r.down[at][0] == Give(dir, m) then Some(r.(down := TakeFrom(r.down, at))) else None
    case Moves(at) =>
      if at < |r.up| && r.up[at] != [] && HasNext(|r.up|, at, r.up[at][0].dir) then Some(Passed(r, at, r.up[at][0].dir)) else None
  }

  function DoAll(r: Row<Calm>, ops: seq<Op>): (r': Option<Row<Calm>>)
    requires |r.up| == |r.down|
    ensures r'.Some? ==> Fits(|r.up|, r'.value)
  {
    if ops == [] then Some(r) else
    match DoAll(r, ops[..|ops| - 1])
    case None => None
    case Some(before) => Do(before, ops[|ops| - 1])
  }

  function EventsOf(ops: seq<Op>): seq<Event> {
    if ops == [] then [] else
    EventsOf(ops[..|ops| - 1]) + match ops[|ops| - 1] case Happens(e) => [e] case Moves(_) => []
  }

  function Still<T>(places: nat): (r: Row<T>)
    ensures Fits(places, r)
  {
    Row(seq(places, _ => []), seq(places, _ => []))
  }

  /** A row of so many places can show these events. */
  ghost predicate RowShows(places: nat, events: seq<Event>) {
    exists ops :: EventsOf(ops) == events && DoAll(Still(places), ops).Some?
  }

  // ---- Without the messages ------------------------------------------------------------------

  /** The same row with nothing but the direction of each message. */
  function DoTags(r: Row<Direction>, op: Op): Option<Row<Direction>>
    requires |r.up| == |r.down|
  {
    match op
    case Happens(Sent(at, dir, m)) =>
      if HasNext(|r.up|, at, dir) && Quiet(m) then Some(r.(up := PutIn(r.up, at, dir))) else None
    case Happens(Received(at, dir, m)) =>
      if at < |r.down| && r.down[at] != [] && r.down[at][0] == dir then Some(r.(down := TakeFrom(r.down, at))) else None
    case Moves(at) =>
      if at < |r.up| && r.up[at] != [] && HasNext(|r.up|, at, r.up[at][0]) then Some(Passed(r, at, r.up[at][0])) else None
  }

  function DoAllTags(r: Row<Direction>, ops: seq<Op>): (r': Option<Row<Direction>>)
    requires |r.up| == |r.down|
    ensures r'.Some? ==> Fits(|r.up|, r'.value)
  {
    if ops == [] then Some(r) else
    match DoAllTags(r, ops[..|ops| - 1])
    case None => None
    case Some(before) => DoTags(before, ops[|ops| - 1])
  }

  function TagsOf(gs: seq<Calm>): (r: seq<Direction>)
    ensures |r| == |gs|
  {
    seq(|gs|, i requires 0 <= i < |gs| => gs[i].dir)
  }

  function AllTags(queues: seq<seq<Calm>>): (r: seq<seq<Direction>>)
    ensures |r| == |queues|
  {
    seq(|queues|, i requires 0 <= i < |queues| => TagsOf(queues[i]))
  }

  function RowTags(r: Row<Calm>): Row<Direction> { Row(AllTags(r.down), AllTags(r.up)) }

  lemma TagsPutIn(queues: seq<seq<Calm>>, at: nat, g: Calm)
    requires at < |queues|
    ensures AllTags(PutIn(queues, at, g)) == PutIn(AllTags(queues), at, g.dir)
  {
    assert TagsOf(queues[at] + [g]) == TagsOf(queues[at]) + [g.dir];
  }

  lemma TagsTakeFrom(queues: seq<seq<Calm>>, at: nat)
    requires at < |queues| && queues[at] != []
    ensures AllTags(TakeFrom(queues, at)) == TakeFrom(AllTags(queues), at)
    ensures AllTags(queues)[at][0] == queues[at][0].dir
  {
    assert TagsOf(queues[at][1..]) == TagsOf(queues[at])[1..];
  }

  lemma TagsDo(r: Row<Calm>, op: Op)
    requires |r.up| == |r.down| && Do(r, op).Some?
    ensures DoTags(RowTags(r), op) == Some(RowTags(Do(r, op).value))
  {
    match op
    case Happens(Sent(at, dir, m)) => TagsPutIn(r.up, at, Give(dir, m));
    case Happens(Received(at, _, _)) => TagsTakeFrom(r.down, at);
    case Moves(at) =>
      TagsTakeFrom(r.up, at);
      TagsPutIn(r.down, Next(at, r.up[at][0].dir), r.up[at][0]);
  }

  lemma {:induction false} TagsDoAll(r: Row<Calm>, ops: seq<Op>)
    requires |r.up| == |r.down| && DoAll(r, ops).Some?
    ensures DoAllTags(RowTags(r), ops) == Some(RowTags(DoAll(r, ops).value))
  {
    if ops != [] {
      TagsDoAll(r, ops[..|ops| - 1]);
      TagsDo(DoAll(r, ops[..|ops| - 1]).value, ops[|ops| - 1]);
    }
  }

  lemma StillTags(places: nat)
    ensures RowTags(Still(places)) == Still(places)
  {
    assert TagsOf([]) == [];
  }

  lemma SameRow<T>(r: Row<T>, r': Row<T>)
    requires |r.up| == |r'.up| && |r.down| == |r'.down|
    requires forall i :: 0 <= i < |r.up| ==> r.up[i] == r'.up[i]
    requires forall i :: 0 <= i < |r.down| ==> r.down[i] == r'.down[i]
    ensures r == r'
  {
    assert r.up == r'.up && r.down == r'.down;
  }

  /** Some operations lead from the still row to `r`, showing `events`. */
  ghost predicate Gets(places: nat, events: seq<Event>, r: Row<Direction>) {
    exists ops :: EventsOf(ops) == events && DoAllTags(Still(places), ops) == Some(r)
  }

  lemma GetsStill(places: nat)
    ensures Gets(places, [], Still(places))
  {
    assert EventsOf([]) == [] && DoAllTags(Still(places), []) == Some(Still(places));
  }

  lemma GetsOn(places: nat, events: seq<Event>, r: Row<Direction>, op: Op, r': Row<Direction>)
    requires Gets(places, events, r) && |r.up| == |r.down| && DoTags(r, op) == Some(r')
    ensures Gets(places, if op.Happens? then events + [op.e] else events, r')
  {
    var ops :| EventsOf(ops) == events && DoAllTags(Still(places), ops) == Some(r);
    assert (ops + [op])[..|ops|] == ops;
    assert events + [] == events;
    assert DoAllTags(Still(places), ops + [op]) == Some(r');
  }

  // ---- The messages come back ----------------------------------------------------------------

  /** What is in flight after these events along plain links, if they can show them. */
  function Links(dir: Direction, places: nat, events: seq<Event>): (r: Option<Gaps<Traffic>>)
    requires places >= 2
    ensures r.Some? ==> |r.value| == places - 1
  {
    if events == [] then Some(seq(places - 1, _ => [])) else
    match Links(dir, places, events[..|events| - 1])
    case None => None
    case Some(g) => LinkAfter(dir, places, g, events[|events| - 1])
  }

  function LinkAfter(dir: Direction, places: nat, g: Gaps<Traffic>, e: Event): (r: Option<Gaps<Traffic>>)
    requires |g| == places - 1
    ensures r.Some? ==> |r.value| == places - 1
  {
    match e
    case Sent(at, d, m) =>
      if d != dir then Some(g)
      else if at < places && Travel(dir, places, at) < |g| then Some(Append(g, Travel(dir, places, at), Erase(m)))
      else None
    case Received(at, d, m) =>
      if d != dir then Some(g)
      else if at < places && Travel(dir, places, at) > 0 && AtHead(g, Travel(dir, places, at) - 1, Erase(m))
      then Some(Pop(g, Travel(dir, places, at) - 1))
      else None
  }

  function Only(dir: Direction, gs: seq<Calm>): seq<Traffic> {
    if gs == [] then [] else (if gs[0].dir == dir then [gs[0].m] else []) + Only(dir, gs[1..])
  }

  lemma {:induction false} OnlyAppend(dir: Direction, gs: seq<Calm>, g: Calm)
    ensures Only(dir, gs + [g]) == if g.dir == dir then Only(dir, gs) + [g.m] else Only(dir, gs)
  {
    if gs == [] {
      assert [] + [g] == [g];
      OnlyFirst(dir, g, []);
    } else {
      var rest := gs[1..];
      assert gs == [gs[0]] + rest && gs + [g] == [gs[0]] + (rest + [g]);
      OnlyAppend(dir, rest, g);
      OnlyRegroups(dir, gs[0], rest, g);
    }
  }

  lemma {:induction false} OnlyRegroups(dir: Direction, first: Calm, rest: seq<Calm>, g: Calm)
    requires Only(dir, rest + [g]) == if g.dir == dir then Only(dir, rest) + [g.m] else Only(dir, rest)
    ensures var gs := [first] + rest;
      Only(dir, [first] + (rest + [g])) == if g.dir == dir then Only(dir, gs) + [g.m] else Only(dir, gs)
  {
    OnlyFirst(dir, first, rest);
    OnlyFirst(dir, first, rest + [g]);
    InFront(if first.dir == dir then [first.m] else [], Only(dir, rest), g.m);
  }

  lemma InFront(a: seq<Traffic>, b: seq<Traffic>, m: Traffic)
    ensures a + (b + [m]) == (a + b) + [m]
  {
  }

  lemma OnlyFirst(dir: Direction, g: Calm, gs: seq<Calm>)
    ensures Only(dir, [g] + gs) == (if g.dir == dir then [g.m] else []) + Only(dir, gs)
  {
    assert ([g] + gs)[1..] == gs;
  }

  /** What is between the places met after `t` and `t + 1` steps of a journey: what has come for the one, then
      what has not left the other. */
  function Between(dir: Direction, places: nat, r: Row<Calm>, t: nat): seq<Traffic>
    requires Fits(places, r) && t + 1 < places
  {
    Only(dir, r.down[PlaceAt(dir, places, t + 1)]) + Only(dir, r.up[PlaceAt(dir, places, t)])
  }

  ghost predicate Carries(dir: Direction, places: nat, r: Row<Calm>, g: Gaps<Traffic>) {
    && Fits(places, r) && |g| == places - 1
    && forall t {:trigger CarriesAt(dir, places, r, g, t)} :: 0 <= t < places - 1 ==> CarriesAt(dir, places, r, g, t)
  }

  ghost predicate CarriesAt(dir: Direction, places: nat, r: Row<Calm>, g: Gaps<Traffic>, t: nat)
    requires Fits(places, r) && t < places - 1 == |g|
  {
    Between(dir, places, r, t) == g[t]
  }

  lemma SentAt(dir: Direction, places: nat, r: Row<Calm>, g: Gaps<Traffic>, at: nat, m: Calm, g': Gaps<Traffic>, t: nat)
    requires Fits(places, r) && t < places - 1 == |g| && |g'| == |g| && CarriesAt(dir, places, r, g, t)
    requires HasNext(places, at, m.dir)
    requires g' == if m.dir == dir then Append(g, Travel(dir, places, at), m.m) else g
    ensures CarriesAt(dir, places, r.(up := PutIn(r.up, at, m)), g', t)
  {
    OnlyAppend(dir, r.up[at], m);
    var to, from := PlaceAt(dir, places, t + 1), PlaceAt(dir, places, t);
    if m.dir == dir && at == from {
      AddedBehind(Only(dir, r.down[to]), Only(dir, r.up[from]), m.m);
    } else {
      assert Only(dir, PutIn(r.up, at, m)[from]) == Only(dir, r.up[from]);
      assert g'[t] == g[t];
    }
  }

  lemma AddedBehind(down: seq<Traffic>, up: seq<Traffic>, m: Traffic)
    ensures down + (up + [m]) == (down + up) + [m]
  {
  }

  lemma ReceivedAt(dir: Direction, places: nat, r: Row<Calm>, g: Gaps<Traffic>, at: nat, d: Direction, g': Gaps<Traffic>, t: nat)
    requires Fits(places, r) && t < places - 1 == |g| && |g'| == |g| && CarriesAt(dir, places, r, g, t)
    requires at < places && r.down[at] != [] && r.down[at][0].dir == d
    requires if d == dir then Travel(dir, places, at) > 0 && var i := Travel(dir, places, at) - 1; g[i] != [] && g' == Pop(g, i)
             else g' == g
    ensures CarriesAt(dir, places, r.(down := TakeFrom(r.down, at)), g', t)
  {
    if d == dir && t == Travel(dir, places, at) - 1 {
      var x, rest, up := r.down[at][0].m, Only(dir, r.down[at][1..]), Only(dir, r.up[PlaceAt(dir, places, t)]);
      assert Only(dir, r.down[at]) == [x] + rest;
      assert ([x] + rest + up)[1..] == rest + up;
    } else {
      assert Only(dir, r.down[at][1..]) == Only(dir, r.down[at]) || at != PlaceAt(dir, places, t + 1);
    }
  }

  lemma MovedAt(dir: Direction, places: nat, r: Row<Calm>, g: Gaps<Traffic>, at: nat, t: nat)
    requires Fits(places, r) && t < places - 1 == |g| && CarriesAt(dir, places, r, g, t)
    requires at < places && r.up[at] != [] && HasNext(places, at, r.up[at][0].dir)
    ensures CarriesAt(dir, places, Passed(r, at, r.up[at][0].dir), g, t)
  {
    var x, to, from := r.up[at][0], PlaceAt(dir, places, t + 1), PlaceAt(dir, places, t);
    OnlyAppend(dir, r.down[Next(at, x.dir)], x);
    assert r.up[at] == [x] + r.up[at][1..];
    OnlyFirst(dir, x, r.up[at][1..]);
    if x.dir == dir && at == from {
      MovedOver(Only(dir, r.down[to]), x.m, Only(dir, r.up[at][1..]));
    } else {
      NotMoved(dir, places, r, at, to, from);
    }
  }

  lemma NotMoved(dir: Direction, places: nat, r: Row<Calm>, at: nat, to: nat, from: nat)
    requires Fits(places, r) && at < places && r.up[at] != [] && HasNext(places, at, r.up[at][0].dir)
    requires from < places && to == Next(from, dir) && HasNext(places, from, dir) && !(r.up[at][0].dir == dir && at == from)
    requires var x := r.up[at][0];
      && Only(dir, r.down[Next(at, x.dir)] + [x]) == (if x.dir == dir then Only(dir, r.down[Next(at, x.dir)]) + [x.m]
                                                    else Only(dir, r.down[Next(at, x.dir)]))
      && Only(dir, r.up[at]) == (if x.dir == dir then [x.m] else []) + Only(dir, r.up[at][1..])
    ensures var r' := Passed(r, at, r.up[at][0].dir);
      Only(dir, r'.down[to]) == Only(dir, r.down[to]) && Only(dir, r'.up[from]) == Only(dir, r.up[from])
  {
    assert [] + Only(dir, r.up[at][1..]) == Only(dir, r.up[at][1..]);
  }

  lemma MovedOver(down: seq<Traffic>, m: Traffic, up: seq<Traffic>)
    ensures (down + [m]) + up == down + ([m] + up)
  {
  }

  /** Any operation of the row changes what it carries as the links say. */
  lemma CarriesOn(dir: Direction, places: nat, r: Row<Calm>, g: Gaps<Traffic>, op: Op, g': Gaps<Traffic>)
    requires Carries(dir, places, r, g) && Do(r, op).Some?
    requires op.Happens? ==> Quiet(op.e.m) && LinkAfter(dir, places, g, op.e) == Some(g')
    requires op.Moves? ==> g' == g
    ensures Carries(dir, places, Do(r, op).value, g')
  {
    var r' := Do(r, op).value;
    forall t | 0 <= t < places - 1 ensures CarriesAt(dir, places, r', g', t) {
      assert CarriesAt(dir, places, r, g, t);
      match op
      case Happens(Sent(at, d, m)) => SentAt(dir, places, r, g, at, Give(d, m), g', t);
      case Happens(Received(at, d, _)) => ReceivedAt(dir, places, r, g, at, d, g', t);
      case Moves(at) => MovedAt(dir, places, r, g, at, t);
    }
  }

  /** What has come for a place first is the oldest message on that link. */
  lemma HeadIs(dir: Direction, places: nat, r: Row<Calm>, g: Gaps<Traffic>, at: nat)
    requires Carries(dir, places, r, g) && at < places && Travel(dir, places, at) > 0
    requires r.down[at] != [] && r.down[at][0].dir == dir
    ensures AtHead(g, Travel(dir, places, at) - 1, r.down[at][0].m)
  {
    var t := Travel(dir, places, at) - 1;
    assert CarriesAt(dir, places, r, g, t);
    assert PlaceAt(dir, places, t + 1) == at;
  }

  /** Events that the links can show, with the operations that show them but for the messages. */
  ghost predicate Lifted(places: nat, ops: seq<Op>)
    requires places >= 2
  {
    && Links(Rightward, places, EventsOf(ops)).Some? && Links(Leftward, places, EventsOf(ops)).Some?
    && DoAll(Still(places), ops).Some?
    && Carries(Rightward, places, DoAll(Still(places), ops).value, Links(Rightward, places, EventsOf(ops)).value)
    && Carries(Leftward, places, DoAll(Still(places), ops).value, Links(Leftward, places, EventsOf(ops)).value)
  }

  lemma LiftOne(places: nat, r: Row<Calm>, op: Op, g: Gaps<Traffic>, h: Gaps<Traffic>)
    requires places >= 2 && Carries(Rightward, places, r, g) && Carries(Leftward, places, r, h)
    requires DoTags(RowTags(r), op).Some?
    requires op.Happens? ==> LinkAfter(Rightward, places, g, op.e).Some? && LinkAfter(Leftward, places, h, op.e).Some? && Quiet(op.e.m)
    ensures Do(r, op).Some?
  {
    if op.Happens? && op.e.Received? {
      if op.e.dir == Rightward {
        HeadIs(Rightward, places, r, g, op.e.at);
      } else {
        HeadIs(Leftward, places, r, h, op.e.at);
      }
    }
  }

  /** Operations on directions, showing events that plain links can show, are operations on the messages. */
  lemma {:induction false} Lift(places: nat, ops: seq<Op>)
    requires places >= 2 && DoAllTags(Still(places), ops).Some?
    requires Links(Rightward, places, EventsOf(ops)).Some? && Links(Leftward, places, EventsOf(ops)).Some?
    requires forall e :: e in EventsOf(ops) ==> Quiet(e.m)
    ensures Lifted(places, ops)
  {
    if ops == [] {
      StillCarries(Rightward, places);
      StillCarries(Leftward, places);
    } else {
      var init, op := ops[..|ops| - 1], ops[|ops| - 1];
      EventsBefore(ops);
      Lift(places, init);
      var r := DoAll(Still(places), init).value;
      var g, h := Links(Rightward, places, EventsOf(init)).value, Links(Leftward, places, EventsOf(init)).value;
      StillTags(places);
      TagsDoAll(Still(places), init);
      LiftOne(places, r, op, g, h);
      CarriesOn(Rightward, places, r, g, op, Links(Rightward, places, EventsOf(ops)).value);
      CarriesOn(Leftward, places, r, h, op, Links(Leftward, places, EventsOf(ops)).value);
    }
  }

  lemma StillCarries(dir: Direction, places: nat)
    requires places >= 2
    ensures Carries(dir, places, Still(places), seq(places - 1, _ => []))
  {
    var g: Gaps<Traffic> := seq(places - 1, _ => []);
    forall t | 0 <= t < places - 1 ensures CarriesAt(dir, places, Still(places), g, t) {
      assert Only(dir, []) == [];
    }
  }

  lemma EventsBefore(ops: seq<Op>)
    requires ops != []
    ensures var init, op := ops[..|ops| - 1], ops[|ops| - 1];
      if op.Happens? then EventsOf(ops) == EventsOf(init) + [op.e] && EventsOf(ops)[..|EventsOf(ops)| - 1] == EventsOf(init)
      else EventsOf(ops) == EventsOf(init)
  {
    var init, op := ops[..|ops| - 1], ops[|ops| - 1];
    assert EventsOf(init) + [] == EventsOf(init);
  }

  /** Events that plain links can show in each direction and a row can show but for the messages. */
  lemma GetsShows(places: nat, events: seq<Event>, r: Row<Direction>)
    requires places >= 2 && Gets(places, events, r)
    requires Links(Rightward, places, events).Some? && Links(Leftward, places, events).Some?
    requires forall e :: e in events ==> Quiet(e.m)
    ensures RowShows(places, events)
  {
    var ops :| EventsOf(ops) == events && DoAllTags(Still(places), ops) == Some(r);
    Lift(places, ops);
  }
}
