// What the dispatch loop guarantees for every order in which its three input streams are merged.

module DispatchLoopRuns {
  import opened Outcomes
  import opened Messages
  import opened DispatchLoop

  // ---- What arrives --------------------------------------------------------------------------

  /** The subscriptions that wait for a response after `inputs`. */
  function Waiting(inputs: seq<Input>): map<nat, ResponseRoute> {
    if inputs == [] then map[] else
    WaitingAfter(Waiting(inputs[..|inputs| - 1]), inputs[|inputs| - 1])
  }

  /** What is dispatched: every request and notification, and every response somebody waits for. */
  function Arrivals(inputs: seq<Input>): seq<Dispatch> {
    if inputs == [] then [] else
    var init, last := inputs[..|inputs| - 1], inputs[|inputs| - 1];
    Arrivals(init) + ArrivalOf(Waiting(init), last)
  }

  function ArrivalOf(waiting: map<nat, ResponseRoute>, input: Input): seq<Dispatch> {
    match input
    case WireMessage(id, body) => [FromWire(id, body)]
    case WireResponse(Some(id), value, error) =>
      if id in waiting then [Response(ResultOf(value, error), waiting[id])] else []
    case _ => []
  }

  function WaitingAfter(waiting: map<nat, ResponseRoute>, input: Input): map<nat, ResponseRoute> {
    match input
    case Subscribe(route) => waiting[route.id := route]
    case WireResponse(Some(id), _, _) => waiting - {id}
    case _ => waiting
  }

  /** An arrival is dispatched under the next number. */
  lemma HandleArrival(env: Env, s: Loop, input: Input)
    requires ArrivalOf(s.replies, input) != []
    ensures |ArrivalOf(s.replies, input)| == 1
    ensures Handle(env, s, input)
         == DispatchOne(env, s.(arrived := s.arrived + 1, replies := WaitingAfter(s.replies, input)),
                        Item(s.arrived, ArrivalOf(s.replies, input)[0]))
  {
  }

  lemma {:induction false} OneKeepsReplies(env: Env, s: Loop, item: Item)
    requires DispatchOne(env, s, item).Some?
    ensures var s' := DispatchOne(env, s, item).value;
      s'.replies == s.replies && s'.arrived == s.arrived && s'.dynamic == s.dynamic
  {
  }

  lemma {:induction false} OfferKeepsReplies(env: Env, s: Loop, handler: Handler, items: seq<Item>)
    requires Offer(env, s, handler, items).Some?
    ensures var s' := Offer(env, s, handler, items).value;
      s'.replies == s.replies && s'.arrived == s.arrived && s'.dynamic == s.dynamic
    decreases |items|
  {
    if items != [] {
      var item, s' := items[0], s.(calls := s.calls + 1);
      match env.decide(handler, s.calls, item.message)
      case Ok(Claimed) => OfferKeepsReplies(env, s'.(log := s.log + [Taken(item, handler)]), handler, items[1..]);
      case Ok(Declined(d, _)) => OfferKeepsReplies(env, s'.(pending := s.pending + [Item(item.number, d)]), handler, items[1..]);
    }
  }

  lemma {:induction false} HandleKeepsReplies(env: Env, s: Loop, input: Input)
    requires Handle(env, s, input).Some?
    ensures var s' := Handle(env, s, input).value;
      && s'.arrived == s.arrived + |ArrivalOf(s.replies, input)|
      && s'.replies == WaitingAfter(s.replies, input)
  {
    match input
    case AddHandler(uuid) => OfferKeepsReplies(env, s.(pending := []), Dynamic(uuid), s.pending);
    case WireResponse(Some(id), _, _) =>
      if id !in s.replies {
        assert s.replies - {id} == s.replies;
      }
    case _ =>
  }

  lemma {:induction false} RunArrivals(env: Env, inputs: seq<Input>)
    requires HandleAll(env, START, inputs).Some?
    ensures var s := HandleAll(env, START, inputs).value;
      s.replies == Waiting(inputs) && s.arrived == |Arrivals(inputs)|
  {
    if inputs != [] {
      var init := inputs[..|inputs| - 1];
      RunArrivals(env, init);
      HandleKeepsReplies(env, HandleAll(env, START, init).value, inputs[|inputs| - 1]);
    }
  }

  // ---- Conservation --------------------------------------------------------------------------

  function ItemNumbers(items: seq<Item>): (r: seq<nat>)
    ensures |r| == |items|
  {
    seq(|items|, i requires 0 <= i < |items| => items[i].number)
  }

  function LogNumbers(log: seq<Outcome>): seq<nat> {
    if log == [] then [] else
    LogNumbers(log[..|log| - 1]) + if log[|log| - 1].Complaint? then [] else [log[|log| - 1].item.number]
  }

  lemma {:induction false} LogNumbersOfOne(log: seq<Outcome>, o: Outcome)
    ensures LogNumbers(log + [o]) == LogNumbers(log) + if o.Complaint? then [] else [o.item.number]
  {
    assert (log + [o])[..|log|] == log;
  }

  function Range(n: nat): seq<nat> { seq(n, i requires 0 <= i < n => i) }

  /** Every number that has an outcome or is pending, as often as it does. */
  function Tally(s: Loop): multiset<nat> {
    multiset(LogNumbers(s.log)) + multiset(ItemNumbers(s.pending))
  }

  ghost predicate Increasing(xs: seq<nat>) {
    forall i, j :: 0 <= i < j < |xs| ==> xs[i] < xs[j]
  }

  lemma {:induction false} TallyLog(s: Loop, o: Outcome)
    requires !o.Complaint?
    ensures Tally(s.(log := s.log + [o])) == Tally(s) + multiset{o.item.number}
  {
    LogNumbersOfOne(s.log, o);
  }

  lemma {:induction false} TallyPending(s: Loop, item: Item)
    ensures Tally(s.(pending := s.pending + [item])) == Tally(s) + multiset{item.number}
    ensures ItemNumbers(s.pending + [item]) == ItemNumbers(s.pending) + [item.number]
  {
    assert ItemNumbers(s.pending + [item]) == ItemNumbers(s.pending) + [item.number];
  }

  lemma {:induction false} OneTallies(env: Env, s: Loop, item: Item)
    requires DispatchOne(env, s, item).Some?
    ensures var s' := DispatchOne(env, s, item).value;
      && Tally(s') == Tally(s) + multiset{item.number}
      && (ItemNumbers(s'.pending) == ItemNumbers(s.pending) || ItemNumbers(s'.pending) == ItemNumbers(s.pending) + [item.number])
  {
    var asked := AskChain(env, s.calls, ChainOf(env, s.calls, s.dynamic), item.message, false);
    var s' := s.(calls := asked.calls);
    match asked.answer
    case TakenBy(handler, d) => TallyLog(s', Taken(Item(item.number, d), handler));
    case NotTaken(d, retry) =>
      var asIs := Item(item.number, d);
      if retry {
        TallyPending(s', asIs);
      } else {
        TallyLog(s', if d.Response? then Delivered(asIs) else Rejected(asIs));
      }
  }

  lemma {:induction false} OfferTallies(env: Env, s: Loop, handler: Handler, items: seq<Item>)
    requires Offer(env, s, handler, items).Some?
    ensures Tally(Offer(env, s, handler, items).value) == Tally(s) + multiset(ItemNumbers(items))
    decreases |items|
  {
    if items != [] {
      var item, rest := items[0], items[1..];
      FirstNumber(items);
      match env.decide(handler, s.calls, item.message)
      case Ok(Claimed) =>
        TallyLog(s.(calls := s.calls + 1), Taken(item, handler));
        OfferTallies(env, s.(calls := s.calls + 1, log := s.log + [Taken(item, handler)]), handler, rest);
      case Ok(Declined(d, _)) =>
        TallyPending(s.(calls := s.calls + 1), Item(item.number, d));
        OfferTallies(env, s.(calls := s.calls + 1, pending := s.pending + [Item(item.number, d)]), handler, rest);
    }
  }

  lemma FirstNumber(items: seq<Item>)
    requires items != []
    ensures ItemNumbers(items) == [items[0].number] + ItemNumbers(items[1..])
    ensures multiset(ItemNumbers(items)) == multiset{items[0].number} + multiset(ItemNumbers(items[1..]))
  {
    assert ItemNumbers(items) == [items[0].number] + ItemNumbers(items[1..]);
  }

  /** What stays pending stays in order. */
  lemma {:induction false} OfferKeepsOrder(env: Env, s: Loop, handler: Handler, items: seq<Item>)
    requires Offer(env, s, handler, items).Some?
    requires Increasing(ItemNumbers(s.pending) + ItemNumbers(items))
    ensures var s' := Offer(env, s, handler, items).value;
      && Increasing(ItemNumbers(s'.pending))
      && (forall n :: n in ItemNumbers(s'.pending) ==> n in ItemNumbers(s.pending) + ItemNumbers(items))
    decreases |items|
  {
    if items == [] {
      assert ItemNumbers(s.pending) + [] == ItemNumbers(s.pending);
    } else {
      var item, rest := items[0], items[1..];
      FirstNumber(items);
      match env.decide(handler, s.calls, item.message)
      case Ok(Claimed) =>
        DropMiddle(ItemNumbers(s.pending), item.number, ItemNumbers(rest));
        OfferKeepsOrder(env, s.(calls := s.calls + 1, log := s.log + [Taken(item, handler)]), handler, rest);
      case Ok(Declined(d, _)) =>
        TallyPending(s, Item(item.number, d));
        assert ItemNumbers(s.pending) + [item.number] + ItemNumbers(rest) == ItemNumbers(s.pending) + ItemNumbers(items);
        OfferKeepsOrder(env, s.(calls := s.calls + 1, pending := s.pending + [Item(item.number, d)]), handler, rest);
    }
  }

  lemma DropMiddle(a: seq<nat>, x: nat, b: seq<nat>)
    ensures Increasing(a + ([x] + b)) ==> Increasing(a + b)
  {
    var whole, rest := a + ([x] + b), a + b;
    if Increasing(whole) {
      forall i, j | 0 <= i < j < |rest| ensures rest[i] < rest[j] {
        var i' := if i < |a| then i else i + 1;
        var j' := if j < |a| then j else j + 1;
        assert whole[i'] == rest[i] && whole[j'] == rest[j];
      }
    }
  }

  ghost predicate Conserved(s: Loop) {
    && Tally(s) == multiset(Range(s.arrived))
    && Increasing(ItemNumbers(s.pending))
    && (forall n :: n in ItemNumbers(s.pending) ==> n < s.arrived)
  }

  lemma {:induction false} HandleConserves(env: Env, s: Loop, input: Input)
    requires Conserved(s) && Handle(env, s, input).Some?
    ensures Conserved(Handle(env, s, input).value)
  {
    if ArrivalOf(s.replies, input) != [] {
      HandleArrival(env, s, input);
      ArrivalConserves(env, s, WaitingAfter(s.replies, input), ArrivalOf(s.replies, input)[0]);
    } else {
      match input
      case AddHandler(uuid) =>
        var emptied := s.(pending := []);
        assert ItemNumbers([]) == [] && [] + ItemNumbers(s.pending) == ItemNumbers(s.pending);
        OfferTallies(env, emptied, Dynamic(uuid), s.pending);
        OfferKeepsOrder(env, emptied, Dynamic(uuid), s.pending);
        OfferKeepsReplies(env, emptied, Dynamic(uuid), s.pending);
      case WireGarbage(cause) => LogNumbersOfOne(s.log, Complaint(cause));
      case _ =>
    }
  }

  lemma {:induction false} ArrivalConserves(env: Env, s: Loop, replies: map<nat, ResponseRoute>, d: Dispatch)
    requires Conserved(s)
    requires DispatchOne(env, s.(arrived := s.arrived + 1, replies := replies), Item(s.arrived, d)).Some?
    ensures Conserved(DispatchOne(env, s.(arrived := s.arrived + 1, replies := replies), Item(s.arrived, d)).value)
  {
    var s' := s.(arrived := s.arrived + 1, replies := replies);
    OneTallies(env, s', Item(s.arrived, d));
    OneKeepsReplies(env, s', Item(s.arrived, d));
    RangeGrows(s.arrived);
    assert Tally(s') == Tally(s);
    IncreasingAppend(ItemNumbers(s.pending), s.arrived);
  }

  lemma RangeGrows(n: nat)
    ensures multiset(Range(n + 1)) == multiset(Range(n)) + multiset{n}
  {
    assert Range(n + 1) == Range(n) + [n];
  }

  lemma IncreasingAppend(xs: seq<nat>, x: nat)
    requires Increasing(xs) && forall n :: n in xs ==> n < x
    ensures Increasing(xs + [x]) && forall n :: n in xs + [x] ==> n < x + 1
  {
    forall i, j | 0 <= i < j < |xs| + 1 ensures (xs + [x])[i] < (xs + [x])[j] {
      assert xs[i] in xs;
    }
  }

  /** Every message that has arrived is in exactly one place: it has one outcome, or it is pending; and what is
      pending is in the order of arrival. */
  lemma {:induction false} RunConserves(env: Env, inputs: seq<Input>)
    requires HandleAll(env, START, inputs).Some?
    ensures Conserved(HandleAll(env, START, inputs).value)
  {
    if inputs != [] {
      var init := inputs[..|inputs| - 1];
      RunConserves(env, init);
      HandleConserves(env, HandleAll(env, START, init).value, inputs[|inputs| - 1]);
    } else {
      assert Range(0) == [] && ItemNumbers([]) == [];
    }
  }

  // ---- First claim, any vote to retry --------------------------------------------------------

  /** Handlers return a message they decline as they got it. */
  ghost predicate Faithful(env: Env) {
    forall h, n, d :: ReturnsIt(env, h, n, d)
  }

  predicate ReturnsIt(env: Env, h: Handler, n: nat, d: Dispatch) {
    match env.decide(h, n, d) case Ok(Declined(d', _)) => d' == d case _ => true
  }

  predicate Claims(env: Env, h: Handler, n: nat, d: Dispatch) {
    env.decide(h, n, d) == Ok(Claimed)
  }

  predicate Declines(env: Env, h: Handler, n: nat, d: Dispatch) {
    env.decide(h, n, d).Ok? && env.decide(h, n, d).value.Declined?
  }

  predicate VotesRetry(env: Env, h: Handler, n: nat, d: Dispatch) {
    Declines(env, h, n, d) && env.decide(h, n, d).value.retry
  }

  ghost predicate AllDecline(env: Env, chain: seq<Handler>, n: nat, d: Dispatch) {
    forall i :: 0 <= i < |chain| ==> Declines(env, chain[i], n + i, d)
  }

  ghost predicate ClaimsFirst(env: Env, chain: seq<Handler>, n: nat, d: Dispatch, i: nat)
    requires i < |chain|
  {
    Claims(env, chain[i], n + i, d) && AllDecline(env, chain[..i], n, d)
  }

  ghost predicate SomeVote(env: Env, chain: seq<Handler>, n: nat, d: Dispatch) {
    exists i :: 0 <= i < |chain| && VotesRetry(env, chain[i], n + i, d)
  }

  lemma {:induction false} ChainDecides(env: Env, n: nat, chain: seq<Handler>, d: Dispatch, retry: bool)
    requires Faithful(env)
    ensures match AskChain(env, n, chain, d, retry).answer
      case TakenBy(h, d') => d' == d && exists i :: 0 <= i < |chain| && chain[i] == h && ClaimsFirst(env, chain, n, d, i)
      case NotTaken(d', retry') => d' == d && AllDecline(env, chain, n, d) && (retry' <==> retry || SomeVote(env, chain, n, d))
      case Failed => exists i :: 0 <= i < |chain| && env.decide(chain[i], n + i, d).Err? && AllDecline(env, chain[..i], n, d)
    decreases |chain|
  {
    if chain != [] {
      assert ReturnsIt(env, chain[0], n, d);
      var rest := chain[1..];
      match env.decide(chain[0], n, d)
      case Err(_) => assert AllDecline(env, chain[..0], n, d);
      case Ok(Claimed) => assert ClaimsFirst(env, chain, n, d, 0);
      case Ok(Declined(d', again)) =>
        ChainDecides(env, n + 1, rest, d, retry || again);
        ShiftChain(env, n, chain, d);
        var answer := AskChain(env, n + 1, rest, d, retry || again).answer;
        if answer.TakenBy? {
          var i :| 0 <= i < |rest| && rest[i] == answer.handler && ClaimsFirst(env, rest, n + 1, d, i);
          assert rest[i] == chain[i + 1];
          assert ClaimsFirst(env, chain, n, d, i + 1);
        }
    }
  }

  lemma {:induction false} ShiftChain(env: Env, n: nat, chain: seq<Handler>, d: Dispatch)
    requires chain != [] && Declines(env, chain[0], n, d)
    ensures AllDecline(env, chain, n, d) <==> AllDecline(env, chain[1..], n + 1, d)
    ensures SomeVote(env, chain, n, d) <==> VotesRetry(env, chain[0], n, d) || SomeVote(env, chain[1..], n + 1, d)
    ensures forall i :: 0 <= i < |chain| - 1 ==>
      (AllDecline(env, chain[..i + 1], n, d) <==> AllDecline(env, chain[1..][..i], n + 1, d))
  {
    ShiftDeclines(env, n, chain, d);
    forall i | 0 <= i < |chain| - 1
      ensures AllDecline(env, chain[..i + 1], n, d) <==> AllDecline(env, chain[1..][..i], n + 1, d)
    {
      assert chain[..i + 1][1..] == chain[1..][..i];
      ShiftDeclines(env, n, chain[..i + 1], d);
    }
    if SomeVote(env, chain, n, d) && !VotesRetry(env, chain[0], n, d) {
      var i :| 0 <= i < |chain| && VotesRetry(env, chain[i], n + i, d);
      assert chain[1..][i - 1] == chain[i];
      assert VotesRetry(env, chain[1..][i - 1], n + 1 + (i - 1), d);
    }
    if SomeVote(env, chain[1..], n + 1, d) {
      var i :| 0 <= i < |chain| - 1 && VotesRetry(env, chain[1..][i], n + 1 + i, d);
      assert VotesRetry(env, chain[i + 1], n + (i + 1), d);
    }
  }

  lemma {:induction false} ShiftDeclines(env: Env, n: nat, chain: seq<Handler>, d: Dispatch)
    requires chain != [] && Declines(env, chain[0], n, d)
    ensures AllDecline(env, chain, n, d) <==> AllDecline(env, chain[1..], n + 1, d)
  {
    if AllDecline(env, chain[1..], n + 1, d) {
      forall i | 0 <= i < |chain| ensures Declines(env, chain[i], n + i, d) {
        assert i > 0 ==> Declines(env, chain[1..][i - 1], n + 1 + (i - 1), d);
      }
    }
    if AllDecline(env, chain, n, d) {
      forall i | 0 <= i < |chain[1..]| ensures Declines(env, chain[1..][i], n + 1 + i, d) {
        assert Declines(env, chain[i + 1], n + (i + 1), d);
      }
    }
  }

  /** A message is queued if and only if no handler claims it and some handler votes to retry; rejected, or
      delivered to its waiter, if and only if none claims it and none votes; otherwise the first to claim has it. */
  lemma {:induction false} DispatchDecides(env: Env, s: Loop, item: Item)
    requires Faithful(env) && DispatchOne(env, s, item).Some?
    ensures var s', chain := DispatchOne(env, s, item).value, ChainOf(env, s.calls, s.dynamic);
      if !AllDecline(env, chain, s.calls, item.message) then
        exists i :: 0 <= i < |chain| && ClaimsFirst(env, chain, s.calls, item.message, i)
                    && s'.pending == s.pending && s'.log == s.log + [Taken(item, chain[i])]
      else if SomeVote(env, chain, s.calls, item.message) then s'.pending == s.pending + [item] && s'.log == s.log
      else s'.pending == s.pending
           && s'.log == s.log + [if item.message.Response? then Delivered(item) else Rejected(item)]
  {
    var chain := ChainOf(env, s.calls, s.dynamic);
    ChainDecides(env, s.calls, chain, item.message, false);
    var answer := AskChain(env, s.calls, chain, item.message, false).answer;
    if answer.TakenBy? {
      var i :| 0 <= i < |chain| && chain[i] == answer.handler && ClaimsFirst(env, chain, s.calls, item.message, i);
      assert !Declines(env, chain[i], s.calls + i, item.message);
    }
  }

  /** The user's handlers come first, and the default only when every other has declined. */
  lemma {:induction false} UserFirstDefaultLast(env: Env, s: Loop, item: Item)
    requires Faithful(env) && Lawful(env) && DispatchOne(env, s, item).Some?
    ensures var s' := DispatchOne(env, s, item).value;
      && (Claims(env, Static, s.calls, item.message) ==> s'.log == s.log + [Taken(item, Static)])
      && (s'.log == s.log + [Taken(item, Default)] ==>
            Declines(env, Static, s.calls, item.message)
            && forall u :: u in s.dynamic ==> exists n :: Declines(env, Dynamic(u), n, item.message))
  {
    var chain := ChainOf(env, s.calls, s.dynamic);
    ChainDecides(env, s.calls, chain, item.message, false);
    var answer := AskChain(env, s.calls, chain, item.message, false).answer;
    assert chain[0] == Static;
    if Claims(env, Static, s.calls, item.message) {
      assert !Declines(env, chain[0], s.calls + 0, item.message);
    }
    var log := DispatchOne(env, s, item).value.log;
    if log == s.log + [Taken(item, Default)] {
      assert log[|s.log|] == Taken(item, Default);
      var i :| 0 <= i < |chain| && chain[i] == Default && ClaimsFirst(env, chain, s.calls, item.message, i);
      assert Declines(env, chain[..i][0], s.calls + 0, item.message);
      forall u | u in s.dynamic ensures exists n :: Declines(env, Dynamic(u), n, item.message) {
        var order := env.order(s.calls, s.dynamic);
        assert Enumerates(order, s.dynamic);
        var j :| 0 <= j < |order| && order[j] == u;
        assert chain[..i][1 + j] == Dynamic(u);
        assert Declines(env, Dynamic(u), s.calls + (1 + j), item.message);
      }
    }
  }

  /** In every run each outcome and each pending entry is of the message that arrived under that number. */
  ghost predicate TrueTo(s: Loop, arrivals: seq<Dispatch>) {
    && (forall item :: item in s.pending ==> item.number < |arrivals| && item.message == arrivals[item.number])
    && (forall o :: o in s.log && !o.Complaint? ==> o.item.number < |arrivals| && o.item.message == arrivals[o.item.number])
  }

  lemma {:induction false} OfferIsTrue(env: Env, s: Loop, handler: Handler, items: seq<Item>, arrivals: seq<Dispatch>)
    requires Faithful(env) && Offer(env, s, handler, items).Some? && TrueTo(s, arrivals)
    requires forall item :: item in items ==> item.number < |arrivals| && item.message == arrivals[item.number]
    ensures TrueTo(Offer(env, s, handler, items).value, arrivals)
    decreases |items|
  {
    if items != [] {
      var item, s' := items[0], s.(calls := s.calls + 1);
      assert ReturnsIt(env, handler, s.calls, item.message);
      assert item in items;
      match env.decide(handler, s.calls, item.message)
      case Ok(Claimed) => OfferIsTrue(env, s'.(log := s.log + [Taken(item, handler)]), handler, items[1..], arrivals);
      case Ok(Declined(d, _)) => OfferIsTrue(env, s'.(pending := s.pending + [Item(item.number, d)]), handler, items[1..], arrivals);
    }
  }

  lemma {:induction false} OneIsTrue(env: Env, s: Loop, item: Item, arrivals: seq<Dispatch>)
    requires Faithful(env) && DispatchOne(env, s, item).Some? && TrueTo(s, arrivals)
    requires item.number == |arrivals|
    ensures TrueTo(DispatchOne(env, s, item).value, arrivals + [item.message])
  {
    DispatchDecides(env, s, item);
  }

  lemma {:induction false} RunIsTrue(env: Env, inputs: seq<Input>)
    requires Faithful(env) && HandleAll(env, START, inputs).Some?
    ensures TrueTo(HandleAll(env, START, inputs).value, Arrivals(inputs))
  {
    if inputs != [] {
      var init, last := inputs[..|inputs| - 1], inputs[|inputs| - 1];
      var s := HandleAll(env, START, init).value;
      RunIsTrue(env, init);
      RunArrivals(env, init);
      HandleIsTrue(env, s, last, Arrivals(init));
    }
  }

  lemma {:induction false} HandleIsTrue(env: Env, s: Loop, input: Input, arrivals: seq<Dispatch>)
    requires Faithful(env) && Handle(env, s, input).Some? && TrueTo(s, arrivals) && s.arrived == |arrivals|
    ensures TrueTo(Handle(env, s, input).value, arrivals + ArrivalOf(s.replies, input))
  {
    if ArrivalOf(s.replies, input) != [] {
      HandleArrival(env, s, input);
      OneIsTrue(env, s.(arrived := s.arrived + 1, replies := WaitingAfter(s.replies, input)),
                Item(s.arrived, ArrivalOf(s.replies, input)[0]), arrivals);
    } else {
      assert arrivals + [] == arrivals;
      if input.AddHandler? {
        OfferIsTrue(env, s.(pending := []), Dynamic(input.uuid), s.pending, arrivals);
      }
    }
  }

  // ---- Response correlation ------------------------------------------------------------------

  /** Each request is subscribed to under an id and for a waiter of its own. */
  ghost predicate FreshSubscriptions(inputs: seq<Input>) {
    forall i, j :: 0 <= i < j < |inputs| && inputs[i].Subscribe? && inputs[j].Subscribe? ==>
      inputs[i].route.id != inputs[j].route.id && inputs[i].route.waiter != inputs[j].route.waiter
  }

  ghost predicate Subscribed(inputs: seq<Input>, route: ResponseRoute) {
    Subscribe(route) in inputs
  }

  /** A response that is dispatched answers a subscription dequeued before it, under the id of that one; and no
      subscription is answered twice. */
  ghost predicate Correlated(inputs: seq<Input>, waiting: map<nat, ResponseRoute>, arrivals: seq<Dispatch>) {
    && (forall id :: id in waiting ==> waiting[id].id == id && Subscribed(inputs, waiting[id]))
    && (forall d :: d in arrivals && d.Response? ==> Subscribed(inputs, d.route) && d.route.id !in waiting)
    && AnsweredOnce(arrivals)
  }

  lemma {:induction false} ResponsesCorrelate(inputs: seq<Input>)
    requires FreshSubscriptions(inputs)
    ensures Correlated(inputs, Waiting(inputs), Arrivals(inputs))
  {
    if inputs != [] {
      var init, last := inputs[..|inputs| - 1], inputs[|inputs| - 1];
      assert inputs == init + [last];
      ResponsesCorrelate(init);
      if last.Subscribe? {
        NewSubscription(init, last.route);
      }
      CorrelatesNext(init, last, Waiting(init), Arrivals(init));
    }
  }

  lemma {:induction false} CorrelatesNext(init: seq<Input>, last: Input, waiting: map<nat, ResponseRoute>, arrivals: seq<Dispatch>)
    requires Correlated(init, waiting, arrivals)
    requires last.Subscribe? ==> forall r :: Subscribed(init, r) ==> r.id != last.route.id
    ensures Correlated(init + [last], WaitingAfter(waiting, last), arrivals + ArrivalOf(waiting, last))
  {
    assert arrivals + [] == arrivals;
  }

  ghost predicate AnsweredOnce(arrivals: seq<Dispatch>) {
    forall i, j :: 0 <= i < j < |arrivals| && arrivals[i].Response? && arrivals[j].Response? ==>
      arrivals[i].route.id != arrivals[j].route.id
  }

  lemma NewSubscription(init: seq<Input>, route: ResponseRoute)
    requires FreshSubscriptions(init + [Subscribe(route)])
    ensures forall r :: Subscribed(init, r) ==> r.id != route.id && r.waiter != route.waiter
  {
    var inputs := init + [Subscribe(route)];
    forall r | Subscribed(init, r) ensures r.id != route.id && r.waiter != route.waiter {
      var i :| 0 <= i < |init| && init[i] == Subscribe(r);
      assert inputs[i] == Subscribe(r) && inputs[|init|] == Subscribe(route);
    }
  }

  /** No waiter is sent two responses, however the input streams are merged. */
  lemma {:induction false} AtMostOneResponse(env: Env, inputs: seq<Input>, p: nat, q: nat)
    requires Faithful(env) && FreshSubscriptions(inputs) && HandleAll(env, START, inputs).Some?
    requires var log := HandleAll(env, START, inputs).value.log;
      p < q < |log| && log[p].Delivered? && log[q].Delivered? && log[p].item.message.Response? && log[q].item.message.Response?
    ensures var log := HandleAll(env, START, inputs).value.log;
      && log[p].item.message.route.waiter != log[q].item.message.route.waiter
      && log[p].item.message.route.id != log[q].item.message.route.id
  {
    var s, arrivals := HandleAll(env, START, inputs).value, Arrivals(inputs);
    RunIsTrue(env, inputs);
    RunConserves(env, inputs);
    RunArrivals(env, inputs);
    ResponsesCorrelate(inputs);
    var m, n := s.log[p].item.number, s.log[q].item.number;
    assert s.log[p] in s.log && s.log[q] in s.log;
    OutcomesDiffer(s, p, q);
    assert arrivals[m].Response? && arrivals[n].Response? && arrivals[m] in arrivals && arrivals[n] in arrivals;
    assert arrivals[m].route.id != arrivals[n].route.id by {
      if m < n { assert AnsweredOnce(arrivals); } else { assert n < m && AnsweredOnce(arrivals); }
    }
    DifferentWaiters(inputs, arrivals[m].route, arrivals[n].route);
  }

  lemma DifferentWaiters(inputs: seq<Input>, a: ResponseRoute, b: ResponseRoute)
    requires FreshSubscriptions(inputs) && Subscribed(inputs, a) && Subscribed(inputs, b) && a.id != b.id
    ensures a.waiter != b.waiter
  {
    var i :| 0 <= i < |inputs| && inputs[i] == Subscribe(a);
    var j :| 0 <= j < |inputs| && inputs[j] == Subscribe(b);
    assert i != j;
    if i < j {
      assert inputs[i].Subscribe? && inputs[j].Subscribe?;
    } else {
      assert inputs[j].Subscribe? && inputs[i].Subscribe?;
    }
  }

  lemma {:induction false} Counted(log: seq<Outcome>, p: nat)
    requires p < |log| && !log[p].Complaint?
    ensures multiset(LogNumbers(log))[log[p].item.number] >= 1
  {
    var k := |log| - 1;
    assert log == log[..k] + [log[k]];
    LogNumbersOfOne(log[..k], log[k]);
    if p < k {
      Counted(log[..k], p);
    }
  }

  lemma {:induction false} CountedTwice(log: seq<Outcome>, p: nat, q: nat)
    requires p < q < |log| && !log[p].Complaint? && !log[q].Complaint? && log[p].item.number == log[q].item.number
    ensures multiset(LogNumbers(log))[log[p].item.number] >= 2
  {
    var k := |log| - 1;
    assert log == log[..k] + [log[k]];
    LogNumbersOfOne(log[..k], log[k]);
    if q < k {
      CountedTwice(log[..k], p, q);
    } else {
      Counted(log[..k], p);
    }
  }

  lemma {:induction false} OutcomesDiffer(s: Loop, p: nat, q: nat)
    requires Conserved(s) && p < q < |s.log| && !s.log[p].Complaint? && !s.log[q].Complaint?
    ensures s.log[p].item.number != s.log[q].item.number
  {
    RangeOnce(s.arrived, s.log[p].item.number);
    if s.log[p].item.number == s.log[q].item.number {
      CountedTwice(s.log, p, q);
      assert false;
    }
  }

  lemma {:induction false} RangeOnce(n: nat, k: nat)
    ensures multiset(Range(n))[k] == if k < n then 1 else 0
  {
    if n > 0 {
      assert Range(n) == Range(n - 1) + [n - 1];
      RangeOnce(n - 1, k);
    }
  }

  /** The subscription for `id` that is still to be answered, by what was dequeued last. */
  function LastSubscription(inputs: seq<Input>, id: nat): Option<ResponseRoute> {
    if inputs == [] then None else
    match inputs[|inputs| - 1]
    case Subscribe(route) => if route.id == id then Some(route) else LastSubscription(inputs[..|inputs| - 1], id)
    case WireResponse(Some(other), _, _) => if other == id then None else LastSubscription(inputs[..|inputs| - 1], id)
    case _ => LastSubscription(inputs[..|inputs| - 1], id)
  }

  lemma {:induction false} WaitingIsLast(inputs: seq<Input>, id: nat)
    ensures LastSubscription(inputs, id) == if id in Waiting(inputs) then Some(Waiting(inputs)[id]) else None
  {
    if inputs != [] {
      WaitingIsLast(inputs[..|inputs| - 1], id);
    }
  }

  /** A response reaches its waiter if its subscription was dequeued before it and nobody claims or queues it;
      one that overtakes its subscription is dropped. */
  lemma {:induction false} ResponseReachesWaiter(env: Env, inputs: seq<Input>, id: nat, value: Option<Json>, error: Option<Error>)
    requires Faithful(env) && HandleAll(env, START, inputs).Some?
    ensures var s := HandleAll(env, START, inputs).value;
      var s' := Handle(env, s, WireResponse(Some(id), value, error));
      match LastSubscription(inputs, id)
      case None => s' == Some(s)
      case Some(route) =>
        var d := Response(ResultOf(value, error), route);
        var chain := ChainOf(env, s.calls, s.dynamic);
        AllDecline(env, chain, s.calls, d) && !SomeVote(env, chain, s.calls, d) ==>
          if env.listening(route.waiter, s.calls + |chain|) then
            s'.Some? && s'.value.log == s.log + [Delivered(Item(s.arrived, d))]
          else s' == None
  {
    RunArrivals(env, inputs);
    WaitingIsLast(inputs, id);
    var s, input := HandleAll(env, START, inputs).value, WireResponse(Some(id), value, error);
    if LastSubscription(inputs, id).Some? {
      HandleArrival(env, s, input);
      NobodyWants(env, s.(arrived := s.arrived + 1, replies := WaitingAfter(s.replies, input)),
                  Item(s.arrived, ArrivalOf(s.replies, input)[0]));
    }
  }

  lemma {:induction false} NobodyWants(env: Env, s: Loop, item: Item)
    requires Faithful(env) && item.message.Response?
    ensures var chain := ChainOf(env, s.calls, s.dynamic);
      AllDecline(env, chain, s.calls, item.message) && !SomeVote(env, chain, s.calls, item.message) ==>
        var s' := DispatchOne(env, s, item);
        if env.listening(item.message.route.waiter, s.calls + |chain|) then s'.Some? && s'.value.log == s.log + [Delivered(item)]
        else s' == None
  {
    var chain := ChainOf(env, s.calls, s.dynamic);
    if AllDecline(env, chain, s.calls, item.message) && !SomeVote(env, chain, s.calls, item.message) {
      DeclinedByAll(env, s.calls, chain, item.message, false);
    }
  }

  lemma {:induction false} DeclinedByAll(env: Env, n: nat, chain: seq<Handler>, d: Dispatch, retry: bool)
    requires Faithful(env) && AllDecline(env, chain, n, d)
    ensures AskChain(env, n, chain, d, retry) == Asked(NotTaken(d, retry || SomeVote(env, chain, n, d)), n + |chain|)
    decreases |chain|
  {
    if chain != [] {
      assert Declines(env, chain[0], n + 0, d);
      assert ReturnsIt(env, chain[0], n, d);
      ShiftChain(env, n, chain, d);
      DeclinedByAll(env, n + 1, chain[1..], d, retry || env.decide(chain[0], n, d).value.retry);
    }
  }

  /** The outgoing actor subscribes to a request's response before it sends the request. */
  lemma {:induction false} SubscribedBeforeSent(outgoing: seq<Outgoing>, k: nat)
    requires var puts := PutAll(outgoing); k < |puts| && puts[k].PutMessage? && puts[k].id.Some?
    ensures var puts := PutAll(outgoing);
      k > 0 && puts[k - 1].PutSubscribe? && puts[k - 1].route.id == puts[k].id.value
  {
    var init := outgoing[..|outgoing| - 1];
    if k < |PutAll(init)| {
      SubscribedBeforeSent(init, k);
    } else {
      assert PutAll(outgoing)[k] == PutsOf(outgoing[|outgoing| - 1])[k - |PutAll(init)|];
    }
  }

  // ---- Order within a session ----------------------------------------------------------------

  predicate HasSession(d: Dispatch) {
    !d.Response? && d.body.params.JObject? && "sessionId" in d.body.params.fields
  }

  predicate InSession(session: string, d: Dispatch) {
    HasSession(d) && d.body.params.fields["sessionId"] == JString(session)
  }

  /** The default handler of a connection to an agent. */
  function AgentDefault(d: Dispatch): HandleResult {
    Ok(Declined(d, HasSession(d)))
  }

  /** The handler of an active session. */
  function ActiveSession(session: string, d: Dispatch): HandleResult {
    if !HasSession(d) then Ok(Declined(d, false))
    else if !d.body.params.fields["sessionId"].JString? then Err(ParseError)
    else if InSession(session, d) then Ok(Claimed)
    else Ok(Declined(d, false))
  }

  /** A connection to an agent on which only handler `uuid` is for the session: the others return the session's
      messages unclaimed and make no others look like them. */
  ghost predicate OnlyOneFor(env: Env, session: string, uuid: nat) {
    forall h, n, d :: Respects(env, session, uuid, h, n, d)
  }

  predicate Respects(env: Env, session: string, uuid: nat, h: Handler, n: nat, d: Dispatch) {
    if h == Default then env.decide(h, n, d) == AgentDefault(d)
    else if h == Dynamic(uuid) then env.decide(h, n, d) == ActiveSession(session, d)
    else if InSession(session, d) then Declines(env, h, n, d) && env.decide(h, n, d).value.message == d
    else Declines(env, h, n, d) ==> !InSession(session, env.decide(h, n, d).value.message)
  }

  /** The session's messages among these, in order. */
  function OfSession(session: string, ds: seq<Dispatch>): seq<Dispatch> {
    if ds == [] then [] else
    OfSession(session, ds[..|ds| - 1]) + if InSession(session, ds[|ds| - 1]) then [ds[|ds| - 1]] else []
  }

  function PendingOf(session: string, items: seq<Item>): seq<Dispatch> {
    if items == [] then [] else
    PendingOf(session, items[..|items| - 1])
    + if InSession(session, items[|items| - 1].message) then [items[|items| - 1].message] else []
  }

  /** What a handler has claimed, in order. */
  function ClaimedBy(h: Handler, log: seq<Outcome>): seq<Dispatch> {
    if log == [] then [] else
    var o := log[|log| - 1];
    ClaimedBy(h, log[..|log| - 1]) + if o.Taken? && o.handler == h then [o.item.message] else []
  }

  lemma {:induction false} OneMore(session: string, h: Handler, ds: seq<Dispatch>, d: Dispatch,
                                   items: seq<Item>, item: Item, log: seq<Outcome>, o: Outcome)
    ensures OfSession(session, ds + [d]) == OfSession(session, ds) + if InSession(session, d) then [d] else []
    ensures PendingOf(session, items + [item])
         == PendingOf(session, items) + if InSession(session, item.message) then [item.message] else []
    ensures ClaimedBy(h, log + [o]) == ClaimedBy(h, log) + if o.Taken? && o.handler == h then [o.item.message] else []
  {
    assert (ds + [d])[..|ds|] == ds && (items + [item])[..|items|] == items && (log + [o])[..|log|] == log;
  }

  /** Asked in any order, the others leave a message of the session for its handler, or for the queue. */
  lemma {:induction false} SessionChain(env: Env, session: string, uuid: nat, n: nat, chain: seq<Handler>, d: Dispatch, retry: bool)
    requires OnlyOneFor(env, session, uuid) && InSession(session, d)
    ensures var answer := AskChain(env, n, chain, d, retry).answer;
      if Dynamic(uuid) in chain then answer == TakenBy(Dynamic(uuid), d)
      else answer.NotTaken? && answer.message == d && (retry || Default in chain ==> answer.retry)
    decreases |chain|
  {
    if chain != [] {
      assert Respects(env, session, uuid, chain[0], n, d);
      if chain[0] != Dynamic(uuid) {
        SessionChain(env, session, uuid, n + 1, chain[1..], d, retry || env.decide(chain[0], n, d).value.retry);
      }
    }
  }

  lemma {:induction false} ForeignChain(env: Env, session: string, uuid: nat, n: nat, chain: seq<Handler>, d: Dispatch, retry: bool)
    requires OnlyOneFor(env, session, uuid) && !InSession(session, d)
    ensures match AskChain(env, n, chain, d, retry).answer
      case TakenBy(h, d') => h != Dynamic(uuid) && !InSession(session, d')
      case NotTaken(d', _) => !InSession(session, d')
      case Failed => true
    decreases |chain|
  {
    if chain != [] {
      assert Respects(env, session, uuid, chain[0], n, d);
      match env.decide(chain[0], n, d)
      case Ok(Declined(d', again)) => ForeignChain(env, session, uuid, n + 1, chain[1..], d', retry || again);
      case _ =>
    }
  }

  lemma ChainHas(env: Env, calls: nat, dynamic: set<nat>, uuid: nat)
    requires Lawful(env)
    ensures var chain := ChainOf(env, calls, dynamic);
      Default in chain && (Dynamic(uuid) in chain <==> uuid in dynamic)
  {
    var order := env.order(calls, dynamic);
    assert Enumerates(order, dynamic);
    var chain := ChainOf(env, calls, dynamic);
    assert chain[|chain| - 1] == Default;
    if uuid in dynamic {
      var i :| 0 <= i < |order| && order[i] == uuid;
      assert chain[1 + i] == Dynamic(uuid);
    }
  }

  /** The handler has had the session's messages up to those pending, which wait only until it is there. */
  ghost predicate InOrder(session: string, uuid: nat, s: Loop, arrivals: seq<Dispatch>) {
    && ClaimedBy(Dynamic(uuid), s.log) + PendingOf(session, s.pending) == OfSession(session, arrivals)
    && (uuid in s.dynamic ==> PendingOf(session, s.pending) == [])
    && (uuid !in s.dynamic ==> ClaimedBy(Dynamic(uuid), s.log) == [])
  }

  lemma {:induction false} ArrivalInOrder(env: Env, session: string, uuid: nat, s: Loop, arrivals: seq<Dispatch>, item: Item)
    requires Lawful(env) && OnlyOneFor(env, session, uuid) && InOrder(session, uuid, s, arrivals)
    requires DispatchOne(env, s, item).Some?
    ensures InOrder(session, uuid, DispatchOne(env, s, item).value, arrivals + [item.message])
  {
    var chain, s' := ChainOf(env, s.calls, s.dynamic), DispatchOne(env, s, item).value;
    var answer := AskChain(env, s.calls, chain, item.message, false).answer;
    ChainHas(env, s.calls, s.dynamic, uuid);
    if InSession(session, item.message) {
      SessionChain(env, session, uuid, s.calls, chain, item.message, false);
    } else {
      ForeignChain(env, session, uuid, s.calls, chain, item.message, false);
    }
    Appended(session, uuid, s, s', arrivals, item, answer);
  }

  /** What one more message does to the three sequences. */
  lemma {:induction false} Appended(session: string, uuid: nat, s: Loop, s': Loop, arrivals: seq<Dispatch>, item: Item, answer: Answer)
    requires InOrder(session, uuid, s, arrivals) && s'.dynamic == s.dynamic
    requires match answer
      case Failed => false
      case TakenBy(h, d) => s'.pending == s.pending && s'.log == s.log + [Taken(Item(item.number, d), h)]
      case NotTaken(d, true) => s'.pending == s.pending + [Item(item.number, d)] && s'.log == s.log
      case NotTaken(d, false) =>
        s'.pending == s.pending && (s'.log == s.log + [Rejected(Item(item.number, d))] || s'.log == s.log + [Delivered(Item(item.number, d))])
    requires if InSession(session, item.message) then
        answer == if uuid in s.dynamic then TakenBy(Dynamic(uuid), item.message) else NotTaken(item.message, true)
      else answer.TakenBy? ==> answer.handler != Dynamic(uuid)
    requires !InSession(session, item.message) && answer.NotTaken? ==> !InSession(session, answer.message)
    ensures InOrder(session, uuid, s', arrivals + [item.message])
  {
    var h := Dynamic(uuid);
    var o := if |s'.log| > |s.log| then s'.log[|s.log|] else Complaint(InternalError);
    var q := Item(item.number, if answer.Failed? then item.message else answer.message);
    OneMore(session, h, arrivals, item.message, s.pending, q, s.log, o);
    var claimed, pending, had := ClaimedBy(h, s.log), PendingOf(session, s.pending), OfSession(session, arrivals);
    Sums(claimed, pending, had, item.message);
  }

  lemma Sums(claimed: seq<Dispatch>, pending: seq<Dispatch>, had: seq<Dispatch>, d: Dispatch)
    requires claimed + pending == had
    ensures claimed + [] == claimed && pending + [] == pending && had + [] == had
    ensures claimed + (pending + [d]) == had + [d]
    ensures pending == [] ==> claimed + [d] + pending == had + [d]
  {
    assert claimed + (pending + [d]) == (claimed + pending) + [d];
  }

  /** A new handler for another session takes none of this session's messages and keeps their order. */
  lemma {:induction false} OtherOffered(env: Env, session: string, uuid: nat, s: Loop, other: nat, items: seq<Item>)
    requires OnlyOneFor(env, session, uuid) && other != uuid && Offer(env, s, Dynamic(other), items).Some?
    ensures var s' := Offer(env, s, Dynamic(other), items).value;
      && PendingOf(session, s'.pending) == PendingOf(session, s.pending + items)
      && ClaimedBy(Dynamic(uuid), s'.log) == ClaimedBy(Dynamic(uuid), s.log)
    decreases |items|
  {
    if items == [] {
      assert s.pending + [] == s.pending;
    } else {
      var item, rest := items[0], items[1..];
      assert Respects(env, session, uuid, Dynamic(other), s.calls, item.message);
      assert s.pending + items == (s.pending + [item]) + rest;
      match env.decide(Dynamic(other), s.calls, item.message)
      case Ok(Claimed) =>
        var o := Taken(item, Dynamic(other));
        OtherOffered(env, session, uuid, s.(calls := s.calls + 1, log := s.log + [o]), other, rest);
        OneMore(session, Dynamic(uuid), [], item.message, s.pending, item, s.log, o);
        PendingSwap(session, s.pending + [item], s.pending, rest);
        assert PendingOf(session, s.pending) + [] == PendingOf(session, s.pending);
        assert ClaimedBy(Dynamic(uuid), s.log) + [] == ClaimedBy(Dynamic(uuid), s.log);
      case Ok(Declined(d, _)) =>
        var kept := Item(item.number, d);
        OtherOffered(env, session, uuid, s.(calls := s.calls + 1, pending := s.pending + [kept]), other, rest);
        OneMore(session, Dynamic(uuid), [], item.message, s.pending, item, s.log, Complaint(InternalError));
        OneMore(session, Dynamic(uuid), [], d, s.pending, kept, s.log, Complaint(InternalError));
        PendingSwap(session, s.pending + [item], s.pending + [kept], rest);
    }
  }

  lemma {:induction false} PendingSwap(session: string, a: seq<Item>, a': seq<Item>, b: seq<Item>)
    requires PendingOf(session, a) == PendingOf(session, a')
    ensures PendingOf(session, a + b) == PendingOf(session, a' + b)
    decreases |b|
  {
    if b == [] {
      assert a + b == a && a' + b == a';
    } else {
      assert (a + b)[..|a + b| - 1] == a + b[..|b| - 1] && (a' + b)[..|a' + b| - 1] == a' + b[..|b| - 1];
      PendingSwap(session, a, a', b[..|b| - 1]);
    }
  }

  /** The session's own handler takes all of them, in order. */
  lemma {:induction false} OwnOffered(env: Env, session: string, uuid: nat, s: Loop, items: seq<Item>)
    requires OnlyOneFor(env, session, uuid) && Offer(env, s, Dynamic(uuid), items).Some?
    ensures var s' := Offer(env, s, Dynamic(uuid), items).value;
      && PendingOf(session, s'.pending) == PendingOf(session, s.pending)
      && ClaimedBy(Dynamic(uuid), s'.log) == ClaimedBy(Dynamic(uuid), s.log) + PendingOf(session, items)
    decreases |items|
  {
    var claimed := ClaimedBy(Dynamic(uuid), s.log);
    if items == [] {
      assert claimed + [] == claimed;
    } else {
      var init, item := items[..|items| - 1], items[|items| - 1];
      assert items == init + [item];
      OfferSplit(env, s, Dynamic(uuid), init, item);
      OwnOffered(env, session, uuid, s, init);
      var mid := Offer(env, s, Dynamic(uuid), init).value;
      assert Respects(env, session, uuid, Dynamic(uuid), mid.calls, item.message);
      OwnOffer(env, session, uuid, mid, item);
      OwnLast(session, items, claimed, ClaimedBy(Dynamic(uuid), mid.log));
    }
  }

  lemma OwnLast(session: string, items: seq<Item>, claimed: seq<Dispatch>, before: seq<Dispatch>)
    requires items != [] && before == claimed + PendingOf(session, items[..|items| - 1])
    ensures var item := items[|items| - 1];
      before + (if InSession(session, item.message) then [item.message] else []) == claimed + PendingOf(session, items)
  {
  }

  /** One message offered to the session's handler. */
  lemma {:induction false} OwnOffer(env: Env, session: string, uuid: nat, s: Loop, item: Item)
    requires Respects(env, session, uuid, Dynamic(uuid), s.calls, item.message) && Offer(env, s, Dynamic(uuid), [item]).Some?
    ensures var s' := Offer(env, s, Dynamic(uuid), [item]).value;
      && PendingOf(session, s'.pending) == PendingOf(session, s.pending)
      && ClaimedBy(Dynamic(uuid), s'.log)
         == ClaimedBy(Dynamic(uuid), s.log) + if InSession(session, item.message) then [item.message] else []
  {
    OneMore(session, Dynamic(uuid), [], item.message, s.pending, item, s.log, Taken(item, Dynamic(uuid)));
    var claimed, pending := ClaimedBy(Dynamic(uuid), s.log), PendingOf(session, s.pending);
    assert claimed + [] == claimed && pending + [] == pending && [item][1..] == [];
  }

  lemma {:induction false} OfferSplit(env: Env, s: Loop, h: Handler, init: seq<Item>, item: Item)
    requires Offer(env, s, h, init + [item]).Some?
    ensures Offer(env, s, h, init).Some?
    ensures Offer(env, s, h, init + [item]) == Offer(env, Offer(env, s, h, init).value, h, [item])
    decreases |init|
  {
    var items := init + [item];
    if init == [] {
      assert items == [item];
    } else {
      assert items[1..] == init[1..] + [item];
      var s' := s.(calls := s.calls + 1);
      match env.decide(h, s.calls, items[0].message)
      case Ok(Claimed) => OfferSplit(env, s'.(log := s.log + [Taken(items[0], h)]), h, init[1..], item);
      case Ok(Declined(d, _)) => OfferSplit(env, s'.(pending := s.pending + [Item(items[0].number, d)]), h, init[1..], item);
    }
  }

  lemma {:induction false} HandleInOrder(env: Env, session: string, uuid: nat, s: Loop, arrivals: seq<Dispatch>, input: Input)
    requires Lawful(env) && OnlyOneFor(env, session, uuid) && InOrder(session, uuid, s, arrivals)
    requires input != RemoveHandler(uuid) && Handle(env, s, input).Some?
    ensures InOrder(session, uuid, Handle(env, s, input).value, arrivals + ArrivalOf(s.replies, input))
  {
    if ArrivalOf(s.replies, input) == [] {
      assert arrivals + [] == arrivals;
      QuietInOrder(env, session, uuid, s, arrivals, input);
    } else {
      HandleArrival(env, s, input);
      ArrivedInOrder(env, session, uuid, s, arrivals, WaitingAfter(s.replies, input), ArrivalOf(s.replies, input)[0]);
    }
  }

  lemma ArrivedInOrder(env: Env, session: string, uuid: nat, s: Loop, arrivals: seq<Dispatch>,
                       replies: map<nat, ResponseRoute>, d: Dispatch)
    requires Lawful(env) && OnlyOneFor(env, session, uuid) && InOrder(session, uuid, s, arrivals)
    requires DispatchOne(env, s.(arrived := s.arrived + 1, replies := replies), Item(s.arrived, d)).Some?
    ensures InOrder(session, uuid, DispatchOne(env, s.(arrived := s.arrived + 1, replies := replies), Item(s.arrived, d)).value,
                    arrivals + [d])
  {
    ArrivalInOrder(env, session, uuid, s.(arrived := s.arrived + 1, replies := replies), arrivals, Item(s.arrived, d));
  }

  lemma QuietInOrder(env: Env, session: string, uuid: nat, s: Loop, arrivals: seq<Dispatch>, input: Input)
    requires OnlyOneFor(env, session, uuid) && InOrder(session, uuid, s, arrivals)
    requires ArrivalOf(s.replies, input) == [] && input != RemoveHandler(uuid) && Handle(env, s, input).Some?
    ensures InOrder(session, uuid, Handle(env, s, input).value, arrivals)
  {
    match input
    case AddHandler(added) => AddInOrder(env, session, uuid, s, arrivals, added);
    case WireGarbage(cause) =>
      assert (s.log + [Complaint(cause)])[..|s.log|] == s.log;
      assert ClaimedBy(Dynamic(uuid), s.log) + [] == ClaimedBy(Dynamic(uuid), s.log);
    case _ =>
  }

  lemma {:induction false} AddInOrder(env: Env, session: string, uuid: nat, s: Loop, arrivals: seq<Dispatch>, added: nat)
    requires OnlyOneFor(env, session, uuid) && InOrder(session, uuid, s, arrivals)
    requires Handle(env, s, AddHandler(added)).Some?
    ensures InOrder(session, uuid, Handle(env, s, AddHandler(added)).value, arrivals)
  {
    var emptied := s.(pending := []);
    OfferKeepsReplies(env, emptied, Dynamic(added), s.pending);
    assert [] + s.pending == s.pending;
    if added == uuid {
      OwnOffered(env, session, uuid, emptied, s.pending);
      assert PendingOf(session, []) == [];
      var seen := ClaimedBy(Dynamic(uuid), Handle(env, s, AddHandler(added)).value.log);
      assert seen + [] == seen;
    } else {
      OtherOffered(env, session, uuid, emptied, added, s.pending);
    }
  }

  /** In every run the handler of a session sees exactly the session's messages, in the order of arrival, none
      lost or repeated: those it has not seen are pending, and none is once the handler is registered. */
  lemma {:induction false} SessionInOrder(env: Env, session: string, uuid: nat, inputs: seq<Input>)
    requires Lawful(env) && OnlyOneFor(env, session, uuid)
    requires RemoveHandler(uuid) !in inputs && HandleAll(env, START, inputs).Some?
    ensures InOrder(session, uuid, HandleAll(env, START, inputs).value, Arrivals(inputs))
  {
    if inputs != [] {
      var init, last := inputs[..|inputs| - 1], inputs[|inputs| - 1];
      assert last in inputs;
      SessionInOrder(env, session, uuid, init);
      RunArrivals(env, init);
      HandleInOrder(env, session, uuid, HandleAll(env, START, init).value, Arrivals(init), last);
    }
  }
}
