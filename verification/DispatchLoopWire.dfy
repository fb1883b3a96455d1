// Two ends of a connection: what one end's outgoing actor puts on the wire is what the other's loop dispatches; and
// when a loop ends, what it complains of, and whom it asks.

module DispatchLoopWire {
  import opened Outcomes
  import opened Messages
  import opened DispatchLoop
  import opened DispatchLoopRuns

  // ---- From one end to the other -------------------------------------------------------------

  /** What the channels make of what is put on them: subscriptions come to the loop of the same end, the rest to that
      of the other. A result that is null may be read as absent. */
  predicate Brings(put: Put, input: Input) {
    match put
    case PutSubscribe(route) => input == Subscribe(route)
    case PutMessage(id, body) => input == WireMessage(id, body)
    case PutResponse(id, Ok(value)) =>
      input == WireResponse(id, Some(value), None) || (value == JNull && input == WireResponse(id, None, None))
    case PutResponse(id, Err(error)) => input == WireResponse(id, None, Some(error))
  }

  /** One of what is put on the wire for `m`. */
  ghost predicate Arrives(m: Outgoing, input: Input) {
    exists put :: put in PutAll([m]) && !put.PutSubscribe? && Brings(put, input)
  }

  /** Dispatched as the next arrival. */
  function DispatchNext(env: Env, s: Loop, d: Dispatch): Option<Loop> {
    DispatchOne(env, s.(arrived := s.arrived + 1), Item(s.arrived, d))
  }

  lemma PutOne(m: Outgoing)
    ensures PutAll([m]) == PutsOf(m)
  {
    assert [m][..0] == [] && PutAll([]) == [];
    assert [] + PutsOf(m) == PutsOf(m);
  }

  /** Whatever is sent arrives: one message, and before it, for a request, its subscription. */
  lemma EverythingArrives(m: Outgoing)
    ensures exists input :: Arrives(m, input)
    ensures |PutAll([m])| == if m.OutRequest? then 2 else 1
  {
    PutOne(m);
    var put := PutAll([m])[if m.OutRequest? then 1 else 0];
    var input := match put
      case PutMessage(id, body) => WireMessage(id, body)
      case PutResponse(id, Ok(value)) => WireResponse(id, Some(value), None)
      case PutResponse(id, Err(error)) => WireResponse(id, None, Some(error))
      case PutSubscribe(route) => Subscribe(route);
    assert put in PutAll([m]) && Brings(put, input);
    assert Arrives(m, input);
  }

  /** A request arrives as a request with its id, and the sender's own loop has been told who waits for the answer;
      a notification arrives as a notification. Nothing else is sent. */
  lemma MessageArrives(env: Env, s: Loop, m: Outgoing, input: Input)
    requires (m.OutRequest? || m.OutNotification?) && Arrives(m, input)
    ensures Handle(env, s, input)
         == DispatchNext(env, s, if m.OutRequest? then Request(m.body, m.route.id) else Notification(m.body))
    ensures m.OutRequest? ==> |PutAll([m])| == 2 && forall own: Input :: Brings(PutAll([m])[0], own) ==> own == Subscribe(m.route)
    ensures m.OutNotification? ==> |PutAll([m])| == 1
  {
    PutOne(m);
  }

  /** A response arrives as the result it was sent with, on the route of the last subscription to its id; if nobody
      claims or queues it there, the waiter has exactly that result, or the loop ends because the waiter has gone. */
  lemma {:induction false} ResponseArrives(env: Env, inputs: seq<Input>, id: nat, result: Result<Json, Error>,
                                           route: ResponseRoute, input: Input)
    requires Faithful(env) && HandleAll(env, START, inputs).Some?
    requires LastSubscription(inputs, id) == Some(route) && Arrives(OutResponse(id, result), input)
    ensures |PutAll([OutResponse(id, result)])| == 1
    ensures var s, d := HandleAll(env, START, inputs).value, Response(result, route);
      var s', chain := Handle(env, s, input), ChainOf(env, s.calls, s.dynamic);
      && s' == DispatchNext(env, s.(replies := s.replies - {id}), d)
      && (AllDecline(env, chain, s.calls, d) && !SomeVote(env, chain, s.calls, d) ==>
            if env.listening(route.waiter, s.calls + |chain|) then
              s'.Some? && s'.value.log == s.log + [Delivered(Item(s.arrived, d))]
            else s' == None)
  {
    PutOne(OutResponse(id, result));
    RunArrivals(env, inputs);
    WaitingIsLast(inputs, id);
    var s := HandleAll(env, START, inputs).value;
    NobodyWants(env, s.(arrived := s.arrived + 1, replies := s.replies - {id}), Item(s.arrived, Response(result, route)));
  }

  /** What an outcome makes the loop send: nobody's request is answered, anything else gets an error message. */
  function Says(o: Outcome): seq<Outgoing> {
    match o
    case Rejected(Item(_, Request(_, responder))) => [OutResponse(responder, Err(MethodNotFound))]
    case Rejected(Item(_, Notification(_))) => [OutError(MethodNotFound)]
    case Complaint(cause) => [OutError(cause)]
    case _ => []
  }

  /** An error message has no id and is dropped by the other end. */
  lemma ErrorsAreDropped(env: Env, s: Loop, cause: Error, input: Input)
    requires Arrives(OutError(cause), input)
    ensures Handle(env, s, input) == Some(s)
  {
    PutOne(OutError(cause));
  }

  /** The loop answers this input with that. */
  ghost predicate SaidTo(env: Env, s: Loop, asked: Input, answer: Input) {
    && Handle(env, s, asked).Some?
    && exists o, m :: m in Says(o) && Handle(env, s, asked).value.log == s.log + [o] && Arrives(m, answer)
  }

  /** A request that nobody at the other end claims or puts off is answered that there is no such method: there and
      back, its waiter has that error, if nobody at its own end claims or puts off the answer. */
  lemma {:induction false} UnclaimedIsAnswered(there: Env, s: Loop, here: Env, inputs: seq<Input>,
                                               route: ResponseRoute, body: Untyped, asked: Input, answer: Input)
    requires Faithful(there) && Arrives(OutRequest(route, body), asked)
    requires var chain := ChainOf(there, s.calls, s.dynamic);
      AllDecline(there, chain, s.calls, Request(body, route.id)) && !SomeVote(there, chain, s.calls, Request(body, route.id))
    requires Faithful(here) && HandleAll(here, START, inputs).Some? && LastSubscription(inputs, route.id) == Some(route)
    requires SaidTo(there, s, asked, answer)
    requires var h, d := HandleAll(here, START, inputs).value, Response(Err(MethodNotFound), route);
      var chain := ChainOf(here, h.calls, h.dynamic);
      AllDecline(here, chain, h.calls, d) && !SomeVote(here, chain, h.calls, d) && here.listening(route.waiter, h.calls + |chain|)
    ensures var h := HandleAll(here, START, inputs).value;
      && Handle(here, h, answer).Some?
      && Handle(here, h, answer).value.log == h.log + [Delivered(Item(h.arrived, Response(Err(MethodNotFound), route)))]
  {
    AnswerIsRefusal(there, s, route, body, asked, answer);
    ResponseArrives(here, inputs, route.id, Err(MethodNotFound), route, answer);
  }

  lemma AnswerIsRefusal(env: Env, s: Loop, route: ResponseRoute, body: Untyped, asked: Input, answer: Input)
    requires Faithful(env) && Arrives(OutRequest(route, body), asked) && SaidTo(env, s, asked, answer)
    requires var chain := ChainOf(env, s.calls, s.dynamic);
      AllDecline(env, chain, s.calls, Request(body, route.id)) && !SomeVote(env, chain, s.calls, Request(body, route.id))
    ensures Arrives(OutResponse(route.id, Err(MethodNotFound)), answer)
  {
    RefusedRequest(env, s, route, body, asked);
    var o, m :| m in Says(o) && Handle(env, s, asked).value.log == s.log + [o] && Arrives(m, answer);
    SameLast(s.log, o, Rejected(Item(s.arrived, Request(body, route.id))));
  }

  lemma SameLast(log: seq<Outcome>, a: Outcome, b: Outcome)
    requires log + [a] == log + [b]
    ensures a == b
  {
    assert (log + [a])[|log|] == (log + [b])[|log|];
  }

  lemma RefusedRequest(env: Env, s: Loop, route: ResponseRoute, body: Untyped, asked: Input)
    requires Faithful(env) && Arrives(OutRequest(route, body), asked)
    requires var chain := ChainOf(env, s.calls, s.dynamic);
      AllDecline(env, chain, s.calls, Request(body, route.id)) && !SomeVote(env, chain, s.calls, Request(body, route.id))
    ensures Handle(env, s, asked).Some?
    ensures Handle(env, s, asked).value.log == s.log + [Rejected(Item(s.arrived, Request(body, route.id)))]
  {
    MessageArrives(env, s, OutRequest(route, body), asked);
    Refused(env, s.(arrived := s.arrived + 1), Item(s.arrived, Request(body, route.id)));
  }

  lemma {:induction false} Refused(env: Env, s: Loop, item: Item)
    requires Faithful(env) && !item.message.Response?
    requires var chain := ChainOf(env, s.calls, s.dynamic);
      AllDecline(env, chain, s.calls, item.message) && !SomeVote(env, chain, s.calls, item.message)
    ensures DispatchOne(env, s, item).Some? && DispatchOne(env, s, item).value.log == s.log + [Rejected(item)]
  {
    DeclinedByAll(env, s.calls, ChainOf(env, s.calls, s.dynamic), item.message, false);
  }

  // ---- Complaints ----------------------------------------------------------------------------

  /** The causes of complaint, in order. */
  function Complaints(log: seq<Outcome>): seq<Error> {
    if log == [] then [] else
    Complaints(log[..|log| - 1]) + if log[|log| - 1].Complaint? then [log[|log| - 1].cause] else []
  }

  function Garbage(inputs: seq<Input>): seq<Error> {
    if inputs == [] then [] else
    Garbage(inputs[..|inputs| - 1]) + if inputs[|inputs| - 1].WireGarbage? then [inputs[|inputs| - 1].cause] else []
  }

  lemma ComplaintsOfOne(log: seq<Outcome>, o: Outcome)
    ensures Complaints(log + [o]) == if o.Complaint? then Complaints(log) + [o.cause] else Complaints(log)
  {
    assert (log + [o])[..|log|] == log && Complaints(log) + [] == Complaints(log);
  }

  lemma {:induction false} OneComplainsNot(env: Env, s: Loop, item: Item)
    requires DispatchOne(env, s, item).Some?
    ensures Complaints(DispatchOne(env, s, item).value.log) == Complaints(s.log)
  {
    var log := DispatchOne(env, s, item).value.log;
    if log != s.log {
      ComplaintsOfOne(s.log, log[|s.log|]);
    }
  }

  /** Only messages taken are added to the log. */
  lemma {:induction false} OfferTakes(env: Env, s: Loop, handler: Handler, items: seq<Item>) returns (taken: seq<Outcome>)
    requires Offer(env, s, handler, items).Some?
    ensures Offer(env, s, handler, items).value.log == s.log + taken && forall o :: o in taken ==> o.Taken?
    decreases |items|
  {
    if items == [] {
      taken := [];
      assert s.log + [] == s.log;
    } else {
      var item, s' := items[0], s.(calls := s.calls + 1);
      match env.decide(handler, s.calls, item.message)
      case Ok(Claimed) =>
        var rest := OfferTakes(env, s'.(log := s.log + [Taken(item, handler)]), handler, items[1..]);
        taken := [Taken(item, handler)] + rest;
        assert s.log + [Taken(item, handler)] + rest == s.log + taken;
      case Ok(Declined(d, _)) =>
        taken := OfferTakes(env, s'.(pending := s.pending + [Item(item.number, d)]), handler, items[1..]);
    }
  }

  lemma {:induction false} NoComplaints(log: seq<Outcome>, more: seq<Outcome>)
    requires forall o :: o in more ==> o.Taken?
    ensures Complaints(log + more) == Complaints(log)
    decreases |more|
  {
    if more == [] {
      assert log + more == log;
    } else {
      var init, last := more[..|more| - 1], more[|more| - 1];
      assert last in more;
      NoComplaints(log, init);
      ComplaintsOfOne(log + init, last);
      assert log + more == (log + init) + [last];
    }
  }

  lemma {:induction false} HandleComplains(env: Env, s: Loop, input: Input)
    requires Handle(env, s, input).Some?
    ensures Complaints(Handle(env, s, input).value.log)
         == if input.WireGarbage? then Complaints(s.log) + [input.cause] else Complaints(s.log)
  {
    if ArrivalOf(s.replies, input) != [] {
      HandleArrival(env, s, input);
      OneComplainsNot(env, s.(arrived := s.arrived + 1, replies := WaitingAfter(s.replies, input)),
                      Item(s.arrived, ArrivalOf(s.replies, input)[0]));
    } else {
      match input
      case AddHandler(uuid) =>
        var taken := OfferTakes(env, s.(pending := []), Dynamic(uuid), s.pending);
        NoComplaints(s.log, taken);
      case WireGarbage(cause) => ComplaintsOfOne(s.log, Complaint(cause));
      case _ =>
    }
  }

  /** In every run the loop complains of everything that could not be read, with its cause, in order, and of nothing
      else. */
  lemma {:induction false} ComplainsOfGarbage(env: Env, inputs: seq<Input>)
    requires HandleAll(env, START, inputs).Some?
    ensures Complaints(HandleAll(env, START, inputs).value.log) == Garbage(inputs)
  {
    if inputs != [] {
      var init, last := inputs[..|inputs| - 1], inputs[|inputs| - 1];
      ComplainsOfGarbage(env, init);
      HandleComplains(env, HandleAll(env, START, init).value, last);
      assert Garbage(init) + [] == Garbage(init);
    }
  }

  // ---- Whom the loop asks --------------------------------------------------------------------

  /** The handler was added and has not been removed since. */
  predicate Registered(inputs: seq<Input>, uuid: nat) {
    inputs != [] &&
    match inputs[|inputs| - 1]
    case AddHandler(added) => added == uuid || Registered(inputs[..|inputs| - 1], uuid)
    case RemoveHandler(removed) => removed != uuid && Registered(inputs[..|inputs| - 1], uuid)
    case _ => Registered(inputs[..|inputs| - 1], uuid)
  }

  lemma {:induction false} DynamicAfter(env: Env, s: Loop, input: Input)
    requires Handle(env, s, input).Some?
    ensures Handle(env, s, input).value.dynamic
         == match input
            case AddHandler(uuid) => s.dynamic + {uuid}
            case RemoveHandler(uuid) => s.dynamic - {uuid}
            case _ => s.dynamic
  {
    if ArrivalOf(s.replies, input) != [] {
      HandleArrival(env, s, input);
      OneKeepsReplies(env, s.(arrived := s.arrived + 1, replies := WaitingAfter(s.replies, input)),
                      Item(s.arrived, ArrivalOf(s.replies, input)[0]));
    } else if input.AddHandler? {
      OfferKeepsReplies(env, s.(pending := []), Dynamic(input.uuid), s.pending);
    }
  }

  /** After every run a dynamic handler is one of those asked if and only if it has been added and not removed since;
      the user's handlers and the default are always asked. */
  lemma {:induction false} RegisteredAreAsked(env: Env, inputs: seq<Input>, handler: Handler)
    requires Lawful(env) && HandleAll(env, START, inputs).Some?
    ensures var s := HandleAll(env, START, inputs).value;
      handler in ChainOf(env, s.calls, s.dynamic) <==> (handler.Dynamic? ==> Registered(inputs, handler.uuid))
  {
    var s := HandleAll(env, START, inputs).value;
    assert ChainOf(env, s.calls, s.dynamic)[0] == Static;
    if handler.Dynamic? {
      RegisteredIsDynamic(env, inputs, handler.uuid);
      ChainHas(env, s.calls, s.dynamic, handler.uuid);
    } else {
      ChainHas(env, s.calls, s.dynamic, 0);
    }
  }

  lemma {:induction false} RegisteredIsDynamic(env: Env, inputs: seq<Input>, uuid: nat)
    requires HandleAll(env, START, inputs).Some?
    ensures uuid in HandleAll(env, START, inputs).value.dynamic <==> Registered(inputs, uuid)
  {
    if inputs != [] {
      var init := inputs[..|inputs| - 1];
      RegisteredIsDynamic(env, init, uuid);
      DynamicAfter(env, HandleAll(env, START, init).value, inputs[|inputs| - 1]);
    }
  }

  // ---- When the loop ends --------------------------------------------------------------------

  ghost predicate FailsAt(env: Env, chain: seq<Handler>, n: nat, d: Dispatch, i: nat) {
    i < |chain| && env.decide(chain[i], n + i, d).Err? && AllDecline(env, chain[..i], n, d)
  }

  /** A handler that is asked fails, or the waiter of a response that nobody wants has gone. */
  ghost predicate CannotDispatch(env: Env, s: Loop, d: Dispatch) {
    var chain := ChainOf(env, s.calls, s.dynamic);
    || (exists i: nat :: FailsAt(env, chain, s.calls, d, i))
    || (d.Response? && AllDecline(env, chain, s.calls, d) && !SomeVote(env, chain, s.calls, d)
        && !env.listening(d.route.waiter, s.calls + |chain|))
  }

  lemma {:induction false} DispatchEndsIff(env: Env, s: Loop, item: Item)
    requires Faithful(env)
    ensures DispatchOne(env, s, item).None? <==> CannotDispatch(env, s, item.message)
  {
    var chain := ChainOf(env, s.calls, s.dynamic);
    ChainDecides(env, s.calls, chain, item.message, false);
    var answer := AskChain(env, s.calls, chain, item.message, false).answer;
    if answer.Failed? {
      var i :| 0 <= i < |chain| && env.decide(chain[i], s.calls + i, item.message).Err? && AllDecline(env, chain[..i], s.calls, item.message);
      assert FailsAt(env, chain, s.calls, item.message, i);
    } else if answer.TakenBy? {
      var i :| 0 <= i < |chain| && chain[i] == answer.handler && ClaimsFirst(env, chain, s.calls, item.message, i);
      ClaimedFailsNot(env, chain, s.calls, item.message, i);
    } else {
      DeclinedByAll(env, s.calls, chain, item.message, false);
      assert chain[..|chain|] == chain;
      NoneFails(env, chain, s.calls, item.message, |chain|);
    }
  }

  lemma ClaimedFailsNot(env: Env, chain: seq<Handler>, n: nat, d: Dispatch, i: nat)
    requires i < |chain| && ClaimsFirst(env, chain, n, d, i)
    ensures !AllDecline(env, chain, n, d) && forall j: nat :: !FailsAt(env, chain, n, d, j)
  {
    assert !Declines(env, chain[i], n + i, d);
    NoneFails(env, chain, n, d, i);
  }

  lemma NoneFails(env: Env, chain: seq<Handler>, n: nat, d: Dispatch, i: nat)
    requires i <= |chain| && AllDecline(env, chain[..i], n, d) && (i < |chain| ==> Claims(env, chain[i], n + i, d))
    ensures forall j: nat :: !FailsAt(env, chain, n, d, j)
  {
    forall j: nat ensures !FailsAt(env, chain, n, d, j) {
      if j < i {
        assert Declines(env, chain[..i][j], n + j, d);
      } else if i < j < |chain| {
        assert chain[..j][i] == chain[i];
        assert !Declines(env, chain[..j][i], n + i, d);
      }
    }
  }

  /** A new handler fails on the i-th of the pending messages and on none before. */
  ghost predicate OfferFailsAt(env: Env, handler: Handler, n: nat, items: seq<Item>, i: nat) {
    && i < |items| && env.decide(handler, n + i, items[i].message).Err?
    && forall j :: 0 <= j < i ==> env.decide(handler, n + j, items[j].message).Ok?
  }

  lemma {:induction false} OfferFails(env: Env, s: Loop, handler: Handler, items: seq<Item>) returns (i: nat)
    requires Offer(env, s, handler, items).None?
    ensures OfferFailsAt(env, handler, s.calls, items, i)
    decreases |items|
  {
    var item, s' := items[0], s.(calls := s.calls + 1);
    match env.decide(handler, s.calls, item.message)
    case Err(_) => i := 0;
    case Ok(Claimed) =>
      i := OfferFails(env, s'.(log := s.log + [Taken(item, handler)]), handler, items[1..]);
      OfferShifted(env, handler, s.calls, items, i);
      i := i + 1;
    case Ok(Declined(d, _)) =>
      i := OfferFails(env, s'.(pending := s.pending + [Item(item.number, d)]), handler, items[1..]);
      OfferShifted(env, handler, s.calls, items, i);
      i := i + 1;
  }

  lemma {:induction false} OfferFailed(env: Env, s: Loop, handler: Handler, items: seq<Item>, i: nat)
    requires OfferFailsAt(env, handler, s.calls, items, i)
    ensures Offer(env, s, handler, items).None?
    decreases |items|
  {
    if i > 0 {
      assert env.decide(handler, s.calls + 0, items[0].message).Ok?;
      OfferShifted(env, handler, s.calls, items, i - 1);
      var item, s' := items[0], s.(calls := s.calls + 1);
      match env.decide(handler, s.calls, item.message)
      case Ok(Claimed) => OfferFailed(env, s'.(log := s.log + [Taken(item, handler)]), handler, items[1..], i - 1);
      case Ok(Declined(d, _)) =>
        OfferFailed(env, s'.(pending := s.pending + [Item(item.number, d)]), handler, items[1..], i - 1);
    }
  }

  lemma OfferEndsIff(env: Env, s: Loop, handler: Handler, items: seq<Item>)
    ensures Offer(env, s, handler, items).None? <==> exists i: nat :: OfferFailsAt(env, handler, s.calls, items, i)
  {
    if Offer(env, s, handler, items).None? {
      var i := OfferFails(env, s, handler, items);
    }
    if i: nat :| OfferFailsAt(env, handler, s.calls, items, i) {
      OfferFailed(env, s, handler, items, i);
    }
  }

  lemma OfferShifted(env: Env, handler: Handler, n: nat, items: seq<Item>, i: nat)
    requires items != [] && env.decide(handler, n, items[0].message).Ok?
    ensures OfferFailsAt(env, handler, n, items, i + 1) <==> OfferFailsAt(env, handler, n + 1, items[1..], i)
  {
    if OfferFailsAt(env, handler, n, items, i + 1) {
      forall j | 0 <= j < i ensures env.decide(handler, n + 1 + j, items[1..][j].message).Ok? {
        assert env.decide(handler, n + (j + 1), items[j + 1].message).Ok?;
      }
    }
    if OfferFailsAt(env, handler, n + 1, items[1..], i) {
      forall j | 0 <= j < i + 1 ensures env.decide(handler, n + j, items[j].message).Ok? {
        assert j > 0 ==> env.decide(handler, n + 1 + (j - 1), items[1..][j - 1].message).Ok?;
      }
    }
  }

  /** The input on which the loop ends. */
  ghost predicate EndsOn(env: Env, s: Loop, input: Input) {
    match input
    case AddHandler(uuid) => exists i: nat :: OfferFailsAt(env, Dynamic(uuid), s.calls, s.pending, i)
    case WireMessage(Some(id), body) => CannotDispatch(env, s, Request(body, id))
    case WireMessage(None, body) => CannotDispatch(env, s, Notification(body))
    case WireResponse(Some(id), value, error) =>
      && id in s.replies
      && var result := if value.Some? then Ok(value.value) else if error.Some? then Err(error.value) else Ok(JNull);
         CannotDispatch(env, s, Response(result, s.replies[id]))
    case _ => false
  }

  lemma {:induction false} HandleEndsIff(env: Env, s: Loop, input: Input)
    requires Faithful(env)
    ensures Handle(env, s, input).None? <==> EndsOn(env, s, input)
  {
    if ArrivalOf(s.replies, input) != [] {
      HandleArrival(env, s, input);
      DispatchEndsIff(env, s.(arrived := s.arrived + 1, replies := WaitingAfter(s.replies, input)),
                      Item(s.arrived, ArrivalOf(s.replies, input)[0]));
    } else if input.AddHandler? {
      OfferEndsIff(env, s.(pending := []), Dynamic(input.uuid), s.pending);
    }
  }

  /** The loop has handled the inputs before `i` and ends on that. */
  ghost predicate ComesTo(env: Env, inputs: seq<Input>, i: nat) {
    i < |inputs| && match HandleAll(env, START, inputs[..i]) case None => false case Some(s) => EndsOn(env, s, inputs[i])
  }

  lemma EndsIf(env: Env, inputs: seq<Input>, i: nat)
    requires Faithful(env) && ComesTo(env, inputs, i)
    ensures HandleAll(env, START, inputs) == None
  {
    assert inputs[..i + 1][..i] == inputs[..i];
    HandleEndsIff(env, HandleAll(env, START, inputs[..i]).value, inputs[i]);
    StaysEnded(env, START, inputs, i + 1);
  }

  lemma {:induction false} EndsOnlyIf(env: Env, inputs: seq<Input>) returns (i: nat)
    requires Faithful(env) && HandleAll(env, START, inputs) == None
    ensures ComesTo(env, inputs, i)
  {
    var k := |inputs| - 1;
    if HandleAll(env, START, inputs[..k]) == None {
      i := EndsOnlyIf(env, inputs[..k]);
      assert inputs[..k][..i] == inputs[..i];
    } else {
      i := k;
      HandleEndsIff(env, HandleAll(env, START, inputs[..k]).value, inputs[k]);
    }
  }

  /** The loop ends if and only if a handler fails that it asks, or a response that nobody wants finds its waiter gone. */
  lemma {:induction false} RunEndsIff(env: Env, inputs: seq<Input>)
    requires Faithful(env)
    ensures HandleAll(env, START, inputs) == None <==> exists i: nat :: ComesTo(env, inputs, i)
  {
    if HandleAll(env, START, inputs) == None {
      var i := EndsOnlyIf(env, inputs);
    }
    if i: nat :| ComesTo(env, inputs, i) {
      EndsIf(env, inputs, i);
    }
  }
}
