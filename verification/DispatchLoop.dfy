// The dispatch loop of a connection: incoming messages, reply subscriptions and changes to the dynamic
// handlers, merged in any order; and the actor that sends what goes out.

module DispatchLoop {
  import opened Outcomes
  import opened Messages

  /** The user's handler chain, a dynamic handler, or the default handler of the role. */
  datatype Handler = Static | Dynamic(uuid: nat) | Default

  /** Handlers are closures with state: what one decides may depend on how many calls there have been.
      `order` is the order in which the map of dynamic handlers is walked, `listening` whether a waiter still
      has its end of the channel. */
  datatype Env = Env(
    decide: (Handler, nat, Dispatch) -> HandleResult,
    order: (nat, set<nat>) -> seq<nat>,
    listening: (nat, nat) -> bool)

  ghost predicate Lawful(env: Env) {
    forall t, uuids :: Enumerates(env.order(t, uuids), uuids)
  }

  ghost predicate Enumerates(list: seq<nat>, uuids: set<nat>) {
    |list| == |uuids| && forall u :: u in uuids <==> u in list
  }

  datatype Input =
    | Subscribe(route: ResponseRoute)
    | AddHandler(uuid: nat)
    | RemoveHandler(uuid: nat)
    | WireMessage(id: Option<nat>, body: Untyped)
    | WireResponse(id: Option<nat>, value: Option<Json>, error: Option<Error>)
    | WireGarbage(cause: Error)

  /** A dispatch with its place in the order of arrival. */
  datatype Item = Item(number: nat, message: Dispatch)

  datatype Outcome =
    | Taken(item: Item, handler: Handler)
    | Rejected(item: Item)
    | Delivered(item: Item)       // a response, to the waiter on its route
    | Complaint(cause: Error)     // an error notification to the peer

  datatype Loop = Loop(
    dynamic: set<nat>,
    pending: seq<Item>,
    replies: map<nat, ResponseRoute>,
    arrived: nat,
    calls: nat,
    log: seq<Outcome>)

  const START: Loop := Loop({}, [], map[], 0, 0, [])

  // ---- One input -----------------------------------------------------------------------------

  datatype Answer = TakenBy(handler: Handler, message: Dispatch) | NotTaken(message: Dispatch, retry: bool) | Failed

  datatype Asked = Asked(answer: Answer, calls: nat)

  /** Asks one handler after the other until one takes the message; each gets it as the last returned it. */
  function AskChain(env: Env, calls: nat, chain: seq<Handler>, d: Dispatch, retry: bool): Asked
    decreases |chain|
  {
    if chain == [] then Asked(NotTaken(d, retry), calls) else
    match env.decide(chain[0], calls, d)
    case Err(_) => Asked(Failed, calls + 1)
    case Ok(Claimed) => Asked(TakenBy(chain[0], d), calls + 1)
    case Ok(Declined(d', again)) => AskChain(env, calls + 1, chain[1..], d', retry || again)
  }

  function DynamicChain(uuids: seq<nat>): (r: seq<Handler>)
    ensures |r| == |uuids|
  {
    seq(|uuids|, i requires 0 <= i < |uuids| => Dynamic(uuids[i]))
  }

  /** The user's handlers, then the dynamic ones, then the default. */
  function ChainOf(env: Env, calls: nat, dynamic: set<nat>): seq<Handler> {
    [Static] + DynamicChain(env.order(calls, dynamic)) + [Default]
  }

  /** Who takes a message, and what becomes of one nobody takes. None ends the loop with an error. */
  function DispatchOne(env: Env, s: Loop, item: Item): Option<Loop> {
    var asked := AskChain(env, s.calls, ChainOf(env, s.calls, s.dynamic), item.message, false);
    var s' := s.(calls := asked.calls);
    match asked.answer
    case Failed => None
    case TakenBy(handler, d) => Some(s'.(log := s.log + [Taken(Item(item.number, d), handler)]))
    case NotTaken(d, retry) => Unclaimed(env, s', Item(item.number, d), retry)
  }

  function Unclaimed(env: Env, s: Loop, item: Item, retry: bool): Option<Loop> {
    if retry then Some(s.(pending := s.pending + [item]))
    else if !item.message.Response? then Some(s.(log := s.log + [Rejected(item)]))
    else if env.listening(item.message.route.waiter, s.calls) then Some(s.(log := s.log + [Delivered(item)]))
    else None
  }

  /** A new handler is offered what is pending, in order, and what it declines stays pending. */
  function Offer(env: Env, s: Loop, handler: Handler, items: seq<Item>): Option<Loop>
    decreases |items|
  {
    if items == [] then Some(s) else
    var item, s' := items[0], s.(calls := s.calls + 1);
    match env.decide(handler, s.calls, item.message)
    case Err(_) => None
    case Ok(Claimed) => Offer(env, s'.(log := s.log + [Taken(item, handler)]), handler, items[1..])
    case Ok(Declined(d, _)) => Offer(env, s'.(pending := s.pending + [Item(item.number, d)]), handler, items[1..])
  }

  function ResultOf(value: Option<Json>, error: Option<Error>): Result<Json, Error> {
    match (value, error)
    case (Some(v), _) => Ok(v)
    case (None, Some(e)) => Err(e)
    case (None, None) => Ok(JNull)
  }

  function FromWire(id: Option<nat>, body: Untyped): Dispatch {
    match id case Some(id) => Request(body, id) case None => Notification(body)
  }

  function Handle(env: Env, s: Loop, input: Input): Option<Loop> {
    match input
    case Subscribe(route) => Some(s.(replies := s.replies[route.id := route]))
    case AddHandler(uuid) =>
      (match Offer(env, s.(pending := []), Dynamic(uuid), s.pending)
       case None => None
       case Some(s') => Some(s'.(dynamic := s.dynamic + {uuid})))
    case RemoveHandler(uuid) => Some(s.(dynamic := s.dynamic - {uuid}))
    case WireMessage(id, body) =>
      DispatchOne(env, s.(arrived := s.arrived + 1), Item(s.arrived, FromWire(id, body)))
    case WireResponse(id, value, error) =>
      if id.None? || id.value !in s.replies then Some(s) else
      var route := s.replies[id.value];
      DispatchOne(env, s.(arrived := s.arrived + 1, replies := s.replies - {id.value}),
                  Item(s.arrived, Response(ResultOf(value, error), route)))
    case WireGarbage(cause) => Some(s.(log := s.log + [Complaint(cause)]))
  }

  function HandleAll(env: Env, s: Loop, inputs: seq<Input>): Option<Loop> {
    if inputs == [] then Some(s) else
    match HandleAll(env, s, inputs[..|inputs| - 1])
    case None => None
    case Some(s') => Handle(env, s', inputs[|inputs| - 1])
  }

  lemma {:induction false} StaysEnded(env: Env, s: Loop, inputs: seq<Input>, i: nat)
    requires i <= |inputs| && HandleAll(env, s, inputs[..i]) == None
    ensures HandleAll(env, s, inputs) == None
    decreases |inputs| - i
  {
    if i == |inputs| {
      assert inputs[..i] == inputs;
    } else {
      assert inputs[..i + 1][..i] == inputs[..i];
      StaysEnded(env, s, inputs, i + 1);
    }
  }

  // ---- The actors ----------------------------------------------------------------------------

  class IncomingProtocolActor {
    const env: Env
    var dynamicHandlers: set<nat>
    var pendingMessages: seq<Item>
    var pendingReplies: map<nat, ResponseRoute>
    var arrived: nat
    var calls: nat
    var log: seq<Outcome>

    ghost function Value(): Loop
      reads this
    {
      Loop(dynamicHandlers, pendingMessages, pendingReplies, arrived, calls, log)
    }

    /** The actor went on to state `end`, or ended with an error. */
    ghost predicate Reached(end: Option<Loop>, ok: bool)
      reads this
    {
      ok == end.Some? && (ok ==> Value() == end.value)
    }

    constructor (env: Env)
      ensures this.env == env && Value() == START
    {
      this.env := env;
      dynamicHandlers, pendingMessages, pendingReplies := {}, [], map[];
      arrived, calls, log := 0, 0, [];
    }

    method Run(inputs: seq<Input>) returns (ok: bool)
      modifies this
      ensures Reached(HandleAll(env, old(Value()), inputs), ok)
    {
      ok := true;
      for i := 0 to |inputs|
        invariant ok && HandleAll(env, old(Value()), inputs[..i]) == Some(Value())
      {
        assert inputs[..i + 1][..i] == inputs[..i];
        ok := HandleMessage(inputs[i]);
        if !ok {
          StaysEnded(env, old(Value()), inputs, i + 1);
          return;
        }
      }
      assert inputs[..|inputs|] == inputs;
    }

    method HandleMessage(input: Input) returns (ok: bool)
      modifies this
      ensures Reached(Handle(env, old(Value()), input), ok)
    {
      ok := true;
      match input {
        case Subscribe(route) =>
          pendingReplies := pendingReplies[route.id := route];
        case AddHandler(uuid) =>
          ok := RetryPending(Dynamic(uuid));
          if ok {
            dynamicHandlers := dynamicHandlers + {uuid};
          }
        case RemoveHandler(uuid) =>
          dynamicHandlers := dynamicHandlers - {uuid};
        case WireMessage(id, body) =>
          var item := Item(arrived, match id case Some(id) => Request(body, id) case None => Notification(body));
          arrived := arrived + 1;
          ok := DispatchDispatch(item);
        case WireResponse(id, value, error) =>
          if id.Some? && id.value in pendingReplies {
            var route := pendingReplies[id.value];
            pendingReplies := pendingReplies - {id.value};
            var item := Item(arrived, Response(ResultOf(value, error), route));
            arrived := arrived + 1;
            ok := DispatchDispatch(item);
          }
        case WireGarbage(cause) =>
          log := log + [Complaint(cause)];
      }
    }

    method RetryPending(handler: Handler) returns (ok: bool)
      modifies this`pendingMessages, this`calls, this`log
      ensures Reached(Offer(env, old(Value()).(pending := []), handler, old(pendingMessages)), ok)
    {
      var messages := pendingMessages;
      pendingMessages := [];
      ghost var start := Value();
      for i := 0 to |messages|
        invariant Offer(env, start, handler, messages) == Offer(env, Value(), handler, messages[i..])
      {
        assert messages[i..][1..] == messages[i + 1..];
        var verdict := env.decide(handler, calls, messages[i].message);
        calls := calls + 1;
        match verdict {
          case Err(_) => return false;
          case Ok(Claimed) => log := log + [Taken(messages[i], handler)];
          case Ok(Declined(d, _)) => pendingMessages := pendingMessages + [Item(messages[i].number, d)];
        }
      }
      ok := true;
    }

    method DispatchDispatch(item: Item) returns (ok: bool)
      modifies this`pendingMessages, this`calls, this`log
      ensures Reached(DispatchOne(env, old(Value()), item), ok)
    {
      var handlers := [Static] + DynamicChain(env.order(calls, dynamicHandlers)) + [Default];
      var dispatch, retryAny := item.message, false;
      for i := 0 to |handlers|
        invariant Value() == old(Value()).(calls := calls)
        invariant AskChain(env, old(calls), handlers, item.message, false)
               == AskChain(env, calls, handlers[i..], dispatch, retryAny)
      {
        assert handlers[i..][1..] == handlers[i + 1..];
        var verdict := env.decide(handlers[i], calls, dispatch);
        calls := calls + 1;
        match verdict {
          case Err(_) => return false;
          case Ok(Claimed) =>
            log := log + [Taken(Item(item.number, dispatch), handlers[i])];
            return true;
          case Ok(Declined(d, retry)) =>
            retryAny := retryAny || retry;
            dispatch := d;
        }
      }
      ok := true;
      if retryAny {
        pendingMessages := pendingMessages + [Item(item.number, dispatch)];
      } else if !dispatch.Response? {
        log := log + [Rejected(Item(item.number, dispatch))];
      } else if env.listening(dispatch.route.waiter, calls) {
        log := log + [Delivered(Item(item.number, dispatch))];
      } else {
        ok := false;
      }
    }
  }

  /** What the application asks to send. */
  datatype Outgoing =
    | OutRequest(route: ResponseRoute, body: Untyped)
    | OutNotification(body: Untyped)
    | OutResponse(id: nat, result: Result<Json, Error>)
    | OutError(cause: Error)

  /** What the outgoing actor puts on its two channels, in order. */
  datatype Put =
    | PutSubscribe(route: ResponseRoute)
    | PutMessage(id: Option<nat>, body: Untyped)
    | PutResponse(id: Option<nat>, result: Result<Json, Error>)

  function PutsOf(m: Outgoing): seq<Put> {
    match m
    case OutRequest(route, body) => [PutSubscribe(route), PutMessage(Some(route.id), body)]
    case OutNotification(body) => [PutMessage(None, body)]
    case OutResponse(id, result) => [PutResponse(Some(id), result)]
    case OutError(cause) => [PutResponse(None, Err(cause))]
  }

  function PutAll(ms: seq<Outgoing>): seq<Put> {
    if ms == [] then [] else PutAll(ms[..|ms| - 1]) + PutsOf(ms[|ms| - 1])
  }

  method OutgoingProtocolActor(outgoing: seq<Outgoing>) returns (puts: seq<Put>)
    ensures puts == PutAll(outgoing)
  {
    puts := [];
    for i := 0 to |outgoing|
      invariant puts == PutAll(outgoing[..i])
    {
      assert outgoing[..i + 1][..i] == outgoing[..i];
      ghost var before := puts;
      match outgoing[i] {
        case OutRequest(route, body) =>
          puts := puts + [PutSubscribe(route)];
          puts := puts + [PutMessage(Some(route.id), body)];
          assert puts == before + [PutSubscribe(route), PutMessage(Some(route.id), body)];
        case OutNotification(body) => puts := puts + [PutMessage(None, body)];
        case OutResponse(id, result) => puts := puts + [PutResponse(Some(id), result)];
        case OutError(cause) => puts := puts + [PutResponse(None, Err(cause))];
      }
    }
    assert outgoing[..|outgoing|] == outgoing;
  }
}
