// The HTTP bridge of an MCP server: POST and GET streams on one side, one JSON-RPC server on the other.

module HttpBridge {
  import opened Outcomes

  datatype JsonRpcId = IdString(s: string) | IdNumber(n: nat) | IdNull

  /** The `content` stands for everything but the id. A notification is a request without one. */
  datatype Message =
    | Request(id: Option<JsonRpcId>, content: string)
    | Response(id: Option<JsonRpcId>, content: string)

  /** A stream a client holds open, by the POST or GET that opened it. */
  type Stream = nat

  datatype HttpMessage =
    | PostRequest(request: Message, stream: Stream)
    | PostNotification(request: Message)
    | PostResponse(response: Message)
    | Get(stream: Stream)

  datatype Input = FromHttp(http: HttpMessage) | FromServer(message: Message)

  /** What the bridge does not control: when each client goes away, when the server does, and the order in
      which a hash map is walked. Time is counted in looks at a stream, so a client can go at any moment. */
  datatype Env = Env(
    closesAt: Stream -> Option<nat>,
    serverGoneAt: Option<nat>,
    order: (nat, set<JsonRpcId>) -> seq<JsonRpcId>)

  ghost predicate Lawful(env: Env) {
    forall t, ids :: Enumerates(env.order(t, ids), ids)
  }

  ghost predicate Enumerates(list: seq<JsonRpcId>, ids: set<JsonRpcId>) {
    |list| == |ids| && forall id :: id in ids <==> id in list
  }

  predicate Gone(closing: Option<nat>, t: nat) {
    closing.Some? && closing.value <= t
  }

  predicate Closed(env: Env, s: Stream, t: nat) {
    Gone(env.closesAt(s), t)
  }

  datatype Delivery = Delivery(stream: Stream, message: Message)

  datatype Bridge = Bridge(
    waiting: map<JsonRpcId, Stream>,
    general: seq<Stream>,
    deque: seq<Message>,
    clock: nat,
    delivered: seq<Delivery>,
    forwarded: seq<Message>)

  const NEW: Bridge := Bridge(map[], [], [], 0, [], [])

  // ---- One message ---------------------------------------------------------------------------

  function ReplyId(m: Message): Option<JsonRpcId> {
    if m.Response? then m.id else None
  }

  /** The bridge after an attempt, with the message if nobody took it. */
  datatype Attempt = Attempt(bridge: Bridge, left: Option<Message>)

  /** A reply goes to the stream waiting on its id, which stops waiting whether or not it is still open. */
  function TryWaiter(env: Env, b: Bridge, m: Message): Attempt {
    match ReplyId(m)
    case None => Attempt(b, Some(m))
    case Some(id) =>
      if id !in b.waiting then Attempt(b, Some(m)) else
      var taken := b.(waiting := b.waiting - {id}, clock := b.clock + 1);
      if Closed(env, b.waiting[id], b.clock) then Attempt(taken, Some(m))
      else Attempt(taken.(delivered := b.delivered + [Delivery(b.waiting[id], m)]), None)
  }

  function KeepOpen(env: Env, streams: seq<Stream>, t: nat): seq<Stream> {
    if streams == [] then [] else
    (if Closed(env, streams[0], t) then [] else [streams[0]]) + KeepOpen(env, streams[1..], t + 1)
  }

  function KeepWaiting(env: Env, waiting: map<JsonRpcId, Stream>, t: nat): map<JsonRpcId, Stream> {
    map id | id in waiting && !Closed(env, waiting[id], t) :: waiting[id]
  }

  function Purge(env: Env, b: Bridge): Bridge {
    b.(general := KeepOpen(env, b.general, b.clock),
       waiting := KeepWaiting(env, b.waiting, b.clock + |b.general|),
       clock := b.clock + |b.general| + 1)
  }

  function Values(waiting: map<JsonRpcId, Stream>, ids: seq<JsonRpcId>): seq<Stream> {
    if ids == [] then [] else
    (if ids[0] in waiting then [waiting[ids[0]]] else []) + Values(waiting, ids[1..])
  }

  function AllStreams(env: Env, b: Bridge): seq<Stream> {
    b.general + Values(b.waiting, env.order(b.clock, b.waiting.Keys))
  }

  /** The first stream from `i` on that is still open when its turn comes. */
  function FirstOpen(env: Env, streams: seq<Stream>, t: nat, i: nat): (r: Option<nat>)
    requires i <= |streams|
    ensures r.Some? ==> i <= r.value < |streams|
    decreases |streams| - i
  {
    if i == |streams| then None
    else if Closed(env, streams[i], t) then FirstOpen(env, streams, t + 1, i + 1)
    else Some(i)
  }

  function SendAnywhere(env: Env, b: Bridge, m: Message): Attempt {
    var streams := AllStreams(env, b);
    match FirstOpen(env, streams, b.clock, 0)
    case None => Attempt(b.(clock := b.clock + |streams|), Some(m))
    case Some(i) =>
      Attempt(b.(clock := b.clock + i + 1, delivered := b.delivered + [Delivery(streams[i], m)]), None)
  }

  function TryDispatch(env: Env, b: Bridge, m: Message): (r: Attempt)
    ensures r.bridge.deque == b.deque
    ensures r.left.Some? ==> r.left.value == m
  {
    var first := TryWaiter(env, b, m);
    if first.left.None? then first else SendAnywhere(env, Purge(env, first.bridge), m)
  }

  /** Sends queued messages until one finds no stream. */
  function Drain(env: Env, b: Bridge): Bridge
    decreases |b.deque|
  {
    if b.deque == [] then b else
    var attempt := TryDispatch(env, b.(deque := b.deque[1..]), b.deque[0]);
    if attempt.left.None? then Drain(env, attempt.bridge)
    else attempt.bridge.(deque := b.deque)
  }

  /** None when the server's channel is gone: the loop ends with an error. */
  function Forward(env: Env, b: Bridge, m: Message): Option<Bridge> {
    if Gone(env.serverGoneAt, b.clock) then None
    else Some(b.(forwarded := b.forwarded + [m], clock := b.clock + 1))
  }

  function Register(b: Bridge, id: Option<JsonRpcId>, s: Stream): Bridge {
    match id
    case Some(id) => b.(waiting := b.waiting[id := s])
    case None => b.(general := b.general + [s])
  }

  function HandleHttp(env: Env, b: Bridge, message: HttpMessage): Option<Bridge> {
    match message
    case PostRequest(request, stream) =>
      (match Forward(env, b, request)
       case None => None
       case Some(b') => Some(Purge(env, Register(b', request.id, stream))))
    case PostNotification(request) =>
      (match Forward(env, b, request) case None => None case Some(b') => Some(Purge(env, b')))
    case PostResponse(response) =>
      (match Forward(env, b, response) case None => None case Some(b') => Some(Purge(env, b')))
    case Get(stream) => Some(Purge(env, Register(b, None, stream)))
  }

  function Turn(env: Env, b: Bridge, input: Input): Option<Bridge> {
    match input
    case FromHttp(message) =>
      (match HandleHttp(env, b, message) case None => None case Some(b') => Some(Drain(env, b')))
    case FromServer(message) => Some(Drain(env, b.(deque := b.deque + [message])))
  }

  /** The bridge after all inputs; None if it ended with an error before. */
  function Turns(env: Env, b: Bridge, inputs: seq<Input>): Option<Bridge> {
    if inputs == [] then Some(b) else
    match Turns(env, b, inputs[..|inputs| - 1])
    case None => None
    case Some(b') => Turn(env, b', inputs[|inputs| - 1])
  }

  // ---- The server ----------------------------------------------------------------------------

  class RunningServer {
    const env: Env
    var waitingSessions: map<JsonRpcId, Stream>
    var generalSessions: seq<Stream>
    var messageDeque: seq<Message>
    /** How many looks at a stream there have been. */
    var clock: nat
    /** What the streams have been sent, in order, and what the server has been sent. */
    var delivered: seq<Delivery>
    var forwarded: seq<Message>

    ghost function Value(): Bridge
      reads this
    {
      Bridge(waitingSessions, generalSessions, messageDeque, clock, delivered, forwarded)
    }

    constructor (env: Env)
      ensures this.env == env && Value() == NEW
    {
      this.env := env;
      waitingSessions, generalSessions, messageDeque := map[], [], [];
      clock, delivered, forwarded := 0, [], [];
    }

    method Run(inputs: seq<Input>) returns (ok: bool)
      modifies this
      ensures var end := Turns(env, old(Value()), inputs);
        ok == end.Some? && (ok ==> Value() == end.value)
    {
      ok := true;
      for i := 0 to |inputs|
        invariant ok && Turns(env, old(Value()), inputs[..i]) == Some(Value())
      {
        assert inputs[..i + 1][..i] == inputs[..i];
        match inputs[i] {
          case FromHttp(message) =>
            ok := HandleHttpMessage(message);
            if !ok {
              StaysEnded(env, old(Value()), inputs, i + 1);
              return;
            }
          case FromServer(message) => messageDeque := messageDeque + [message];
        }
        DrainJsonrpcMessages();
      }
      assert inputs[..|inputs|] == inputs;
    }

    /** True if the message could be forwarded. */
    method SendToServer(m: Message) returns (ok: bool)
      modifies this`clock, this`forwarded
      ensures match Forward(env, old(Value()), m) case None => !ok case Some(b) => ok && Value() == b
    {
      ok := !Gone(env.serverGoneAt, clock);
      if ok {
        forwarded := forwarded + [m];
        clock := clock + 1;
      }
    }

    method HandleHttpMessage(message: HttpMessage) returns (ok: bool)
      modifies this
      ensures match HandleHttp(env, old(Value()), message) case None => !ok case Some(b) => ok && Value() == b
    {
      ok := true;
      match message {
        case PostRequest(request, stream) =>
          ok := SendToServer(request);
          if !ok {
            return;
          }
          if request.id.Some? {
            waitingSessions := waitingSessions[request.id.value := stream];
          } else {
            generalSessions := generalSessions + [stream];
          }
        case PostNotification(request) =>
          ok := SendToServer(request);
          if !ok {
            return;
          }
        case PostResponse(response) =>
          ok := SendToServer(response);
          if !ok {
            return;
          }
        case Get(stream) =>
          generalSessions := generalSessions + [stream];
      }
      PurgeClosedSessions();
    }

    method DrainJsonrpcMessages()
      modifies this
      ensures Value() == Drain(env, old(Value()))
    {
      while |messageDeque| > 0
        invariant Drain(env, old(Value())) == Drain(env, Value())
        decreases |messageDeque|
      {
        var message := messageDeque[0];
        messageDeque := messageDeque[1..];
        var left := TryDispatchJsonrpcMessage(message);
        if left.Some? {
          messageDeque := [left.value] + messageDeque;
          return;
        }
      }
    }

    method TryDispatchJsonrpcMessage(message: Message) returns (left: Option<Message>)
      modifies this
      ensures Attempt(Value(), left) == TryDispatch(env, old(Value()), message)
    {
      left := TryWaitingSession(message);
      if left.Some? {
        PurgeClosedSessions();
        var sessions := generalSessions + Values(waitingSessions, env.order(clock, waitingSessions.Keys));
        left := SendToFirstOpen(sessions, message);
      }
    }

    /** Tries the stream that waits for this reply, if there is one, and removes it. */
    method TryWaitingSession(message: Message) returns (left: Option<Message>)
      modifies this`waitingSessions, this`clock, this`delivered
      ensures Attempt(Value(), left) == TryWaiter(env, old(Value()), message)
    {
      var messageId := match message case Response(id, _) => id case Request(_, _) => None;
      left := Some(message);
      if messageId.Some? && messageId.value in waitingSessions {
        var session := waitingSessions[messageId.value];
        waitingSessions := waitingSessions - {messageId.value};
        var sent := Send(session, message);
        if sent {
          left := None;
        }
      }
    }

    method SendToFirstOpen(sessions: seq<Stream>, message: Message) returns (left: Option<Message>)
      modifies this`clock, this`delivered
      ensures match FirstOpen(env, sessions, old(clock), 0)
        case None => left == Some(message) && clock == old(clock) + |sessions| && delivered == old(delivered)
        case Some(i) =>
          left == None && clock == old(clock) + i + 1 && delivered == old(delivered) + [Delivery(sessions[i], message)]
    {
      for i := 0 to |sessions|
        invariant clock == old(clock) + i && delivered == old(delivered)
        invariant FirstOpen(env, sessions, old(clock), 0) == FirstOpen(env, sessions, clock, i)
      {
        var sent := Send(sessions[i], message);
        if sent {
          return None;
        }
      }
      left := Some(message);
    }

    /** A send succeeds unless the client has gone. */
    method Send(session: Stream, message: Message) returns (sent: bool)
      modifies this`clock, this`delivered
      ensures sent == !Closed(env, session, old(clock)) && clock == old(clock) + 1
      ensures delivered == if sent then old(delivered) + [Delivery(session, message)] else old(delivered)
    {
      sent := !Closed(env, session, clock);
      clock := clock + 1;
      if sent {
        delivered := delivered + [Delivery(session, message)];
      }
    }

    method PurgeClosedSessions()
      modifies this`waitingSessions, this`generalSessions, this`clock
      ensures Value() == Purge(env, old(Value()))
    {
      var looks := |generalSessions|;
      generalSessions := KeepOpen(env, generalSessions, clock);
      clock := clock + looks;
      waitingSessions := KeepWaiting(env, waitingSessions, clock);
      clock := clock + 1;
    }
  }

  lemma {:induction false} StaysEnded(env: Env, b: Bridge, inputs: seq<Input>, i: nat)
    requires i <= |inputs| && Turns(env, b, inputs[..i]) == None
    ensures Turns(env, b, inputs) == None
    decreases |inputs| - i
  {
    if i == |inputs| {
      assert inputs[..i] == inputs;
    } else {
      assert inputs[..i + 1][..i] == inputs[..i];
      StaysEnded(env, b, inputs, i + 1);
    }
  }
}
