// How a connection opens and closes envelopes around its handlers, and chains of handlers.

module Handlers {
  import opened Outcomes
  import opened Messages
  import opened Envelope

  // ---- Sending and receiving in a remote style -----------------------------------------------

  /** How messages to and from a peer are transformed on a connection. */
  datatype RemoteStyle = Counterpart | Predecessor | SuccessorPeer

  function TransformOutgoing(style: RemoteStyle, message: Untyped): Untyped {
    if style == SuccessorPeer then EncodeSuccessor(message, None) else message
  }

  type Handler = Dispatch -> HandleResult

  function WithBody(d: Dispatch, body: Untyped): Dispatch
    requires !d.Response?
  {
    match d case Request(_, responder) => Request(body, responder) case Notification(_) => Notification(body)
  }

  /** Offers a dispatch to `handler` as a message of `peer`, opening and closing the successor envelope. */
  function HandleIncoming(style: RemoteStyle, peer: Role, d: Dispatch, handler: Handler): HandleResult {
    if d.Response? then
      if d.route.role == peer then handler(d) else Ok(Declined(d, false))
    else
      match style
      case Counterpart => handler(d)
      case Predecessor => if d.Name() != METHOD_SUCCESSOR then handler(d) else Ok(Declined(d, false))
      case SuccessorPeer =>
        if d.Name() != METHOD_SUCCESSOR then Ok(Declined(d, false)) else
        match OpenBody(d.body.params)
        case None => Err(ParseError)
        case Some(layer) =>
          match handler(WithBody(d, layer.message))
          case Err(e) => Err(e)
          case Ok(Claimed) => Ok(Claimed)
          case Ok(Declined(m, retry)) =>
            Ok(Declined(if m.Response? then m else WithBody(m, EncodeSuccessor(m.body, layer.meta)), retry))
  }

  /** What is sent to a successor is what the other end's successor handlers are offered. */
  lemma OutgoingMeetsIncoming(style: RemoteStyle, peer: Role, message: Untyped, responder: nat, handler: Handler)
    requires style == Predecessor ==> message.name != METHOD_SUCCESSOR
    requires handler(Request(message, responder)) == Ok(Claimed)
    ensures HandleIncoming(style, peer, Request(TransformOutgoing(style, message), responder), handler) == Ok(Claimed)
  {
    OpenSuccessor(message, None);
  }

  /** A handler's answer, with a message it declines in the form in which it was sent. */
  function AsSent(style: RemoteStyle, r: HandleResult): HandleResult {
    match r
    case Ok(Declined(m, retry)) =>
      Ok(Declined(if m.Response? then m else WithBody(m, TransformOutgoing(style, m.body)), retry))
    case _ => r
  }

  /** A handler of the peer is asked about exactly what was meant for it, be it a request or a notification, and what
      it answers is the answer: that it takes the message, that it fails, or what it declines and whether to retry. */
  lemma PeerIsAsked(style: RemoteStyle, peer: Role, d: Dispatch, handler: Handler)
    requires !d.Response? && (style == Predecessor ==> d.Name() != METHOD_SUCCESSOR)
    ensures HandleIncoming(style, peer, WithBody(d, TransformOutgoing(style, d.body)), handler) == AsSent(style, handler(d))
  {
    OpenSuccessor(d.body, None);
    assert WithBody(d, d.body) == d;
    assert style == SuccessorPeer ==> WithBody(WithBody(d, EncodeSuccessor(d.body, None)), d.body) == d;
  }

  /** A handler is not asked about what others have sent, and has no say in it. */
  lemma OthersAreNotAsked(style: RemoteStyle, peer: Role, d: Dispatch, handler: Handler)
    requires if d.Response? then d.route.role != peer
             else style == (if d.Name() == METHOD_SUCCESSOR then Predecessor else SuccessorPeer)
    ensures HandleIncoming(style, peer, d, handler) == Ok(Declined(d, false))
  {
  }

  // ---- Declined messages ---------------------------------------------------------------------

  /** Successor parameters that hold exactly a message and, optionally, a non-null `meta`. */
  predicate CanonicalParams(params: Json) {
    && params.JObject?
    && var fields := params.fields;
    && {"method", "params"} <= fields.Keys <= {"method", "params", "meta"}
    && fields["method"].JString?
    && ("meta" in fields ==> fields["meta"] != JNull)
  }

  /** Opening and re-closing a successor envelope is the identity exactly on canonical parameters. */
  lemma ReclosedIffCanonical(params: Json)
    ensures (OpenBody(params).Some?
             && var layer := OpenBody(params).value;
                EncodeSuccessor(layer.message, layer.meta).params == params)
       <==> CanonicalParams(params)
  {
    if OpenBody(params).Some? {
      var layer := OpenBody(params).value;
      var fields := BodyFields(layer.message, layer.meta);
      if CanonicalParams(params) {
        assert fields.Keys == params.fields.Keys;
        assert fields == params.fields;
      }
    }
  }

  /** A handler that turns every message away, as it got it. */
  ghost predicate DeclinesUnchanged(handler: Handler) {
    forall d :: handler(d).Ok? && handler(d).value.Declined? && handler(d).value.message == d
  }

  /** A declined successor request or notification comes back as it was exactly when canonical;
      one that cannot be layer is an error, never a decline. */
  lemma DeclinedComesBack(peer: Role, d: Dispatch, handler: Handler)
    requires DeclinesUnchanged(handler) && !d.Response? && d.Name() == METHOD_SUCCESSOR
    ensures var r := HandleIncoming(SuccessorPeer, peer, d, handler);
      && (r == Err(ParseError) <==> OpenBody(d.body.params).None?) && (r.Err? ==> r == Err(ParseError))
      && ((r.Ok? && r.value.Declined? && r.value.message == d) <==> CanonicalParams(d.body.params))
  {
    ReclosedIffCanonical(d.body.params);
    if OpenBody(d.body.params).Some? {
      var layer := OpenBody(d.body.params).value;
      var inner := WithBody(d, layer.message);
      assert handler(inner).value.message == inner;
      assert EncodeSuccessor(layer.message, layer.meta).name == d.body.name;
    }
  }

  // ---- Chains of handlers --------------------------------------------------------------------

  /** One registered handler: the peer it listens to, the style of that peer, and the callback. */
  datatype Registered = Registered(style: RemoteStyle, peer: Role, handler: Handler)

  function Offer(h: Registered, d: Dispatch): HandleResult {
    HandleIncoming(h.style, h.peer, d, h.handler)
  }

  /** Tries the handlers in order; a decline passes the message on and the retry votes add up. */
  function Chain(hs: seq<Registered>, d: Dispatch): HandleResult {
    if hs == [] then Ok(Declined(d, false)) else
    match Offer(hs[0], d)
    case Err(e) => Err(e)
    case Ok(Claimed) => Ok(Claimed)
    case Ok(Declined(m, retry1)) =>
      match Chain(hs[1..], m)
      case Err(e) => Err(e)
      case Ok(Claimed) => Ok(Claimed)
      case Ok(Declined(m2, retry2)) => Ok(Declined(m2, retry1 || retry2))
  }

  /** Two handlers chained are one handler, and grouping does not matter. */
  lemma {:induction false} ChainAppend(hs: seq<Registered>, more: seq<Registered>, d: Dispatch)
    ensures Chain(hs + more, d) ==
      match Chain(hs, d)
      case Err(e) => Err(e)
      case Ok(Claimed) => Ok(Claimed)
      case Ok(Declined(m, retry1)) =>
        match Chain(more, m)
        case Err(e) => Err(e)
        case Ok(Claimed) => Ok(Claimed)
        case Ok(Declined(m2, retry2)) => Ok(Declined(m2, retry1 || retry2))
  {
    if hs == [] {
      assert hs + more == more;
    } else {
      assert (hs + more)[0] == hs[0] && (hs + more)[1..] == hs[1..] + more;
      var first := Offer(hs[0], d);
      if first.Ok? && first.value.Declined? {
        ChainAppend(hs[1..], more, first.value.message);
      }
    }
  }

  /** The handlers registered for a peer, in order. */
  function For(peer: Role, hs: seq<Registered>): seq<Handler> {
    if hs == [] then [] else (if hs[0].peer == peer then [hs[0].handler] else []) + For(peer, hs[1..])
  }

  /** Asks plain handlers in turn. */
  function AskInTurn(handlers: seq<Handler>, d: Dispatch): HandleResult {
    if handlers == [] then Ok(Declined(d, false)) else
    match handlers[0](d)
    case Ok(Declined(m, retry)) =>
      (match AskInTurn(handlers[1..], m)
       case Ok(Declined(m2, retry2)) => Ok(Declined(m2, retry || retry2))
       case r => r)
    case r => r
  }

  /** A response that is declined is still a response of the same peer. */
  ghost predicate KeepsPeer(handler: Handler) {
    forall d: Dispatch :: d.Response? && handler(d).Ok? && handler(d).value.Declined? ==>
      handler(d).value.message.Response? && handler(d).value.message.route.role == d.route.role
  }

  /** A response is offered to the handlers registered for the peer that the request went to, as it is, and to no
      others, whatever the styles. */
  lemma {:induction false} ResponsesFindTheirPeer(hs: seq<Registered>, d: Dispatch)
    requires d.Response? && forall h :: h in hs ==> KeepsPeer(h.handler)
    ensures Chain(hs, d) == AskInTurn(For(d.route.role, hs), d)
    decreases |hs|
  {
    if hs != [] {
      var h, rest := hs[0], hs[1..];
      assert h in hs;
      if h.peer == d.route.role {
        assert For(d.route.role, hs) == [h.handler] + For(d.route.role, rest);
        var r := h.handler(d);
        if r.Ok? && r.value.Declined? {
          ResponsesFindTheirPeer(rest, r.value.message);
        }
      } else {
        assert [] + For(d.route.role, rest) == For(d.route.role, rest);
        ResponsesFindTheirPeer(rest, d);
      }
    }
  }

  /** A message that survives opening and closing: anything but a non-canonical successor message. */
  predicate Survives(d: Dispatch) {
    d.Response? || d.Name() != METHOD_SUCCESSOR || CanonicalParams(d.body.params)
  }

  ghost predicate Votes(hs: seq<Registered>, d: Dispatch) {
    exists i :: 0 <= i < |hs| && VotesRetry(hs[i], d)
  }

  /** Any chain of handlers that return what they got gives the original message back, and asks
      for a retry exactly when one of them did. */
  lemma {:induction false} ChainReturnsOriginal(hs: seq<Registered>, d: Dispatch)
    requires forall h :: h in hs ==> DeclinesUnchanged(h.handler)
    requires Survives(d)
    ensures Chain(hs, d) == Ok(Declined(d, Votes(hs, d)))
  {
    if hs != [] {
      OfferReturnsOriginal(hs[0], d);
      ChainReturnsOriginal(hs[1..], d);
      VotesSplit(hs, d);
    }
  }

  lemma OfferReturnsOriginal(h: Registered, d: Dispatch)
    requires DeclinesUnchanged(h.handler) && Survives(d)
    ensures Offer(h, d).Ok? && Offer(h, d).value.Declined? && Offer(h, d).value.message == d
  {
    assert h.handler(d).value.message == d;
    if h.style == SuccessorPeer && !d.Response? && d.Name() == METHOD_SUCCESSOR {
      DeclinedComesBack(h.peer, d, h.handler);
    }
  }

  predicate VotesRetry(h: Registered, d: Dispatch) {
    Offer(h, d).Ok? && Offer(h, d).value.Declined? && Offer(h, d).value.retry
  }

  lemma VotesSplit(hs: seq<Registered>, d: Dispatch)
    requires hs != []
    ensures Votes(hs, d) <==> VotesRetry(hs[0], d) || Votes(hs[1..], d)
  {
    if Votes(hs[1..], d) {
      var i :| 0 <= i < |hs| - 1 && VotesRetry(hs[1..][i], d);
      assert VotesRetry(hs[i + 1], d);
    }
    if Votes(hs, d) {
      var i :| 0 <= i < |hs| && VotesRetry(hs[i], d);
      assert i > 0 ==> VotesRetry(hs[1..][i - 1], d);
    }
  }

  /** In particular an encoded successor message comes back equal to the encoded original. */
  lemma EncodedComesBack(hs: seq<Registered>, message: Untyped, meta: Option<Json>, responder: nat)
    requires forall h :: h in hs ==> DeclinesUnchanged(h.handler)
    requires meta != Some(JNull)
    ensures var d := Request(EncodeSuccessor(message, meta), responder);
            Chain(hs, d) == Ok(Declined(d, Votes(hs, d)))
  {
    ChainReturnsOriginal(hs, Request(EncodeSuccessor(message, meta), responder));
  }
}
