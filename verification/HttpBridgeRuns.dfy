// What the bridge guarantees in every run, whenever streams close and in whatever order its map is walked.

module HttpBridgeRuns {
  import opened Outcomes
  import opened HttpBridge

  // ---- The ledger ----------------------------------------------------------------------------

  function Taken(deliveries: seq<Delivery>): seq<Message> {
    seq(|deliveries|, i requires 0 <= i < |deliveries| => deliveries[i].message)
  }

  function FromTheServer(inputs: seq<Input>): seq<Message> {
    if inputs == [] then [] else
    var last := inputs[|inputs| - 1];
    FromTheServer(inputs[..|inputs| - 1]) + if last.FromServer? then [last.message] else []
  }

  /** What clients have posted for the server. */
  function Posted(inputs: seq<Input>): seq<Message> {
    if inputs == [] then [] else
    var last := inputs[|inputs| - 1];
    Posted(inputs[..|inputs| - 1]) + if last.FromHttp? then PostOf(last.http) else []
  }

  function PostOf(m: HttpMessage): seq<Message> {
    match m
    case PostRequest(request, _) => [request]
    case PostNotification(request) => [request]
    case PostResponse(response) => [response]
    case Get(_) => []
  }

  /** Everything the server has sent: taken by a stream, in order, or still queued. */
  function Ledger(b: Bridge): seq<Message> {
    Taken(b.delivered) + b.deque
  }

  lemma {:induction false} DispatchKeepsLedger(env: Env, b: Bridge, m: Message)
    ensures var a := TryDispatch(env, b, m);
      && a.bridge.forwarded == b.forwarded
      && Taken(a.bridge.delivered) == if a.left.None? then Taken(b.delivered) + [m] else Taken(b.delivered)
  {
  }

  lemma {:induction false} DrainKeepsLedger(env: Env, b: Bridge)
    ensures Ledger(Drain(env, b)) == Ledger(b) && Drain(env, b).forwarded == b.forwarded
    decreases |b.deque|
  {
    if b.deque != [] {
      var rest := b.(deque := b.deque[1..]);
      DispatchKeepsLedger(env, rest, b.deque[0]);
      var a := TryDispatch(env, rest, b.deque[0]);
      if a.left.None? {
        DrainKeepsLedger(env, a.bridge);
        assert Taken(b.delivered) + [b.deque[0]] + b.deque[1..] == Ledger(b);
      }
    }
  }

  /** Messages leave in the order the server sent them: none lost, doubled, broadcast or overtaken; and the
      server gets what clients post, once and in order. */
  lemma {:induction false} RunKeepsLedger(env: Env, inputs: seq<Input>)
    requires Turns(env, NEW, inputs).Some?
    ensures var b := Turns(env, NEW, inputs).value;
      Ledger(b) == FromTheServer(inputs) && b.forwarded == Posted(inputs)
  {
    if inputs != [] {
      var init := inputs[..|inputs| - 1];
      RunKeepsLedger(env, init);
      TurnKeepsLedger(env, Turns(env, NEW, init).value, inputs[|inputs| - 1]);
    }
  }

  lemma {:induction false} TurnKeepsLedger(env: Env, b: Bridge, input: Input)
    requires Turn(env, b, input).Some?
    ensures var b' := Turn(env, b, input).value;
      && Ledger(b') == Ledger(b) + (if input.FromServer? then [input.message] else [])
      && b'.forwarded == b.forwarded + (if input.FromHttp? then PostOf(input.http) else [])
  {
    match input
    case FromHttp(http) =>
      HandleKeepsLedger(env, b, http);
      DrainKeepsLedger(env, HandleHttp(env, b, http).value);
    case FromServer(message) =>
      var queued := b.(deque := b.deque + [message]);
      DrainKeepsLedger(env, queued);
      assert Ledger(queued) == Ledger(b) + [message];
  }

  lemma {:induction false} HandleKeepsLedger(env: Env, b: Bridge, http: HttpMessage)
    requires HandleHttp(env, b, http).Some?
    ensures var b' := HandleHttp(env, b, http).value;
      b'.delivered == b.delivered && b'.deque == b.deque && b'.forwarded == b.forwarded + PostOf(http)
  {
  }

  // ---- No message waits while a stream is open -----------------------------------------------

  predicate Registered(b: Bridge, s: Stream) {
    s in b.general || s in b.waiting.Values
  }

  /** Nothing is queued, or every registered stream has closed. */
  ghost predicate Settled(env: Env, b: Bridge) {
    b.deque == [] || forall s :: Registered(b, s) ==> Closed(env, s, b.clock)
  }

  lemma {:induction false} FirstOpenIsFirst(env: Env, streams: seq<Stream>, t: nat, i: nat)
    requires i <= |streams|
    ensures match FirstOpen(env, streams, t, i)
      case None => forall j :: i <= j < |streams| ==> Closed(env, streams[j], t + |streams| - i - 1)
      case Some(k) => !Closed(env, streams[k], t + k - i) && forall j :: i <= j < k ==> Closed(env, streams[j], t + k - i)
    decreases |streams| - i
  {
    if i < |streams| && Closed(env, streams[i], t) {
      FirstOpenIsFirst(env, streams, t + 1, i + 1);
    }
  }

  lemma {:induction false} ValuesHold(waiting: map<JsonRpcId, Stream>, ids: seq<JsonRpcId>)
    ensures forall id :: id in ids && id in waiting ==> waiting[id] in Values(waiting, ids)
    ensures forall s :: s in Values(waiting, ids) ==> s in waiting.Values
  {
    if ids != [] {
      ValuesHold(waiting, ids[1..]);
      forall id | id in ids && id in waiting ensures waiting[id] in Values(waiting, ids) {
        assert id == ids[0] || id in ids[1..];
      }
    }
  }

  /** Every registered stream is among those tried. */
  lemma {:induction false} AllStreamsAreRegistered(env: Env, b: Bridge)
    requires Lawful(env)
    ensures forall s :: s in AllStreams(env, b) <==> Registered(b, s)
  {
    var ids := env.order(b.clock, b.waiting.Keys);
    assert Enumerates(ids, b.waiting.Keys);
    ValuesHold(b.waiting, ids);
    forall s ensures s in AllStreams(env, b) <==> Registered(b, s) {
      if s in b.waiting.Values {
        var id :| id in b.waiting && b.waiting[id] == s;
        assert id in b.waiting.Keys;
      }
    }
  }

  lemma {:induction false} KeptOpen(env: Env, streams: seq<Stream>, t: nat)
    ensures forall s :: s in KeepOpen(env, streams, t) ==> s in streams
    ensures forall s :: s in streams && !Closed(env, s, t + |streams|) ==> s in KeepOpen(env, streams, t)
  {
    if streams != [] {
      KeptOpen(env, streams[1..], t + 1);
    }
  }

  /** Purging drops only streams that have closed. */
  lemma {:induction false} PurgeKeepsOpen(env: Env, b: Bridge)
    ensures forall s :: Registered(Purge(env, b), s) ==> Registered(b, s)
    ensures forall s :: Registered(b, s) && !Registered(Purge(env, b), s) ==> Closed(env, s, Purge(env, b).clock - 1)
  {
    KeptOpen(env, b.general, b.clock);
    var b' := Purge(env, b);
    forall s | Registered(b, s) && !Registered(b', s) ensures Closed(env, s, b'.clock - 1) {
      if s in b.waiting.Values {
        var id :| id in b.waiting && b.waiting[id] == s;
        InValues(b'.waiting, id);
      }
    }
  }

  lemma InValues(waiting: map<JsonRpcId, Stream>, id: JsonRpcId)
    ensures id in waiting ==> waiting[id] in waiting.Values
  {
  }

  lemma {:induction false} WaiterKeepsOpen(env: Env, b: Bridge, m: Message)
    ensures var a := TryWaiter(env, b, m);
      && a.bridge.general == b.general
      && (forall s :: Registered(a.bridge, s) ==> Registered(b, s))
      && (a.left.Some? ==> a.bridge.delivered == b.delivered)
      && (a.left.Some? ==> forall s :: Registered(b, s) && !Registered(a.bridge, s) ==> Closed(env, s, a.bridge.clock))
  {
    var a := TryWaiter(env, b, m);
    forall s | Registered(b, s) && !Registered(a.bridge, s) && a.left.Some? ensures Closed(env, s, a.bridge.clock) {
      var id :| id in b.waiting && b.waiting[id] == s;
      InValues(a.bridge.waiting, id);
    }
  }

  /** A message finds no taker if and only if every stream registered before has closed by the last look of the
      attempt; otherwise exactly one of them takes it, still open at that look. */
  lemma {:induction false} TakenIfAnyOpen(env: Env, b: Bridge, m: Message)
    requires Lawful(env)
    ensures var a := TryDispatch(env, b, m);
      && a.bridge.clock > b.clock
      && (a.left.Some? <==> forall s :: Registered(b, s) ==> Closed(env, s, a.bridge.clock - 1))
      && match a.left
         case Some(_) => a.bridge.delivered == b.delivered
         case None => exists s :: a.bridge.delivered == b.delivered + [Delivery(s, m)]
                                  && Registered(b, s) && !Closed(env, s, a.bridge.clock - 1)
  {
    WaiterKeepsOpen(env, b, m);
    var first := TryWaiter(env, b, m);
    if first.left.None? {
      var s := b.waiting[ReplyId(m).value];
      assert s in b.waiting.Values && first.bridge.delivered == b.delivered + [Delivery(s, m)];
      assert Registered(b, s) && !Closed(env, s, first.bridge.clock - 1);
    } else {
      var purged := Purge(env, first.bridge);
      PurgeKeepsOpen(env, first.bridge);
      AllStreamsAreRegistered(env, purged);
      SentToFirstOpen(env, purged, m);
    }
  }

  lemma {:induction false} SentToFirstOpen(env: Env, b: Bridge, m: Message)
    requires forall s :: s in AllStreams(env, b) <==> Registered(b, s)
    ensures var a := SendAnywhere(env, b, m);
      && a.bridge.clock >= b.clock && a.bridge.waiting == b.waiting && a.bridge.general == b.general
      && match a.left
         case Some(_) =>
           a.bridge.delivered == b.delivered
           && forall s :: Registered(b, s) ==> a.bridge.clock > b.clock && Closed(env, s, a.bridge.clock - 1)
         case None => exists s :: a.bridge.delivered == b.delivered + [Delivery(s, m)]
                                  && Registered(b, s) && a.bridge.clock > 0 && !Closed(env, s, a.bridge.clock - 1)
  {
    var streams, a := AllStreams(env, b), SendAnywhere(env, b, m);
    FirstOpenIsFirst(env, streams, b.clock, 0);
    match FirstOpen(env, streams, b.clock, 0)
    case None =>
      forall s | Registered(b, s) ensures a.bridge.clock > b.clock && Closed(env, s, a.bridge.clock - 1) {
        assert s in streams;
      }
    case Some(i) =>
      assert streams[i] in streams && a.bridge.delivered == b.delivered + [Delivery(streams[i], m)];
  }

  /** What is not the reply a stream waits for goes to a POST stream only if every general stream has closed. */
  lemma {:induction false} GeneralStreamsFirst(env: Env, b: Bridge, m: Message, s: Stream)
    requires Lawful(env) && TryWaiter(env, b, m).left.Some?
    requires TryDispatch(env, b, m).bridge.delivered == b.delivered + [Delivery(s, m)] && s !in b.general
    ensures forall g :: g in b.general ==> Closed(env, g, TryDispatch(env, b, m).bridge.clock)
  {
    var first := TryWaiter(env, b, m).bridge;
    var purged := Purge(env, first);
    var streams := AllStreams(env, purged);
    KeptOpen(env, first.general, first.clock);
    FirstOpenIsFirst(env, streams, purged.clock, 0);
    var i := FirstOpen(env, streams, purged.clock, 0).value;
    assert TryDispatch(env, b, m).bridge.delivered[|b.delivered|] == Delivery(streams[i], m);
    assert s !in purged.general;
    assert i >= |purged.general|;
    forall g | g in b.general ensures Closed(env, g, TryDispatch(env, b, m).bridge.clock) {
      if g in purged.general {
        var j :| 0 <= j < |purged.general| && purged.general[j] == g;
        assert streams[j] == g;
      }
    }
  }

  lemma {:induction false} NobodyNew(env: Env, b: Bridge, m: Message)
    ensures forall s :: Registered(TryDispatch(env, b, m).bridge, s) ==> Registered(b, s)
  {
    WaiterKeepsOpen(env, b, m);
    PurgeKeepsOpen(env, TryWaiter(env, b, m).bridge);
  }

  lemma {:induction false} DrainSettles(env: Env, b: Bridge)
    requires Lawful(env)
    ensures Settled(env, Drain(env, b))
    decreases |b.deque|
  {
    if b.deque != [] {
      var rest := b.(deque := b.deque[1..]);
      TakenIfAnyOpen(env, rest, b.deque[0]);
      var a := TryDispatch(env, rest, b.deque[0]);
      if a.left.None? {
        DrainSettles(env, a.bridge);
      } else {
        NobodyNew(env, rest, b.deque[0]);
        forall s | Registered(a.bridge, s) ensures Closed(env, s, a.bridge.clock) {
          assert Registered(rest, s) && Closed(env, s, a.bridge.clock - 1);
        }
      }
    }
  }

  /** After every turn. */
  lemma {:induction false} RunSettles(env: Env, inputs: seq<Input>)
    requires Lawful(env) && Turns(env, NEW, inputs).Some?
    ensures Settled(env, Turns(env, NEW, inputs).value)
  {
    if inputs != [] {
      var b := Turns(env, NEW, inputs[..|inputs| - 1]).value;
      match inputs[|inputs| - 1]
      case FromHttp(http) => DrainSettles(env, HandleHttp(env, b, http).value);
      case FromServer(message) => DrainSettles(env, b.(deque := b.deque + [message]));
    }
  }

  // ---- A reply is the last a POST gets -------------------------------------------------------

  /** The stream an input opens, with the id it waits on. */
  function Opens(input: Input): Option<Stream> {
    match input
    case FromHttp(PostRequest(_, stream)) => Some(stream)
    case FromHttp(Get(stream)) => Some(stream)
    case _ => None
  }

  /** Each POST and each GET opens a stream of its own; `own` is the id each POST waits on. */
  ghost predicate FreshStreams(own: Stream -> Option<JsonRpcId>, inputs: seq<Input>) {
    && (forall i :: 0 <= i < |inputs| ==> OwnsId(own, inputs[i]))
    && (forall i, j :: 0 <= i < j < |inputs| && Opens(inputs[i]).Some? ==> Opens(inputs[i]) != Opens(inputs[j]))
  }

  predicate OwnsId(own: Stream -> Option<JsonRpcId>, input: Input) {
    match input
    case FromHttp(PostRequest(request, stream)) => own(stream) == request.id
    case FromHttp(Get(stream)) => own(stream) == None
    case _ => true
  }

  predicate IsOwnReply(own: Stream -> Option<JsonRpcId>, d: Delivery) {
    own(d.stream).Some? && ReplyId(d.message) == own(d.stream)
  }

  /** A stream in the map waits on its own id, one in the list on none; and whoever has had its reply is neither
      registered nor sent anything after it. */
  ghost predicate RepliesAreLast(own: Stream -> Option<JsonRpcId>, b: Bridge) {
    && (forall id :: id in b.waiting ==> own(b.waiting[id]) == Some(id))
    && (forall s :: s in b.general ==> own(s) == None)
    && (forall i :: 0 <= i < |b.delivered| && IsOwnReply(own, b.delivered[i]) ==> IsLast(b, i))
  }

  ghost predicate IsLast(b: Bridge, i: nat)
    requires i < |b.delivered|
  {
    && !Registered(b, b.delivered[i].stream)
    && forall j :: i < j < |b.delivered| ==> b.delivered[j].stream != b.delivered[i].stream
  }

  /** Streams are dropped, and one of those there before is sent a message that is not the reply it waits for,
      or is sent its reply and dropped. */
  ghost predicate Sends(own: Stream -> Option<JsonRpcId>, b: Bridge, b': Bridge) {
    && (forall id :: id in b'.waiting ==> id in b.waiting && b'.waiting[id] == b.waiting[id])
    && (forall s :: s in b'.general ==> s in b.general)
    && (b'.delivered == b.delivered
        || exists d :: b'.delivered == b.delivered + [d] && Registered(b, d.stream)
                       && (IsOwnReply(own, d) ==> !Registered(b', d.stream)))
  }

  lemma {:induction false} SendsKeepLast(own: Stream -> Option<JsonRpcId>, b: Bridge, b': Bridge)
    requires RepliesAreLast(own, b) && Sends(own, b, b')
    ensures RepliesAreLast(own, b')
  {
    forall i | 0 <= i < |b'.delivered| && IsOwnReply(own, b'.delivered[i]) ensures IsLast(b', i) {
      if i < |b.delivered| {
        assert IsLast(b, i);
      }
    }
  }

  lemma {:induction false} DispatchSends(own: Stream -> Option<JsonRpcId>, env: Env, b: Bridge, m: Message)
    requires Lawful(env) && RepliesAreLast(own, b)
    ensures Sends(own, b, TryDispatch(env, b, m).bridge)
  {
    var first := TryWaiter(env, b, m);
    if first.left.None? {
      var id := ReplyId(m).value;
      assert b.waiting[id] in b.waiting.Values;
      assert first.bridge.delivered == b.delivered + [Delivery(b.waiting[id], m)];
      assert !Registered(first.bridge, b.waiting[id]);
    } else {
      SentElsewhere(own, env, b, m);
    }
  }

  lemma {:induction false} SentElsewhere(own: Stream -> Option<JsonRpcId>, env: Env, b: Bridge, m: Message)
    requires Lawful(env) && RepliesAreLast(own, b) && TryWaiter(env, b, m).left.Some?
    ensures var b' := TryDispatch(env, b, m).bridge;
      && Sends(own, b, b')
      && (b'.delivered == b.delivered || !IsOwnReply(own, b'.delivered[|b'.delivered| - 1]))
  {
    PurgeDrops(env, b, m);
    SentToAny(own, env, b, Purge(env, TryWaiter(env, b, m).bridge), m);
  }

  /** Streams are dropped and nothing is sent. */
  ghost predicate Drops(b: Bridge, b': Bridge) {
    && (forall id :: id in b'.waiting ==> id in b.waiting && b'.waiting[id] == b.waiting[id])
    && (forall s :: s in b'.general ==> s in b.general)
    && b'.delivered == b.delivered
  }

  lemma {:induction false} PurgeDrops(env: Env, b: Bridge, m: Message)
    requires TryWaiter(env, b, m).left.Some?
    ensures Drops(b, Purge(env, TryWaiter(env, b, m).bridge))
  {
    var rest := TryWaiter(env, b, m).bridge;
    KeptOpen(env, rest.general, rest.clock);
  }

  lemma {:induction false} SentToAny(own: Stream -> Option<JsonRpcId>, env: Env, b: Bridge, purged: Bridge, m: Message)
    requires Lawful(env) && RepliesAreLast(own, b) && TryWaiter(env, b, m).left.Some?
    requires purged == Purge(env, TryWaiter(env, b, m).bridge) && Drops(b, purged)
    ensures var b' := TryDispatch(env, b, m).bridge;
      && Sends(own, b, b')
      && (b'.delivered == b.delivered || !IsOwnReply(own, b'.delivered[|b'.delivered| - 1]))
  {
    AllStreamsAreRegistered(env, purged);
    var streams, b' := AllStreams(env, purged), TryDispatch(env, b, m).bridge;
    if b'.delivered != b.delivered {
      var i := FirstOpen(env, streams, purged.clock, 0).value;
      var d := Delivery(streams[i], m);
      assert streams[i] in streams && Registered(purged, streams[i]) && Registered(b, streams[i]);
      assert b'.delivered == b.delivered + [d] && !IsOwnReply(own, d);
    }
  }

  lemma {:induction false} DrainKeepsLast(own: Stream -> Option<JsonRpcId>, env: Env, b: Bridge)
    requires Lawful(env) && RepliesAreLast(own, b)
    ensures RepliesAreLast(own, Drain(env, b))
    decreases |b.deque|
  {
    if b.deque != [] {
      var rest := b.(deque := b.deque[1..]);
      DispatchSends(own, env, rest, b.deque[0]);
      SendsKeepLast(own, rest, TryDispatch(env, rest, b.deque[0]).bridge);
      if TryDispatch(env, rest, b.deque[0]).left.None? {
        DrainKeepsLast(own, env, TryDispatch(env, rest, b.deque[0]).bridge);
      }
    }
  }

  /** Every stream the bridge knows was opened by one of the inputs. */
  ghost predicate Known(inputs: seq<Input>, b: Bridge) {
    && (forall s :: Registered(b, s) ==> OpenedBy(inputs, s))
    && (forall d :: d in b.delivered ==> OpenedBy(inputs, d.stream))
  }

  ghost predicate OpenedBy(inputs: seq<Input>, s: Stream) {
    exists i :: 0 <= i < |inputs| && Opens(inputs[i]) == Some(s)
  }

  lemma {:induction false} DrainKeepsKnown(inputs: seq<Input>, own: Stream -> Option<JsonRpcId>, env: Env, b: Bridge)
    requires Lawful(env) && RepliesAreLast(own, b) && Known(inputs, b)
    ensures Known(inputs, Drain(env, b))
    decreases |b.deque|
  {
    if b.deque != [] {
      var rest := b.(deque := b.deque[1..]);
      DispatchSends(own, env, rest, b.deque[0]);
      var after := TryDispatch(env, rest, b.deque[0]).bridge;
      SendsKeepLast(own, rest, after);
      SendsKeepKnown(inputs, own, rest, after);
      if TryDispatch(env, rest, b.deque[0]).left.None? {
        DrainKeepsKnown(inputs, own, env, after);
      }
    }
  }

  lemma {:induction false} SendsKeepKnown(inputs: seq<Input>, own: Stream -> Option<JsonRpcId>, b: Bridge, b': Bridge)
    requires Known(inputs, b) && Sends(own, b, b')
    ensures Known(inputs, b')
  {
    forall s | Registered(b', s) ensures OpenedBy(inputs, s) {
      assert Registered(b, s);
    }
  }

  /** Registering a stream nobody has seen keeps every earlier reply the last of its stream. */
  lemma {:induction false} RegisterKeepsLast(own: Stream -> Option<JsonRpcId>, b: Bridge, id: Option<JsonRpcId>, s: Stream)
    requires RepliesAreLast(own, b) && own(s) == id
    requires forall d :: d in b.delivered ==> d.stream != s
    ensures RepliesAreLast(own, Register(b, id, s))
  {
    var b' := Register(b, id, s);
    forall i | 0 <= i < |b'.delivered| && IsOwnReply(own, b'.delivered[i]) ensures IsLast(b', i) {
      assert IsLast(b, i) && b.delivered[i] in b.delivered;
    }
  }

  lemma {:induction false} PurgeKeepsLast(inputs: seq<Input>, own: Stream -> Option<JsonRpcId>, env: Env, b: Bridge)
    requires RepliesAreLast(own, b) && Known(inputs, b)
    ensures RepliesAreLast(own, Purge(env, b)) && Known(inputs, Purge(env, b))
  {
    KeptOpen(env, b.general, b.clock);
    assert Sends(own, b, Purge(env, b));
    SendsKeepLast(own, b, Purge(env, b));
    SendsKeepKnown(inputs, own, b, Purge(env, b));
  }

  /** One turn, whose input opens a stream of its own if it opens one. */
  lemma {:induction false} TurnKeepsLast(own: Stream -> Option<JsonRpcId>, env: Env, inputs: seq<Input>, b: Bridge, input: Input)
    requires Lawful(env) && RepliesAreLast(own, b) && Known(inputs, b)
    requires OwnsId(own, input) && Turn(env, b, input).Some?
    requires Opens(input).Some? ==> !OpenedBy(inputs, Opens(input).value)
    ensures RepliesAreLast(own, Turn(env, b, input).value) && Known(inputs + [input], Turn(env, b, input).value)
  {
    var all := inputs + [input];
    KnownGrows(inputs, input, b);
    match input
    case FromServer(message) =>
      var queued := b.(deque := b.deque + [message]);
      assert Sends(own, b, queued);
      SendsKeepLast(own, b, queued);
      SendsKeepKnown(all, own, b, queued);
      DrainKeepsLast(own, env, queued);
      DrainKeepsKnown(all, own, env, queued);
    case FromHttp(http) =>
      HandleKeepsLast(own, env, inputs, b, http);
      var handled := HandleHttp(env, b, http).value;
      DrainKeepsLast(own, env, handled);
      DrainKeepsKnown(all, own, env, handled);
  }

  lemma {:induction false} KnownGrows(inputs: seq<Input>, input: Input, b: Bridge)
    requires Known(inputs, b)
    ensures Known(inputs + [input], b)
    ensures Opens(input).Some? ==> OpenedBy(inputs + [input], Opens(input).value)
  {
    var all := inputs + [input];
    assert all[|inputs|] == input;
    forall s: Stream | OpenedBy(inputs, s) ensures OpenedBy(all, s) {
      var i :| 0 <= i < |inputs| && Opens(inputs[i]) == Some(s);
      assert all[i] == inputs[i];
    }
  }

  lemma {:induction false} HandleKeepsLast(own: Stream -> Option<JsonRpcId>, env: Env, inputs: seq<Input>, b: Bridge, http: HttpMessage)
    requires RepliesAreLast(own, b) && Known(inputs, b) && Known(inputs + [FromHttp(http)], b)
    requires OwnsId(own, FromHttp(http)) && HandleHttp(env, b, http).Some?
    requires Opens(FromHttp(http)).Some? ==> !OpenedBy(inputs, Opens(FromHttp(http)).value)
    requires Opens(FromHttp(http)).Some? ==> OpenedBy(inputs + [FromHttp(http)], Opens(FromHttp(http)).value)
    ensures RepliesAreLast(own, HandleHttp(env, b, http).value)
    ensures Known(inputs + [FromHttp(http)], HandleHttp(env, b, http).value)
  {
    var all := inputs + [FromHttp(http)];
    var sent := if http.Get? then b else Forward(env, b, PostOf(http)[0]).value;
    assert Sends(own, b, sent);
    SendsKeepLast(own, b, sent);
    SendsKeepKnown(all, own, b, sent);
    var registered := match http
      case PostRequest(request, s) => Register(sent, request.id, s)
      case Get(s) => Register(sent, None, s)
      case _ => sent;
    if Opens(FromHttp(http)).Some? {
      var s := Opens(FromHttp(http)).value;
      RegisterKeepsLast(own, sent, own(s), s);
      assert Known(all, registered);
    }
    PurgeKeepsLast(all, own, env, registered);
  }

  lemma FreshSplit(own: Stream -> Option<JsonRpcId>, inputs: seq<Input>)
    requires inputs != [] && FreshStreams(own, inputs)
    ensures var init, last := inputs[..|inputs| - 1], inputs[|inputs| - 1];
      && inputs == init + [last] && FreshStreams(own, init) && OwnsId(own, last)
      && (Opens(last).Some? ==> !OpenedBy(init, Opens(last).value))
  {
    var init := inputs[..|inputs| - 1];
    assert forall i :: 0 <= i < |init| ==> init[i] == inputs[i];
  }

  ghost predicate KeptLast(own: Stream -> Option<JsonRpcId>, env: Env, inputs: seq<Input>) {
    match Turns(env, NEW, inputs)
    case None => true
    case Some(b) => RepliesAreLast(own, b) && Known(inputs, b)
  }

  lemma {:induction false} RunKeepsLast(own: Stream -> Option<JsonRpcId>, env: Env, inputs: seq<Input>)
    requires Lawful(env) && FreshStreams(own, inputs)
    ensures KeptLast(own, env, inputs)
  {
    if inputs != [] {
      var init, last := inputs[..|inputs| - 1], inputs[|inputs| - 1];
      FreshSplit(own, inputs);
      RunKeepsLast(own, env, init);
      LastTurnKeepsLast(own, env, init, last);
    }
  }

  lemma {:induction false} LastTurnKeepsLast(own: Stream -> Option<JsonRpcId>, env: Env, init: seq<Input>, last: Input)
    requires Lawful(env) && KeptLast(own, env, init) && OwnsId(own, last)
    requires Opens(last).Some? ==> !OpenedBy(init, Opens(last).value)
    ensures KeptLast(own, env, init + [last])
  {
    assert (init + [last])[..|init|] == init;
    if Turns(env, NEW, init + [last]).Some? {
      TurnKeepsLast(own, env, init, Turns(env, NEW, init).value, last);
    }
  }

  /** A POST gets at most one reply to its own id and nothing after it. */
  lemma {:induction false} ReplyIsLast(own: Stream -> Option<JsonRpcId>, env: Env, inputs: seq<Input>, i: nat, j: nat)
    requires Lawful(env) && FreshStreams(own, inputs) && Turns(env, NEW, inputs).Some?
    requires var sent := Turns(env, NEW, inputs).value.delivered;
      i < j < |sent| && IsOwnReply(own, sent[i])
    ensures var sent := Turns(env, NEW, inputs).value.delivered; sent[j].stream != sent[i].stream
  {
    RunKeepsLast(own, env, inputs);
    assert IsLast(Turns(env, NEW, inputs).value, i);
  }

  /** A reply is taken by the stream waiting on its id if and only if that stream is still open when looked at;
      otherwise it goes to the first open one of the others, if there is one. */
  lemma {:induction false} ReplyReachesWaiter(own: Stream -> Option<JsonRpcId>, env: Env, b: Bridge, m: Message, s: Stream)
    requires Lawful(env) && RepliesAreLast(own, b)
    requires ReplyId(m).Some? && own(s) == ReplyId(m)
    ensures Registered(b, s) && !Closed(env, s, b.clock) <==> TryDispatch(env, b, m).bridge.delivered == b.delivered + [Delivery(s, m)]
  {
    var id, b' := ReplyId(m).value, TryDispatch(env, b, m).bridge;
    if b'.delivered == b.delivered + [Delivery(s, m)] {
      assert b'.delivered[|b.delivered|] == Delivery(s, m);
      if TryWaiter(env, b, m).left.Some? {
        SentElsewhere(own, env, b, m);
        assert false;
      } else {
        assert b'.delivered == b.delivered + [Delivery(b.waiting[id], m)];
        assert b.waiting[id] in b.waiting.Values;
      }
    }
  }

  // ---- An open stream stays registered -------------------------------------------------------

  ghost predicate Answered(own: Stream -> Option<JsonRpcId>, b: Bridge, s: Stream) {
    exists d :: d in b.delivered && d.stream == s && IsOwnReply(own, d)
  }

  /** `s` can only have left the registry by closing or by being answered. */
  ghost predicate LeftOnlyRightly(own: Stream -> Option<JsonRpcId>, env: Env, b: Bridge, b': Bridge) {
    && b.clock <= b'.clock && b.delivered <= b'.delivered
    && forall s :: Registered(b, s) ==> Registered(b', s) || Closed(env, s, b'.clock) || Answered(own, b', s)
  }

  lemma {:induction false} RightlyTwice(own: Stream -> Option<JsonRpcId>, env: Env, b: Bridge, b': Bridge, b'': Bridge)
    requires LeftOnlyRightly(own, env, b, b') && LeftOnlyRightly(own, env, b', b'')
    ensures LeftOnlyRightly(own, env, b, b'')
  {
    forall s | Registered(b, s) && !Registered(b'', s) && !Closed(env, s, b''.clock) ensures Answered(own, b'', s) {
      if Answered(own, b', s) {
        var d :| d in b'.delivered && d.stream == s && IsOwnReply(own, d);
        assert d in b''.delivered;
      }
    }
  }

  lemma {:induction false} DispatchIsRight(own: Stream -> Option<JsonRpcId>, env: Env, b: Bridge, m: Message)
    requires Lawful(env) && RepliesAreLast(own, b)
    ensures LeftOnlyRightly(own, env, b, TryDispatch(env, b, m).bridge)
  {
    WaiterKeepsOpen(env, b, m);
    var first := TryWaiter(env, b, m);
    if first.left.None? {
      var id, b' := ReplyId(m).value, first.bridge;
      assert b'.delivered[|b.delivered|] == Delivery(b.waiting[id], m) && b'.delivered[|b.delivered|] in b'.delivered;
      forall s | Registered(b, s) && !Registered(b', s) ensures Answered(own, b', s) {
        var other :| other in b.waiting && b.waiting[other] == s;
        InValues(b'.waiting, other);
      }
    } else {
      var purged := Purge(env, first.bridge);
      PurgeKeepsOpen(env, first.bridge);
      AllStreamsAreRegistered(env, purged);
      SentToFirstOpen(env, purged, m);
    }
  }

  lemma {:induction false} DrainIsRight(own: Stream -> Option<JsonRpcId>, env: Env, b: Bridge)
    requires Lawful(env) && RepliesAreLast(own, b)
    ensures LeftOnlyRightly(own, env, b, Drain(env, b))
    decreases |b.deque|
  {
    if b.deque != [] {
      var rest := b.(deque := b.deque[1..]);
      DispatchIsRight(own, env, rest, b.deque[0]);
      DispatchSends(own, env, rest, b.deque[0]);
      var a := TryDispatch(env, rest, b.deque[0]);
      SendsKeepLast(own, rest, a.bridge);
      if a.left.None? {
        DrainIsRight(own, env, a.bridge);
        RightlyTwice(own, env, rest, a.bridge, Drain(env, a.bridge));
      }
    }
  }

  /** Does the input post a request with the id that another stream is waiting on? The earlier stream is dropped. */
  predicate Displaces(input: Input, own: Stream -> Option<JsonRpcId>, s: Stream) {
    input.FromHttp? && input.http.PostRequest? && input.http.stream != s
    && input.http.request.id.Some? && input.http.request.id == own(s)
  }

  /** A turn drops no stream that is open, unanswered and not displaced; what it opens it registers. */
  lemma {:induction false} OpenStreamsStay(own: Stream -> Option<JsonRpcId>, env: Env, inputs: seq<Input>, b: Bridge, input: Input, s: Stream)
    requires Lawful(env) && RepliesAreLast(own, b) && Known(inputs, b)
    requires OwnsId(own, input) && Turn(env, b, input).Some?
    requires Opens(input).Some? ==> !OpenedBy(inputs, Opens(input).value)
    requires Registered(b, s) || Opens(input) == Some(s)
    ensures var b' := Turn(env, b, input).value;
      Registered(b', s) || Closed(env, s, b'.clock) || Answered(own, b', s) || Displaces(input, own, s)
  {
    match input
    case FromServer(message) =>
      var queued := b.(deque := b.deque + [message]);
      assert Sends(own, b, queued);
      SendsKeepLast(own, b, queued);
      DrainIsRight(own, env, queued);
      assert Registered(queued, s);
    case FromHttp(http) =>
      KnownGrows(inputs, input, b);
      HandleKeepsLast(own, env, inputs, b, http);
      DrainIsRight(own, env, HandleHttp(env, b, http).value);
      HandledStays(own, env, b, http, s);
  }

  lemma {:induction false} HandledStays(own: Stream -> Option<JsonRpcId>, env: Env, b: Bridge, http: HttpMessage, s: Stream)
    requires RepliesAreLast(own, b) && HandleHttp(env, b, http).Some? && OwnsId(own, FromHttp(http))
    requires Registered(b, s) || Opens(FromHttp(http)) == Some(s)
    ensures var b' := HandleHttp(env, b, http).value;
      Registered(b', s) || Closed(env, s, b'.clock) || Displaces(FromHttp(http), own, s)
  {
    var sent := if http.Get? then b else Forward(env, b, PostOf(http)[0]).value;
    var registered := match http
      case PostRequest(request, stream) => Register(sent, request.id, stream)
      case Get(stream) => Register(sent, None, stream)
      case _ => sent;
    if !Displaces(FromHttp(http), own, s) {
      RegisteredStays(own, sent, http, s);
      PurgeKeepsOpen(env, registered);
    }
  }

  lemma {:induction false} RegisteredStays(own: Stream -> Option<JsonRpcId>, b: Bridge, http: HttpMessage, s: Stream)
    requires (forall id :: id in b.waiting ==> own(b.waiting[id]) == Some(id)) && OwnsId(own, FromHttp(http))
    requires Registered(b, s) || Opens(FromHttp(http)) == Some(s)
    requires !Displaces(FromHttp(http), own, s)
    ensures Registered(match http
      case PostRequest(request, stream) => Register(b, request.id, stream)
      case Get(stream) => Register(b, None, stream)
      case _ => b, s)
  {
    match http
    case PostRequest(request, stream) =>
      if request.id.Some? && s in b.waiting.Values {
        var id :| id in b.waiting && b.waiting[id] == s;
        var b' := Register(b, request.id, stream);
        assert id in b'.waiting && b'.waiting[id] == s;
      } else if request.id.Some? && Opens(FromHttp(http)) == Some(s) {
        var b' := Register(b, request.id, stream);
        assert b'.waiting[request.id.value] == s;
      }
    case _ =>
  }
}
