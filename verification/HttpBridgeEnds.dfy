// When the bridge ends, and which of the streams that would do is given a message.

module HttpBridgeEnds {
  import opened Outcomes
  import opened HttpBridge
  import opened HttpBridgeRuns

  // ---- When it ends --------------------------------------------------------------------------

  /** The inputs before `i` lead to a bridge whose server has gone by the time input `i` has a message for it. */
  ghost predicate PostsInVain(env: Env, inputs: seq<Input>, i: nat) {
    && i < |inputs| && inputs[i].FromHttp? && !inputs[i].http.Get?
    && match Turns(env, NEW, inputs[..i])
       case None => false
       case Some(b) => env.serverGoneAt.Some? && env.serverGoneAt.value <= b.clock
  }

  lemma TurnEndsIff(env: Env, b: Bridge, input: Input)
    ensures Turn(env, b, input).None?
       <==> input.FromHttp? && !input.http.Get? && env.serverGoneAt.Some? && env.serverGoneAt.value <= b.clock
  {
  }

  lemma EndsIf(env: Env, inputs: seq<Input>, i: nat)
    requires PostsInVain(env, inputs, i)
    ensures Turns(env, NEW, inputs).None?
  {
    assert inputs[..i + 1][..i] == inputs[..i];
    TurnEndsIff(env, Turns(env, NEW, inputs[..i]).value, inputs[i]);
    StaysEnded(env, NEW, inputs, i + 1);
  }

  lemma {:induction false} EndsOnlyIf(env: Env, inputs: seq<Input>) returns (i: nat)
    requires Turns(env, NEW, inputs).None?
    ensures PostsInVain(env, inputs, i)
  {
    var k := |inputs| - 1;
    if Turns(env, NEW, inputs[..k]).None? {
      i := EndsOnlyIf(env, inputs[..k]);
      assert inputs[..k][..i] == inputs[..i];
    } else {
      i := k;
      TurnEndsIff(env, Turns(env, NEW, inputs[..k]).value, inputs[k]);
    }
  }

  /** The bridge ends with an error if and only if a client posts something, be it a request, a notification or a
      response, for a server that has gone. */
  lemma {:induction false} EndsIff(env: Env, inputs: seq<Input>)
    ensures Turns(env, NEW, inputs).None? <==> exists i: nat :: PostsInVain(env, inputs, i)
  {
    if Turns(env, NEW, inputs).None? {
      var i := EndsOnlyIf(env, inputs);
    }
    if i: nat :| PostsInVain(env, inputs, i) {
      EndsIf(env, inputs, i);
    }
  }

  /** As long as the server is there, so is the bridge. */
  lemma NeverEnds(env: Env, inputs: seq<Input>)
    requires env.serverGoneAt == None
    ensures Turns(env, NEW, inputs).Some?
  {
    EndsIff(env, inputs);
  }

  // ---- The oldest open stream ----------------------------------------------------------------

  /** The streams opened for any message, by a GET or by a POST without an id, in order. */
  function Opened(inputs: seq<Input>): seq<Stream> {
    if inputs == [] then [] else Opened(inputs[..|inputs| - 1]) + OpenedFor(inputs[|inputs| - 1])
  }

  function OpenedFor(input: Input): seq<Stream> {
    match input
    case FromHttp(Get(stream)) => [stream]
    case FromHttp(PostRequest(request, stream)) => if request.id.None? then [stream] else []
    case _ => []
  }

  /** `kept` is what is left of `all` after leaving out some that have closed by `t`. */
  ghost predicate LeftOf(env: Env, all: seq<Stream>, kept: seq<Stream>, t: nat)
    decreases |all|
  {
    if all == [] then kept == []
    else
      || (kept != [] && kept[0] == all[0] && LeftOf(env, all[1..], kept[1..], t))
      || (Closed(env, all[0], t) && LeftOf(env, all[1..], kept, t))
  }

  lemma {:induction false} LeftLater(env: Env, all: seq<Stream>, kept: seq<Stream>, t: nat, t': nat)
    requires LeftOf(env, all, kept, t) && t <= t'
    ensures LeftOf(env, all, kept, t')
    decreases |all|
  {
    if all != [] {
      if kept != [] && kept[0] == all[0] && LeftOf(env, all[1..], kept[1..], t) {
        LeftLater(env, all[1..], kept[1..], t, t');
      } else {
        LeftLater(env, all[1..], kept, t, t');
      }
    }
  }

  lemma {:induction false} KeptIsLeft(env: Env, all: seq<Stream>, kept: seq<Stream>, t: nat)
    requires LeftOf(env, all, kept, t)
    ensures LeftOf(env, all, KeepOpen(env, kept, t), t + |kept|)
    decreases |all|
  {
    if all != [] {
      if kept != [] && kept[0] == all[0] && LeftOf(env, all[1..], kept[1..], t) {
        LeftLater(env, all[1..], kept[1..], t, t + 1);
        KeptIsLeft(env, all[1..], kept[1..], t + 1);
        var rest := KeepOpen(env, kept[1..], t + 1);
        if !Closed(env, kept[0], t) {
          assert KeepOpen(env, kept, t) == [kept[0]] + rest && ([kept[0]] + rest)[1..] == rest;
        } else {
          assert KeepOpen(env, kept, t) == rest;
        }
      } else {
        KeptIsLeft(env, all[1..], kept, t);
      }
    }
  }

  lemma {:induction false} OneMoreLeft(env: Env, all: seq<Stream>, kept: seq<Stream>, s: Stream, t: nat)
    requires LeftOf(env, all, kept, t)
    ensures LeftOf(env, all + [s], kept + [s], t)
    decreases |all|
  {
    if all == [] {
      assert all + [s] == [s] && kept + [s] == [s] && [s][1..] == [];
    } else {
      assert (all + [s])[1..] == all[1..] + [s];
      if kept != [] && kept[0] == all[0] && LeftOf(env, all[1..], kept[1..], t) {
        assert (kept + [s])[1..] == kept[1..] + [s];
        OneMoreLeft(env, all[1..], kept[1..], s, t);
      } else {
        OneMoreLeft(env, all[1..], kept, s, t);
      }
    }
  }

  /** The general streams of a bridge are those opened, in order, but for some that have closed. */
  ghost predicate InOrder(env: Env, inputs: seq<Input>, b: Bridge) {
    LeftOf(env, Opened(inputs), b.general, b.clock)
  }

  lemma PurgeInOrder(env: Env, inputs: seq<Input>, b: Bridge)
    requires InOrder(env, inputs, b)
    ensures InOrder(env, inputs, Purge(env, b))
  {
    KeptIsLeft(env, Opened(inputs), b.general, b.clock);
    LeftLater(env, Opened(inputs), KeepOpen(env, b.general, b.clock), b.clock + |b.general|, b.clock + |b.general| + 1);
  }

  lemma SendInOrder(env: Env, inputs: seq<Input>, b: Bridge, m: Message)
    requires InOrder(env, inputs, b)
    ensures InOrder(env, inputs, TryDispatch(env, b, m).bridge)
  {
    var first := TryWaiter(env, b, m);
    LeftLater(env, Opened(inputs), b.general, b.clock, first.bridge.clock);
    if first.left.Some? {
      var purged := Purge(env, first.bridge);
      PurgeInOrder(env, inputs, first.bridge);
      LeftLater(env, Opened(inputs), purged.general, purged.clock, SendAnywhere(env, purged, m).bridge.clock);
    }
  }

  lemma {:induction false} DrainInOrder(env: Env, inputs: seq<Input>, b: Bridge)
    requires InOrder(env, inputs, b)
    ensures InOrder(env, inputs, Drain(env, b))
    decreases |b.deque|
  {
    if b.deque != [] {
      var rest := b.(deque := b.deque[1..]);
      SendInOrder(env, inputs, rest, b.deque[0]);
      if TryDispatch(env, rest, b.deque[0]).left.None? {
        DrainInOrder(env, inputs, TryDispatch(env, rest, b.deque[0]).bridge);
      }
    }
  }

  lemma {:induction false} HandleInOrder(env: Env, inputs: seq<Input>, b: Bridge, http: HttpMessage)
    requires InOrder(env, inputs, b) && HandleHttp(env, b, http).Some?
    ensures InOrder(env, inputs + [FromHttp(http)], HandleHttp(env, b, http).value)
  {
    var all := inputs + [FromHttp(http)];
    assert all[..|inputs|] == inputs && Opened(inputs) + [] == Opened(inputs);
    LeftLater(env, Opened(inputs), b.general, b.clock, b.clock + 1);
    var sent := if http.Get? then b else Forward(env, b, PostOf(http)[0]).value;
    match http
    case Get(s) => RegisterInOrder(env, inputs, sent, http, s);
    case PostRequest(request, s) =>
      if request.id.None? {
        RegisterInOrder(env, inputs, sent, http, s);
      } else {
        PurgeInOrder(env, all, Register(sent, request.id, s));
      }
    case _ => PurgeInOrder(env, all, sent);
  }

  lemma RegisterInOrder(env: Env, inputs: seq<Input>, b: Bridge, http: HttpMessage, s: Stream)
    requires InOrder(env, inputs, b) && OpenedFor(FromHttp(http)) == [s]
    ensures InOrder(env, inputs + [FromHttp(http)], Purge(env, Register(b, None, s)))
  {
    assert (inputs + [FromHttp(http)])[..|inputs|] == inputs;
    OneMoreLeft(env, Opened(inputs), b.general, s, b.clock);
    PurgeInOrder(env, inputs + [FromHttp(http)], Register(b, None, s));
  }

  /** In every run the general streams are those opened, in the order in which they were, but for closed ones. */
  lemma {:induction false} RunInOrder(env: Env, inputs: seq<Input>)
    requires Turns(env, NEW, inputs).Some?
    ensures InOrder(env, inputs, Turns(env, NEW, inputs).value)
  {
    if inputs != [] {
      var init, last := inputs[..|inputs| - 1], inputs[|inputs| - 1];
      RunInOrder(env, init);
      var b := Turns(env, NEW, init).value;
      assert inputs == init + [last];
      match last
      case FromHttp(http) =>
        HandleInOrder(env, init, b, http);
        DrainInOrder(env, inputs, HandleHttp(env, b, http).value);
      case FromServer(message) =>
        assert Opened(init) + [] == Opened(init);
        DrainInOrder(env, inputs, b.(deque := b.deque + [message]));
    }
  }

  /** What stands before the first open stream has closed. */
  lemma {:induction false} ClosedBefore(env: Env, all: seq<Stream>, kept: seq<Stream>, t: nat, k: nat, i: nat)
    requires LeftOf(env, all, kept, t) && k <= |kept| && (forall j :: 0 <= j < k ==> Closed(env, kept[j], t))
    requires i < |all| && (k < |kept| ==> kept[k] !in all[..i + 1])
    ensures Closed(env, all[i], t)
    decreases |all|
  {
    FirstIsIn(all, i);
    if kept != [] && kept[0] == all[0] && LeftOf(env, all[1..], kept[1..], t) {
      if k > 0 && i > 0 {
        assert all[1..][..i] == all[..i + 1][1..];
        ClosedBefore(env, all[1..], kept[1..], t, k - 1, i - 1);
      }
    } else if i > 0 {
      assert all[1..][..i] == all[..i + 1][1..];
      ClosedBefore(env, all[1..], kept, t, k, i - 1);
    }
  }

  lemma FirstIsIn(all: seq<Stream>, i: nat)
    requires i < |all|
    ensures all[0] in all[..i + 1]
  {
    assert all[..i + 1][0] == all[0];
  }

  /** Not the reply that an open stream waits for: a request, whatever its id, or a reply to nobody that is there. */
  predicate Stray(env: Env, b: Bridge, m: Message) {
    m.Request? || m.id == None || m.id.value !in b.waiting || Closed(env, b.waiting[m.id.value], b.clock)
  }

  /** A message that is not the reply a stream waits for goes to the oldest general stream that is open: every one
      opened before the taker, and all of them if the taker is a waiting stream, has closed. */
  lemma {:induction false} OldestFirst(env: Env, inputs: seq<Input>, b: Bridge, m: Message, s: Stream, i: nat)
    requires InOrder(env, inputs, b) && Stray(env, b, m)
    requires TryDispatch(env, b, m).bridge.delivered == b.delivered + [Delivery(s, m)]
    requires i < |Opened(inputs)| && s !in Opened(inputs)[..i + 1]
    ensures Closed(env, Opened(inputs)[i], TryDispatch(env, b, m).bridge.clock)
  {
    var first := TryWaiter(env, b, m).bridge;
    var purged := Purge(env, first);
    var streams, after := AllStreams(env, purged), TryDispatch(env, b, m).bridge;
    LeftLater(env, Opened(inputs), b.general, b.clock, first.clock);
    PurgeInOrder(env, inputs, first);
    LeftLater(env, Opened(inputs), purged.general, purged.clock, after.clock);
    FirstOpenIsFirst(env, streams, purged.clock, 0);
    var j := FirstOpen(env, streams, purged.clock, 0).value;
    assert after.delivered[|b.delivered|] == Delivery(streams[j], m);
    var k := if j < |purged.general| then j else |purged.general|;
    assert forall n :: 0 <= n < k ==> streams[n] == purged.general[n];
    ClosedBefore(env, Opened(inputs), purged.general, after.clock, k, i);
  }

  // ---- Closed streams go ---------------------------------------------------------------------

  lemma {:induction false} KeptWereOpen(env: Env, streams: seq<Stream>, t: nat)
    ensures forall s :: s in KeepOpen(env, streams, t) ==> !Closed(env, s, t)
  {
    if streams != [] {
      KeptWereOpen(env, streams[1..], t + 1);
    }
  }

  lemma PurgeDropsClosed(env: Env, b: Bridge, s: Stream)
    requires Registered(Purge(env, b), s)
    ensures !Closed(env, s, b.clock)
  {
    KeptWereOpen(env, b.general, b.clock);
    var kept := KeepWaiting(env, b.waiting, b.clock + |b.general|);
    if s in kept.Values {
      var id :| id in kept && kept[id] == s;
    }
  }

  lemma {:induction false} DrainAddsNone(env: Env, b: Bridge, s: Stream)
    requires Registered(Drain(env, b), s)
    ensures Registered(b, s)
    decreases |b.deque|
  {
    if b.deque != [] {
      var rest := b.(deque := b.deque[1..]);
      NobodyNew(env, rest, b.deque[0]);
      if TryDispatch(env, rest, b.deque[0]).left.None? {
        DrainAddsNone(env, TryDispatch(env, rest, b.deque[0]).bridge, s);
      }
      assert Registered(TryDispatch(env, rest, b.deque[0]).bridge, s);
    }
  }

  /** After a client has been heard, no stream is registered that had closed before; and whatever comes, only the stream
      that a client opens is new. */
  lemma {:induction false} ClosedStreamsGo(env: Env, b: Bridge, input: Input, s: Stream)
    requires Turn(env, b, input).Some? && Registered(Turn(env, b, input).value, s)
    ensures input.FromHttp? ==> !Closed(env, s, b.clock)
    ensures Registered(b, s) || Opens(input) == Some(s)
  {
    match input
    case FromServer(message) => DrainAddsNone(env, b.(deque := b.deque + [message]), s);
    case FromHttp(http) =>
      DrainAddsNone(env, HandleHttp(env, b, http).value, s);
      var sent := if http.Get? then b else Forward(env, b, PostOf(http)[0]).value;
      var registered := match http
        case PostRequest(request, stream) => Register(sent, request.id, stream)
        case Get(stream) => Register(sent, None, stream)
        case _ => sent;
      PurgeDropsClosed(env, registered, s);
      PurgeKeepsOpen(env, registered);
      assert Registered(registered, s);
      if http.PostRequest? && http.request.id.Some? && s in registered.waiting.Values {
        var id :| id in registered.waiting && registered.waiting[id] == s;
        InValues(b.waiting, id);
      }
  }
}
