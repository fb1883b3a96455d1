// Chains of default proxies: what they pass on, and how the handshake travels through them.

module HandshakeRuns {
  import opened Outcomes
  import opened Messages
  import opened Routing
  import opened ProxyTree
  import opened ProxyTreeMoves
  import opened Chain
  import opened ChainRuns

  // ---- Proxies driven by the default handler -------------------------------------------------

  /** The form in which a proxy's own link brings it a message. */
  function OnLink(dir: Direction, m: Traffic): DownWire {
    UnwrapWrap(m);
    if dir == Leftward then Wrap(m)
    else if IsCall(m, METHOD_INITIALIZE) then Msg(true, Untyped(METHOD_INITIALIZE_PROXY, m.body.params))
    else m
  }

  lemma OnlyForm(w: DownWire)
    ensures OnLink(OffLinkDown(w).dir, OffLinkDown(w).m) == w
  {
  }

  /** What the default handler makes of the message a proxy has received. */
  function Handled(schema: Schema, e: Event): Form
    requires e.Received?
  {
    DefaultProxy(schema, OnLink(e.dir, e.m))
  }

  /** `e'` is what the default handler sends on receiving `e`. */
  predicate Answers(schema: Schema, e: Event, e': Event) {
    && e.Received? && e'.Sent? && e'.at == e.at
    && Handled(schema, e) == Forward(ToLinkUp(Give(e'.dir, e'.m)))
  }

  /** What the component at place `at` did, in order. */
  function DoneBy(at: nat, events: seq<Event>): seq<Event> {
    if events == [] then [] else
    var e := events[|events| - 1];
    DoneBy(at, events[..|events| - 1]) + if e.at == at then [e] else []
  }

  /** Each message received was handled before the next was taken, and nothing else was sent. */
  predicate AllHandled(schema: Schema, done: seq<Event>) {
    done == [] ||
    (|done| >= 2 && Answers(schema, done[|done| - 2], done[|done| - 1]) && AllHandled(schema, done[..|done| - 2]))
  }

  /** A default proxy at any moment: the last message it received may wait to be handled, for ever if its
      handler fails. */
  predicate Driven(schema: Schema, done: seq<Event>) {
    AllHandled(schema, done) || (done[|done| - 1].Received? && AllHandled(schema, done[..|done| - 1]))
  }

  /** Every proxy of a run does what the default handler does. */
  ghost predicate DrivenRun(schema: Schema, places: nat, events: seq<Event>) {
    forall at :: 0 < at < places - 1 ==> Driven(schema, DoneBy(at, events))
  }

  /** The proxy has nothing to send: it is ready for the next message, or its handler has failed. */
  predicate AtRest(schema: Schema, done: seq<Event>) {
    done != [] && done[|done| - 1].Received? ==> !Handled(schema, done[|done| - 1]).Forward?
  }

  // ---- What default proxies keep -------------------------------------------------------------

  /** A default proxy sends each message on in the direction in which it came, the same message but for
      the parameters that it reads and writes anew. */
  lemma AnswerIsEcho(schema: Schema, e: Event, e': Event)
    requires Answers(schema, e, e')
    ensures e'.dir == e.dir
    ensures if e.dir == Rightward && IsCall(e.m, METHOD_NEW_SESSION)
            then schema.newSession(e.m.body.params) == Some(e'.m.body.params) && IsCall(e'.m, METHOD_NEW_SESSION)
            else Erase(e'.m) == Erase(e.m)
  {
    UnwrapWrap(e.m);
    UnwrapWrap(e'.m);
    var w := OnLink(e.dir, e.m);
    if e.dir == Leftward {
      assert Handled(schema, e) == Forward(e.m);
    } else {
      assert !IsWrapped(w);
    }
  }

  /** `view` does not show what a default proxy may change. */
  ghost predicate Keeps(schema: Schema, view: View) {
    forall e, e' | Answers(schema, e, e') :: view(Erase(e'.m)) == view(Erase(e.m))
  }

  /** A message without the parameters of a new session. */
  function SansSession(m: Traffic): Traffic {
    if IsCall(m, METHOD_NEW_SESSION) then Msg(true, Untyped(METHOD_NEW_SESSION, JNull)) else m
  }

  /** A message with the parameters of a new session as the typed form has them. */
  function Typed(schema: Schema, m: Traffic): Traffic {
    if IsCall(m, METHOD_NEW_SESSION) && schema.newSession(m.body.params).Some?
    then Msg(true, Untyped(METHOD_NEW_SESSION, schema.newSession(m.body.params).value)) else m
  }

  /** What has been read and written anew once is not changed by doing so again. */
  ghost predicate Idempotent(reencode: Json -> Option<Json>) {
    forall p :: reencode(p).Some? ==> reencode(reencode(p).value) == reencode(p)
  }

  lemma SansSessionKept(schema: Schema)
    ensures Keeps(schema, SansSession)
  {
    forall e, e' | Answers(schema, e, e') ensures SansSession(Erase(e'.m)) == SansSession(Erase(e.m)) {
      AnswerIsEcho(schema, e, e');
    }
  }

  lemma TypedKept(schema: Schema)
    requires Idempotent(schema.newSession)
    ensures Keeps(schema, m => Typed(schema, m))
  {
    forall e, e' | Answers(schema, e, e') ensures Typed(schema, Erase(e'.m)) == Typed(schema, Erase(e.m)) {
      AnswerIsEcho(schema, e, e');
    }
  }

  lemma {:induction false} LogsFromDone(dir: Direction, at: nat, events: seq<Event>)
    ensures SentBy(dir, at, events) == SentBy(dir, at, DoneBy(at, events))
    ensures ReceivedBy(dir, at, events) == ReceivedBy(dir, at, DoneBy(at, events))
  {
    if events != [] {
      var init, e := events[..|events| - 1], events[|events| - 1];
      LogsFromDone(dir, at, init);
      LogsOfOne(dir, at, init, e);
      LogsOfOne(dir, at, DoneBy(at, init), e);
      assert init + [e] == events;
      assert DoneBy(at, init) + [] == DoneBy(at, init);
    }
  }

  lemma {:induction false} DoneAt(at: nat, events: seq<Event>, e: Event)
    requires e in DoneBy(at, events)
    ensures e in events && e.at == at
  {
    if e in DoneBy(at, events[..|events| - 1]) {
      DoneAt(at, events[..|events| - 1], e);
    }
  }

  lemma {:induction false} OneHandled(schema: Schema, view: View, dir: Direction, at: nat, rest: seq<Event>, e: Event, e': Event)
    requires Keeps(schema, view) && Answers(schema, e, e')
    requires Seen(view, SentBy(dir, at, rest)) == Seen(view, ReceivedBy(dir, at, rest))
    ensures Seen(view, SentBy(dir, at, rest + [e] + [e'])) == Seen(view, ReceivedBy(dir, at, rest + [e] + [e']))
  {
    AnswerIsEcho(schema, e, e');
    LogsOfOne(dir, at, rest, e);
    LogsOfOne(dir, at, rest + [e], e');
    assert view(Erase(e'.m)) == view(Erase(e.m));
    var sent, received := SentBy(dir, at, rest), ReceivedBy(dir, at, rest);
    SeenAppend(view, sent, Erase(e'.m));
    SeenAppend(view, received, Erase(e.m));
    assert sent + [] == sent && received + [] == received;
  }

  lemma SeenAppend(view: View, ms: seq<Traffic>, m: Traffic)
    ensures Seen(view, ms + [m]) == Seen(view, ms) + [view(m)]
    ensures ms + [m] + [] == ms + [m]
  {
  }

  /** A proxy that has handled everything has sent on everything. */
  lemma {:induction false} AllHandledForwards(schema: Schema, view: View, dir: Direction, at: nat, done: seq<Event>)
    requires Keeps(schema, view) && AllHandled(schema, done)
    ensures Seen(view, SentBy(dir, at, done)) == Seen(view, ReceivedBy(dir, at, done))
  {
    if done != [] {
      var e, e', rest := done[|done| - 2], done[|done| - 1], done[..|done| - 2];
      AllHandledForwards(schema, view, dir, at, rest);
      OneHandled(schema, view, dir, at, rest, e, e');
      assert rest + [e] + [e'] == done;
    }
  }

  lemma {:induction false} DrivenForwards(schema: Schema, view: View, dir: Direction, at: nat, events: seq<Event>)
    requires Keeps(schema, view) && Driven(schema, DoneBy(at, events))
    ensures Seen(view, SentBy(dir, at, events)) <= Seen(view, ReceivedBy(dir, at, events))
  {
    var done := DoneBy(at, events);
    LogsFromDone(dir, at, events);
    if AllHandled(schema, done) {
      AllHandledForwards(schema, view, dir, at, done);
    } else {
      var init := done[..|done| - 1];
      AllHandledForwards(schema, view, dir, at, init);
      LogsOfOne(dir, at, init, done[|done| - 1]);
      assert init + [done[|done| - 1]] == done;
      assert SentBy(dir, at, init) + [] == SentBy(dir, at, init);
      SeenPrefix(view, ReceivedBy(dir, at, init), ReceivedBy(dir, at, done));
    }
  }

  /** Default proxies forward: seen through a view that shows nothing they may change, a chain of them is a
      direct link in every run. */
  lemma {:induction false} DefaultChainIsTransparent(view: View, dir: Direction, schema: Schema, w: World, steps: seq<Step>, t: nat)
    requires IdleWorld(w) && Run(schema, w, steps).Some? && 0 < t < Places(w)
    requires Keeps(schema, view) && DrivenRun(schema, Places(w), Run(schema, w, steps).value.events)
    ensures var events, places := Run(schema, w, steps).value.events, Places(w);
      var received := Seen(view, ReceivedBy(dir, PlaceAt(dir, places, t), events));
      && received <= Seen(view, SentBy(dir, PlaceAt(dir, places, 0), events))
      && (t > 1 ==> received <= Seen(view, ReceivedBy(dir, PlaceAt(dir, places, t - 1), events)))
  {
    var events, places := Run(schema, w, steps).value.events, Places(w);
    forall p | 0 < p < places - 1
      ensures Seen(view, SentBy(dir, PlaceAt(dir, places, p), events)) <= Seen(view, ReceivedBy(dir, PlaceAt(dir, places, p), events))
    {
      DrivenForwards(schema, view, dir, PlaceAt(dir, places, p), events);
    }
    ChainIsTransparent(view, dir, schema, w, steps, t);
  }

  // ---- The handshake -------------------------------------------------------------------------

  predicate IsHandshake(m: Traffic) { IsCall(m, METHOD_INITIALIZE) }

  /** A rightward handshake reaches a proxy as `_proxy/initialize`, and nothing else does. */
  lemma HandshakeOnLink(w: DownWire)
    ensures IsHandshake(OffLinkDown(w).m) && OffLinkDown(w).dir == Rightward <==> IsCall(w, METHOD_INITIALIZE_PROXY)
  {
  }

  /** A handshake comes first, if anything does, and there is no other. */
  predicate OneHandshake(ms: seq<Traffic>) {
    ms != [] ==> IsHandshake(ms[0]) && forall i :: 0 < i < |ms| ==> !IsHandshake(ms[i])
  }

  lemma OneHandshakeSeen(ms: seq<Traffic>)
    ensures OneHandshake(Seen(SansSession, ms)) <==> OneHandshake(ms)
  {
    var seen := Seen(SansSession, ms);
    forall i | 0 <= i < |ms| ensures IsHandshake(seen[i]) <==> IsHandshake(ms[i]) {
    }
    if OneHandshake(seen) && ms != [] {
      forall i | 0 < i < |ms| ensures !IsHandshake(ms[i]) {
        assert !IsHandshake(seen[i]);
      }
    }
  }

  lemma OneHandshakePrefix(a: seq<Traffic>, b: seq<Traffic>)
    requires a <= b && OneHandshake(b)
    ensures OneHandshake(a)
  {
  }

  /** If the client's handshake is its first message and its only one, then in every run with default
      proxies each proxy and the agent receive it first, no second one, and only after the one before. */
  lemma {:induction false} HandshakeInOrder(schema: Schema, w: World, steps: seq<Step>, t: nat)
    requires IdleWorld(w) && Run(schema, w, steps).Some? && 0 < t < Places(w)
    requires DrivenRun(schema, Places(w), Run(schema, w, steps).value.events)
    requires OneHandshake(SentBy(Rightward, 0, Run(schema, w, steps).value.events))
    ensures var events := Run(schema, w, steps).value.events;
      && OneHandshake(ReceivedBy(Rightward, t, events))
      && (t > 1 && ReceivedBy(Rightward, t, events) != [] ==> ReceivedBy(Rightward, t - 1, events) != [])
  {
    var events := Run(schema, w, steps).value.events;
    SansSessionKept(schema);
    DefaultChainIsTransparent(SansSession, Rightward, schema, w, steps, t);
    OneHandshakeSeen(SentBy(Rightward, 0, events));
    OneHandshakeSeen(ReceivedBy(Rightward, t, events));
    OneHandshakePrefix(Seen(SansSession, ReceivedBy(Rightward, t, events)), Seen(SansSession, SentBy(Rightward, 0, events)));
  }

  // ---- No handshake fails --------------------------------------------------------------------

  /** Reading the handshake and writing it anew gives it back. */
  predicate Readable(schema: Schema, w: DownWire) {
    IsCall(w, METHOD_INITIALIZE_PROXY) ==> schema.initialize(w.body.params) == Some(w.body.params)
  }

  predicate AllReadable(schema: Schema, n: Node) {
    n.Nest? ==> forall kid :: kid in n.kids ==> AllReadable(schema, kid.node) && forall w :: w in kid.down ==> Readable(schema, w)
  }

  /** A received event is of a handshake that can be read. */
  predicate ReadableEvent(schema: Schema, e: Option<Event>) {
    e.Some? && e.value.Received? && e.value.dir == Rightward && IsHandshake(e.value.m) ==>
      schema.initialize(e.value.m.body.params) == Some(e.value.m.body.params)
  }

  lemma {:induction false} RouteKeepsReadable(schema: Schema, n: Node)
    requires Idempotent(schema.initialize) && AllReadable(schema, n)
    requires n.Nest? && n.mailbox != [] && RouteEntry(schema, n).Some?
    ensures AllReadable(schema, RouteEntry(schema, n).value.node)
  {
    var o := RouteEntry(schema, n).value.node;
    forall kid | kid in o.kids
      ensures AllReadable(schema, kid.node) && forall w :: w in kid.down ==> Readable(schema, w)
    {
      var i :| 0 <= i < |o.kids| && o.kids[i] == kid;
      assert n.kids[i] in n.kids && kid.node == n.kids[i].node;
      UnwrapWrap(n.mailbox[0].m);
    }
  }

  lemma {:induction false} MoveKeepsReadable(schema: Schema, n: Node, mv: Move)
    requires Idempotent(schema.initialize) && AllReadable(schema, n) && Apply(schema, n, mv).Some? && !mv.Take?
    ensures var o := Apply(schema, n, mv).value; AllReadable(schema, o.node) && ReadableEvent(schema, o.event)
    decreases mv
  {
    if n.Nest? {
      match mv
      case Inside(i, sub) =>
        assert n.kids[i] in n.kids;
        MoveKeepsReadable(schema, n.kids[i].node, sub);
      case Feed(i) =>
        assert n.kids[i] in n.kids && n.kids[i].down[0] in n.kids[i].down;
      case Pump(i) => assert n.kids[i] in n.kids;
      case Route => RouteKeepsReadable(schema, n);
      case Begin(params) => RouteKeepsReadable(schema, Begun(n, params));
      case _ =>
    }
  }

  lemma {:induction false} IdleReadable(schema: Schema, n: Node)
    requires Idle(n)
    ensures AllReadable(schema, n)
  {
    if n.Nest? {
      forall kid | kid in n.kids ensures AllReadable(schema, kid.node) {
        IdleReadable(schema, kid.node);
      }
    }
  }

  lemma {:induction false} StepKeepsReadable(schema: Schema, w: World, step: Step)
    requires Idempotent(schema.initialize) && AllReadable(schema, w.root) && Advance(schema, w, step).Some?
    ensures var r := Advance(schema, w, step).value;
      && AllReadable(schema, r.world.root)
      && (r.event.Some? && 0 < r.event.value.at < Places(w) - 1 ==> ReadableEvent(schema, r.event))
  {
    if step.Conduct? {
      MoveKeepsReadable(schema, w.root, step.mv);
    }
  }

  /** Whatever the instantiators make of it and however often it is written anew, no proxy ever receives a
      handshake that its default handler cannot read. */
  lemma {:induction false} HandshakesReadable(schema: Schema, w: World, steps: seq<Step>)
    requires Idempotent(schema.initialize) && IdleWorld(w) && Run(schema, w, steps).Some?
    ensures var t := Run(schema, w, steps).value;
      && AllReadable(schema, t.world.root) && Places(t.world) == Places(w)
      && forall e :: e in t.events && 0 < e.at < Places(w) - 1 ==> ReadableEvent(schema, Some(e))
  {
    if steps == [] {
      IdleReadable(schema, w.root);
    } else {
      var init, last := steps[..|steps| - 1], steps[|steps| - 1];
      HandshakesReadable(schema, w, init);
      var before := Run(schema, w, init).value;
      StepIsLinkStep(Rightward, schema, before.world, last);
      StepKeepsReadable(schema, before.world, last);
      var r := Advance(schema, before.world, last).value;
      forall e | e in Run(schema, w, steps).value.events && 0 < e.at < Places(w) - 1
        ensures ReadableEvent(schema, Some(e))
      {
        assert e in before.events || Some(e) == r.event;
      }
    }
  }

  /** The default handler does not fail on a handshake that can be read. */
  lemma {:induction false} NotTheFirst(schema: Schema, at: nat, init: seq<Event>, e: Event)
    requires e.Received? && e.at == at && ReadableEvent(schema, Some(e)) && !Handled(schema, e).Forward?
    requires ReceivedBy(Rightward, at, init + [e]) != [] && IsHandshake(ReceivedBy(Rightward, at, init + [e])[0])
    ensures ReceivedBy(Rightward, at, init) != []
  {
    LogsOfOne(Rightward, at, init, e);
  }

  /** The first message of a proxy has been sent on once the proxy is at rest. */
  lemma {:induction false} HandshakePassed(schema: Schema, at: nat, done: seq<Event>)
    requires Driven(schema, done) && AtRest(schema, done) && (forall e :: e in done ==> e.at == at)
    requires ReceivedBy(Rightward, at, done) != [] && IsHandshake(ReceivedBy(Rightward, at, done)[0])
    requires forall e :: e in done ==> ReadableEvent(schema, Some(e))
    ensures SentBy(Rightward, at, done) != []
  {
    SansSessionKept(schema);
    if AllHandled(schema, done) {
      AllHandledForwards(schema, SansSession, Rightward, at, done);
    } else {
      var init, e := done[..|done| - 1], done[|done| - 1];
      AllHandledForwards(schema, SansSession, Rightward, at, init);
      LogsOfOne(Rightward, at, init, e);
      assert init + [e] == done && e in done;
      NotTheFirst(schema, at, init, e);
    }
  }

  /** The handshake reaches everyone exactly once: when nothing is in flight any more and the proxies are at
      rest, each of them has received one handshake, as its first message, and so has the agent. */
  lemma {:induction false} HandshakeReachesAll(schema: Schema, w: World, steps: seq<Step>, t: nat)
    requires IdleWorld(w) && Run(schema, w, steps).Some? && 0 < t < Places(w)
    requires Idempotent(schema.initialize)
    requires DrivenRun(schema, Places(w), Run(schema, w, steps).value.events)
    requires AllEmpty(InFlight(Rightward, Run(schema, w, steps).value.world))
    requires forall at :: 0 < at < Places(w) - 1 ==> AtRest(schema, DoneBy(at, Run(schema, w, steps).value.events))
    requires var sent := SentBy(Rightward, 0, Run(schema, w, steps).value.events); sent != [] && OneHandshake(sent)
    ensures var received := ReceivedBy(Rightward, t, Run(schema, w, steps).value.events);
      received != [] && OneHandshake(received)
  {
    var events := Run(schema, w, steps).value.events;
    HandshakeInOrder(schema, w, steps, t);
    RunsAreInOrder(Rightward, schema, w, steps);
    assert PlaceAt(Rightward, Places(w), t) == t && PlaceAt(Rightward, Places(w), t - 1) == t - 1;
    if t > 1 {
      HandshakeReachesAll(schema, w, steps, t - 1);
      HandshakesReadable(schema, w, steps);
      LogsFromDone(Rightward, t - 1, events);
      forall e | e in DoneBy(t - 1, events) ensures e.at == t - 1 && ReadableEvent(schema, Some(e)) {
        DoneAt(t - 1, events, e);
      }
      HandshakePassed(schema, t - 1, DoneBy(t - 1, events));
    }
  }
}
