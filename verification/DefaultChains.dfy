// Chains of default proxies deliver everything: the default handler fails on nothing that it can read.

module DefaultChains {
  import opened Outcomes
  import opened Messages
  import opened Routing
  import opened ProxyTree
  import opened ProxyTreeMoves
  import opened Chain
  import opened ChainRuns
  import opened HandshakeRuns

  // ---- What the default handler does with any message ----------------------------------------

  /** The parameters of a new session, if the message asks for one, can be read. */
  predicate SessionReadable(schema: Schema, m: Traffic) {
    IsCall(m, METHOD_NEW_SESSION) ==> schema.newSession(m.body.params).Some?
  }

  predicate CanRead(schema: Schema, m: Traffic) {
    SessionReadable(schema, m) && (IsHandshake(m) ==> schema.initialize(m.body.params).Some?)
  }

  /** The message with the parameters that are read, of a handshake or a new session, written anew. */
  function Rewritten(schema: Schema, m: Traffic): Traffic
    requires CanRead(schema, m)
  {
    if IsHandshake(m) then Msg(true, Untyped(METHOD_INITIALIZE, schema.initialize(m.body.params).value))
    else if IsCall(m, METHOD_NEW_SESSION) then Msg(true, Untyped(METHOD_NEW_SESSION, schema.newSession(m.body.params).value))
    else m
  }

  /** Whatever a proxy receives, its default handler sends the same message on in the same direction; it fails if
      and only if the message is a rightward handshake or new session that cannot be read. */
  lemma ForwardsIff(schema: Schema, e: Event)
    requires e.Received?
    ensures HandshakeRuns.Handled(schema, e).Forward? <==> e.dir == Leftward || CanRead(schema, e.m)
    ensures HandshakeRuns.Handled(schema, e).Forward? ==>
      Answers(schema, e, Sent(e.at, e.dir, if e.dir == Leftward then e.m else Rewritten(schema, e.m)))
  {
    UnwrapWrap(e.m);
    if e.dir == Rightward {
      assert !IsWrapped(OnLink(e.dir, e.m));
    }
  }

  // ---- No default handler fails --------------------------------------------------------------

  lemma {:induction false} SendsReadable(schema: Schema, at: nat, done: seq<Event>)
    requires Idempotent(schema.newSession) && AllHandled(schema, done)
    ensures forall m :: m in SentBy(Rightward, at, done) ==> SessionReadable(schema, m)
  {
    if done != [] {
      var e, e', rest := done[|done| - 2], done[|done| - 1], done[..|done| - 2];
      SendsReadable(schema, at, rest);
      LogsOfOne(Rightward, at, rest, e);
      LogsOfOne(Rightward, at, rest + [e], e');
      assert rest + [e] + [e'] == done;
      AnswerReadable(schema, e, e');
    }
  }

  lemma AnswerReadable(schema: Schema, e: Event, e': Event)
    requires Idempotent(schema.newSession) && Answers(schema, e, e')
    ensures e'.dir == Rightward ==> SessionReadable(schema, Erase(e'.m))
  {
    AnswerIsEcho(schema, e, e');
  }

  lemma {:induction false} DrivenSendsReadable(schema: Schema, at: nat, events: seq<Event>)
    requires Idempotent(schema.newSession) && Driven(schema, DoneBy(at, events))
    ensures forall m :: m in SentBy(Rightward, at, events) ==> SessionReadable(schema, m)
  {
    var done := DoneBy(at, events);
    LogsFromDone(Rightward, at, events);
    if AllHandled(schema, done) {
      SendsReadable(schema, at, done);
    } else {
      var init := done[..|done| - 1];
      SendsReadable(schema, at, init);
      LogsOfOne(Rightward, at, init, done[|done| - 1]);
      assert init + [done[|done| - 1]] == done;
    }
  }

  /** Each place has sent only sessions that can be read, if the client has. */
  lemma {:induction false} AllSendReadable(schema: Schema, places: nat, events: seq<Event>, t: nat)
    requires Idempotent(schema.newSession) && DrivenRun(schema, places, events) && t + 1 < places
    requires forall m :: m in SentBy(Rightward, 0, events) ==> SessionReadable(schema, m)
    ensures forall m :: m in SentBy(Rightward, t, events) ==> SessionReadable(schema, m)
  {
    if t > 0 {
      DrivenSendsReadable(schema, t, events);
    }
  }

  lemma {:induction false} Logged(at: nat, events: seq<Event>, e: Event)
    requires e in events && e.Received? && e.at == at
    ensures Erase(e.m) in ReceivedBy(e.dir, at, events)
  {
    var init, last := events[..|events| - 1], events[|events| - 1];
    if e != last {
      assert e in init;
      Logged(at, init, e);
    }
  }

  /** If the new sessions the client asks for can be read, then in every run of default proxies no handler fails,
      whatever the instantiators make of the handshake: each message received is sent on or about to be. */
  lemma {:induction false} NoDefaultFails(schema: Schema, w: World, steps: seq<Step>, e: Event)
    requires Idempotent(schema.initialize) && Idempotent(schema.newSession)
    requires IdleWorld(w) && Run(schema, w, steps).Some?
    requires DrivenRun(schema, Places(w), Run(schema, w, steps).value.events)
    requires forall m :: m in SentBy(Rightward, 0, Run(schema, w, steps).value.events) ==> SessionReadable(schema, m)
    requires e in Run(schema, w, steps).value.events && e.Received? && 0 < e.at < Places(w) - 1
    ensures exists e' :: Answers(schema, e, e')
  {
    var events := Run(schema, w, steps).value.events;
    if e.dir == Rightward {
      AllSendReadable(schema, Places(w), events, e.at - 1);
      RunsAreInOrder(Rightward, schema, w, steps);
      assert ReceivedBy(Rightward, PlaceAt(Rightward, Places(w), e.at), events)
          <= SentBy(Rightward, PlaceAt(Rightward, Places(w), e.at - 1), events);
      Logged(e.at, events, e);
      assert SessionReadable(schema, Erase(e.m));
      HandshakesReadable(schema, w, steps);
      assert ReadableEvent(schema, Some(e));
    }
    ForwardsIff(schema, e);
  }

  // ---- Everything arrives --------------------------------------------------------------------

  /** A proxy that has answered everything it has received. */
  predicate Rested(done: seq<Event>) {
    done == [] || done[|done| - 1].Sent?
  }

  lemma {:induction false} RestedForwards(schema: Schema, view: View, dir: Direction, at: nat, events: seq<Event>)
    requires Keeps(schema, view) && Driven(schema, DoneBy(at, events)) && Rested(DoneBy(at, events))
    ensures Seen(view, SentBy(dir, at, events)) == Seen(view, ReceivedBy(dir, at, events))
  {
    LogsFromDone(dir, at, events);
    AllHandledForwards(schema, view, dir, at, DoneBy(at, events));
  }

  /** Chains of default proxies deliver: with nothing in flight and every proxy at rest, each place has received
      all that the first sent, in either direction, seen through any view that hides what is written anew. */
  lemma {:induction false} DefaultChainDelivers(view: View, dir: Direction, schema: Schema, w: World, steps: seq<Step>, t: nat)
    requires IdleWorld(w) && Run(schema, w, steps).Some? && 0 < t < Places(w)
    requires Keeps(schema, view) && DrivenRun(schema, Places(w), Run(schema, w, steps).value.events)
    requires AllEmpty(InFlight(dir, Run(schema, w, steps).value.world))
    requires forall at :: 0 < at < Places(w) - 1 ==> Rested(DoneBy(at, Run(schema, w, steps).value.events))
    ensures var events, places := Run(schema, w, steps).value.events, Places(w);
      Seen(view, ReceivedBy(dir, PlaceAt(dir, places, t), events)) == Seen(view, SentBy(dir, PlaceAt(dir, places, 0), events))
  {
    var events, places := Run(schema, w, steps).value.events, Places(w);
    forall p | 0 < p < places - 1
      ensures Seen(view, SentBy(dir, PlaceAt(dir, places, p), events)) == Seen(view, ReceivedBy(dir, PlaceAt(dir, places, p), events))
    {
      RestedForwards(schema, view, dir, PlaceAt(dir, places, p), events);
    }
    ChainDelivers(view, dir, schema, w, steps, t);
  }

  /** A default proxy holds nothing back: one that has nothing to send has answered everything, and is not one
      whose handler has failed. */
  lemma {:induction false} RestIsAnswered(schema: Schema, w: World, steps: seq<Step>, at: nat)
    requires Idempotent(schema.initialize) && Idempotent(schema.newSession)
    requires IdleWorld(w) && Run(schema, w, steps).Some? && 0 < at < Places(w) - 1
    requires DrivenRun(schema, Places(w), Run(schema, w, steps).value.events)
    requires forall m :: m in SentBy(Rightward, 0, Run(schema, w, steps).value.events) ==> SessionReadable(schema, m)
    ensures var done := DoneBy(at, Run(schema, w, steps).value.events); AtRest(schema, done) <==> Rested(done)
  {
    var events := Run(schema, w, steps).value.events;
    var done := DoneBy(at, events);
    if done != [] && done[|done| - 1].Received? {
      var e := done[|done| - 1];
      DoneAt(at, events, e);
      NoDefaultFails(schema, w, steps, e);
      NotAtRest(schema, done, e);
    }
  }

  lemma NotAtRest(schema: Schema, done: seq<Event>, e: Event)
    requires done != [] && e == done[|done| - 1] && exists e' :: Answers(schema, e, e')
    ensures !AtRest(schema, done) && !Rested(done)
  {
  }
}
