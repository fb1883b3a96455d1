// Conductors nested to any depth: their queues, the moves between them, and what is in flight.

module ProxyTree {
  import opened Outcomes
  import opened Messages
  import opened Envelope
  import opened Routing
  import opened GapLists

  /** Rightward is from the client to the agent. */
  datatype Direction = Rightward | Leftward

  /** Traffic after the handshake: anything but the two methods reserved for conductors. */
  predicate IsTraffic(m: Msg) {
    m.body.name != METHOD_SUCCESSOR && m.body.name != METHOD_INITIALIZE_PROXY
  }

  type Traffic = m: Msg | IsTraffic(m) witness Msg(false, Untyped("", JNull))

  /** What travels on the link between a conductor and one of its proxies. */
  predicate IsWire(w: Msg) {
    if IsWrapped(w) then Unwrap(w).Some? && IsTraffic(Unwrap(w).value) && Wrap(Unwrap(w).value) == w
    else IsTraffic(w) || IsCall(w, METHOD_INITIALIZE_PROXY)
  }

  type Wire = w: Msg | IsWire(w) witness Msg(false, Untyped("", JNull))

  /** The form a rightward message has on the link down to a proxy, undone. */
  function FromProxyForm(w: Wire): Traffic
    requires !IsWrapped(w)
  {
    if IsCall(w, METHOD_INITIALIZE_PROXY) then Msg(true, Untyped(METHOD_INITIALIZE, w.body.params)) else w
  }

  function Inner(w: Wire): Traffic
    requires IsWrapped(w)
  {
    Unwrap(w).value
  }

  datatype Source = FromProxy(index: nat) | FromSuccessor

  /** The conductor's mailbox entries for messages between components. */
  datatype Routed = LeftToRight(target: nat, m: Traffic) | RightToLeft(source: Source, m: Traffic)

  /** No proxy is ever sent a plain `initialize` request from its left. */
  type DownWire = w: Wire | !IsCall(w, METHOD_INITIALIZE) witness Msg(false, Untyped("", JNull))

  /** A component of a chain: a proxy of any behaviour, or a conductor that is itself a proxy.
      A conductor is ready once it has handled its handshake and spawned its children. */
  datatype Node = Leaf | Nest(ready: bool, kids: seq<Kid>, mailbox: seq<Routed>)

  /** A component with its link to the conductor: `down` carries messages to it, `up` from it. */
  datatype Kid = Kid(node: Node, down: seq<DownWire>, up: seq<Wire>)

  function Leaves(n: Node): nat {
    match n case Leaf => 1 case Nest(_, kids, _) => LeavesOf(kids)
  }

  function LeavesOf(kids: seq<Kid>): nat {
    if kids == [] then 0 else Leaves(kids[0].node) + LeavesOf(kids[1..])
  }

  // ---- Moves ---------------------------------------------------------------------------------

  datatype Give = Give(dir: Direction, m: Traffic)

  /** What a leaf does, `at` being its place among all leaves from left to right. */
  datatype Event =
    | Sent(at: nat, dir: Direction, m: Traffic)
    | Received(at: nat, dir: Direction, m: Traffic)

  datatype Move =
    | Take(dir: Direction, m: Traffic)     // the node takes a message off its link
    | LeafSends(dir: Direction, m: Traffic)
    | Pump(i: nat)                         // a message from child i enters the mailbox
    | Begin(params: Json)                  // the central loop handles its first entry, the handshake
    | Route                                // the central loop handles the next mailbox entry
    | Feed(i: nat)                         // child i takes the next message off its link
    | Inside(i: nat, sub: Move)            // child i moves by itself

  /** The node afterwards, what a leaf visibly did, and what the node put on its link. */
  datatype Outcome = Outcome(node: Node, event: Option<Event>, gives: Option<Give>)

  function ShiftEvent(e: Option<Event>, off: nat): Option<Event> {
    match e
    case None => None
    case Some(Sent(at, dir, m)) => Some(Sent(at + off, dir, m))
    case Some(Received(at, dir, m)) => Some(Received(at + off, dir, m))
  }

  /** On a link, messages to or from the component's right are wrapped. */
  function ToLinkUp(g: Give): Wire {
    UnwrapWrap(g.m);
    if g.dir == Rightward then Wrap(g.m) else g.m
  }

  function OffLinkDown(w: DownWire): Give {
    if IsWrapped(w) then Give(Leftward, Inner(w)) else Give(Rightward, FromProxyForm(w))
  }

  /** A message without what may change on its way: conductors and proxies read the parameters of a
      handshake and write them anew. */
  function Erase(m: Traffic): Traffic {
    if IsCall(m, METHOD_INITIALIZE) then Msg(true, Untyped(METHOD_INITIALIZE, JNull)) else m
  }

  function Erased(ms: seq<Traffic>): (r: seq<Traffic>)
    ensures |r| == |ms|
  {
    seq(|ms|, i requires 0 <= i < |ms| => Erase(ms[i]))
  }

  /** The message as a proxy is sent it; none if it is a handshake that cannot be read. */
  function OnLinkDown(schema: Schema, m: Traffic): (r: Option<DownWire>)
    ensures r.Some? ==> !IsWrapped(r.value) && Erase(FromProxyForm(r.value)) == Erase(m)
  {
    match ProxyForm(schema, m)
    case Forward(w) => Some(w)
    case _ => None
  }

  /** The outcome of a move, or None if the move is not possible. Not possible are also: any use of a
      conductor before its handshake, and a second handshake with a nested conductor (it refuses those). */
  function Apply(schema: Schema, n: Node, mv: Move): Option<Outcome>
    decreases mv
  {
    match n
    case Leaf =>
      (match mv
       case Take(dir, m) => Some(ApplyTake(n, Give(dir, m)))
       case LeafSends(dir, m) => Some(Outcome(Leaf, Some(Sent(0, dir, m)), Some(Give(dir, m))))
       case _ => None)
    case Nest(ready, kids, _) =>
      if mv.Take? then Some(ApplyTake(n, Give(mv.dir, mv.m)))
      else if mv.Begin? then ApplyBegin(schema, n, mv.params)
      else if !ready then None
      else
        match mv
        case Route => ApplyRoute(schema, n)
        case Pump(i) => ApplyPump(n, i)
        case Feed(i) => ApplyFeed(n, i)
        case Inside(i, sub) =>
          if i < |kids| && !sub.Take? then
            match Apply(schema, kids[i].node, sub)
            case None => None
            case Some(o) =>
              Some(Outcome(n.(kids := kids[i := AfterInside(n, i, o)]),
                           ShiftEvent(o.event, LeavesOf(kids[..i])), None))
          else None
        case _ => None
  }

  function ApplyTake(n: Node, g: Give): Outcome {
    match n
    case Leaf => Outcome(Leaf, Some(Received(0, g.dir, g.m)), None)
    case Nest(_, _, mailbox) =>
      var entry := if g.dir == Rightward then LeftToRight(0, g.m) else RightToLeft(FromSuccessor, g.m);
      Outcome(n.(mailbox := mailbox + [entry]), None, None)
  }

  /** Child i takes the oldest message off its link. */
  function ApplyFeed(n: Node, i: nat): Option<Outcome>
    requires n.Nest?
  {
    if i < |n.kids| && n.kids[i].down != [] then
      var node, w := n.kids[i].node, n.kids[i].down[0];
      if node.Nest? && IsCall(w, METHOD_INITIALIZE_PROXY) && (node.ready || node.mailbox != []) then None else
      var taken := ApplyTake(node, OffLinkDown(w));
      var kid := Kid(taken.node, n.kids[i].down[1..], n.kids[i].up);
      Some(Outcome(n.(kids := n.kids[i := kid]), ShiftEvent(taken.event, LeavesOf(n.kids[..i])), None))
    else None
  }

  /** A child that moves by itself puts what it gives on its link. */
  function AfterInside(n: Node, i: nat, o: Outcome): Kid
    requires n.Nest? && i < |n.kids|
  {
    Kid(o.node, n.kids[i].down,
        if o.gives.Some? then n.kids[i].up + [ToLinkUp(o.gives.value)] else n.kids[i].up)
  }

  /** The handler of the connection to child i: wrapped messages go to its successor, others to its predecessor. */
  function ApplyPump(n: Node, i: nat): Option<Outcome>
    requires n.Nest?
  {
    if i < |n.kids| && n.kids[i].up != [] then
      var w := n.kids[i].up[0];
      var kid := n.kids[i].(up := n.kids[i].up[1..]);
      if IsCall(w, METHOD_INITIALIZE_PROXY) then None else
      var entry := if IsWrapped(w) then LeftToRight(i + 1, Inner(w)) else RightToLeft(FromProxy(i), w);
      Some(Outcome(n.(kids := n.kids[i := kid], mailbox := n.mailbox + [entry]), None, None))
    else None
  }

  /** The place a right-to-left message comes from, counting the successor as the place after the last child. */
  function SourceIndex(kids: nat, source: Source): nat {
    match source case FromProxy(i) => i case FromSuccessor => kids
  }

  function ApplyRoute(schema: Schema, n: Node): Option<Outcome>
    requires n.Nest?
  {
    if n.mailbox == [] then None else RouteEntry(schema, n)
  }

  /** The first entry the central loop handles must be the handshake. The instantiator, which chooses the
      components, may choose any parameters to pass on in its place. */
  function ApplyBegin(schema: Schema, n: Node, params: Json): Option<Outcome>
    requires n.Nest?
  {
    if n.ready || n.mailbox == [] || !n.mailbox[0].LeftToRight? || !IsCall(n.mailbox[0].m, METHOD_INITIALIZE)
       || schema.initialize(n.mailbox[0].m.body.params).None?
    then None
    else RouteEntry(schema, Begun(n, params))
  }

  /** The conductor with its components and with the handshake as it is passed on. */
  function Begun(n: Node, params: Json): (r: Node)
    requires n.Nest? && n.mailbox != []
    ensures r.Nest? && r.mailbox != []
  {
    var m := Msg(true, Untyped(METHOD_INITIALIZE, params));
    Nest(true, n.kids, [n.mailbox[0].(m := m)] + n.mailbox[1..])
  }

  /** Hands the oldest entry to a child, or to the node's own link at either end. */
  function RouteEntry(schema: Schema, n: Node): (r: Option<Outcome>)
    requires n.Nest? && n.mailbox != []
    ensures r.Some? ==> r.value.node.Nest?
  {
    var rest := n.(mailbox := n.mailbox[1..]);
    match n.mailbox[0]
    case LeftToRight(target, m) =>
      if target < |n.kids| then
        match OnLinkDown(schema, m)
        case None => None
        case Some(w) => Some(Outcome(PushDown(rest, target, w), None, None))
      else if target == |n.kids| then Some(Outcome(rest, None, Some(Give(Rightward, m))))
      else None
    case RightToLeft(source, m) =>
      var index := SourceIndex(|n.kids|, source);
      if index == 0 then Some(Outcome(rest, None, Some(Give(Leftward, m))))
      else if index <= |n.kids| then
        UnwrapWrap(m);
        Some(Outcome(PushDown(rest, index - 1, Wrap(m)), None, None))
      else None
  }

  function PushDown(n: Node, i: nat, w: DownWire): (r: Node)
    requires n.Nest? && i < |n.kids|
    ensures r.Nest?
  {
    n.(kids := n.kids[i := n.kids[i].(down := n.kids[i].down + [w])])
  }

  // ---- What is in flight, up to the parameters of handshakes ----------------------------------

  function Plain(ws: seq<Wire>): seq<Traffic> {
    if ws == [] then [] else (if IsWrapped(ws[0]) then [] else [Erase(FromProxyForm(ws[0]))]) + Plain(ws[1..])
  }

  function Wrapped(ws: seq<Wire>): seq<Traffic> {
    if ws == [] then [] else (if IsWrapped(ws[0]) then [Erase(Inner(ws[0]))] else []) + Wrapped(ws[1..])
  }

  function InDown(dir: Direction, ws: seq<Wire>): seq<Traffic> {
    if dir == Rightward then Plain(ws) else Wrapped(ws)
  }

  function InUp(dir: Direction, ws: seq<Wire>): seq<Traffic> {
    if dir == Rightward then Wrapped(ws) else Plain(ws)
  }

  /** Does mailbox entry `r` of a conductor with `k` children wait in front of travel place `p`? */
  predicate WaitsAt(dir: Direction, k: nat, p: nat, r: Routed) {
    if dir == Rightward then r.LeftToRight? && r.target == p
    else r.RightToLeft? && SourceIndex(k, r.source) + p == k
  }

  /** The entries of a mailbox that wait at travel place `p`. */
  function InMail(dir: Direction, mail: seq<Routed>, k: nat, p: nat): seq<Traffic> {
    if mail == [] then [] else
    (if WaitsAt(dir, k, p, mail[0]) then [Erase(mail[0].m)] else []) + InMail(dir, mail[1..], k, p)
  }

  /** The child met at travel place `p`. */
  function Place(dir: Direction, k: nat, p: nat): (i: nat)
    requires p < k
    ensures i < k
  {
    if dir == Rightward then p else k - 1 - p
  }

  /** The mailbox entries of a conductor, by the place they wait at. */
  function Mails(dir: Direction, mailbox: seq<Routed>, k: nat): (r: seq<seq<Traffic>>)
    ensures |r| == k + 1
  {
    seq(k + 1, p requires 0 <= p <= k => InMail(dir, mailbox, k, p))
  }

  function StageOf(dir: Direction, kid: Kid): Stage<Traffic>
    decreases kid
  {
    Stage(InDown(dir, kid.down), GapsOf(dir, kid.node), InUp(dir, kid.up))
  }

  /** The children of a conductor in the order of travel. */
  function StagesOf(dir: Direction, kids: seq<Kid>): (r: seq<Stage<Traffic>>)
    ensures |r| == |kids|
    decreases kids
  {
    seq(|kids|, p requires 0 <= p < |kids| => StageOf(dir, kids[Place(dir, |kids|, p)]))
  }

  /** The messages in flight inside a node, gap by gap in the direction of travel. */
  function GapsOf(dir: Direction, n: Node): Gaps<Traffic>
    decreases n
  {
    match n
    case Leaf => [[], []]
    case Nest(_, kids, mailbox) => Line(Mails(dir, mailbox, |kids|), StagesOf(dir, kids))
  }
}
