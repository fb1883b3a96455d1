# Verified model of the agent-client SDK

A Dafny model of the parts of this repository where order, routing and bookkeeping matter, with proofs of what
they promise. `dafny verify dfyconfig.toml` checks everything.

## The system

**Conductor** (`Routing`, `CentralLoop`, `CentralLoopRuns`, `CentralLoopLinks`, `CentralLoopEnds`). A conductor sits between a client and an agent with a
row of proxies in between. Each proxy talks to the conductor over one link: a message to or from the proxy's right
travels in a `_proxy/successor` envelope, everything else plainly. `CentralLoop.ConductorResponder` is the central
loop over the conductor's mailbox, with its lazily spawned proxies and its MCP bridges, and it is proved equal to the
specification function `CentralLoop.HandleAll`. `CentralLoopRuns` proves what holds of every run of the loop,
`CentralLoopEnds` what goes in and out at its ends: which handshake lets one in, what the agent is sent, how bridges speak
for it, and when the loop ends. `McpListeners` has the listeners that stand in for a session's `acp:` servers.

**Chains of conductors** (`GapLists`, `ProxyTree`, `ProxyTreeMoves`, `Chain`, `ChainRuns`, `ChainSafety`). A conductor
can itself be a proxy of another conductor, to any depth. `ProxyTree` models all queues of such a tree: both directions
of every link and the mailbox of every conductor, with one move for each independent thing that can happen next.
Proxies, client and agent may do anything. The main idea is that the messages in flight between two neighbouring
proxies, read through all the queues, mailboxes and conductors on the way, form one first-in-first-out queue in each
direction; `Chain.StepIsLinkStep` shows that every step respects that. Handshakes are read and written anew on their
way, by conductors, instantiators and default proxies, so what is in flight is compared up to their parameters.

**Default proxies and the handshake** (`HandshakeRuns`, `DefaultChains`). Runs in which every proxy does what
`Routing.DefaultProxy` says, the way of `initialize` through them, and that they fail on nothing and deliver everything.

**Taking nested conductors apart.** What proxies show in one conductor they can show, event for event, in any nesting
(`FlatteningRuns.FlatRunsAreNestedRuns`), and in each direction of travel by itself all nestings show the same
(`DirectionRuns.EachDirectionFlattens`). Across both directions a nesting shows nothing new if and only if each of its
groups holds one proxy, or all proxies of the chain, or none and is at one end of it (`NestingExactly.KeepsOrderIff`).
The steps there:

- `Rows`: a row of places, each with one queue for what comes to it and one for what it sends. `RowChains` shows that
  any nesting can do what a row does, `FlatteningRuns` that one conductor is exactly a row. `Flattening` has the ways
  of single messages through nested conductors.
- `Groupings` and `NestingOrder`: a group that is not harmless shows five events that no row shows.
- `Delays`, `OneProxy`, `OneProxyMoves`: in harmless groups messages of one direction may fall behind those of the
  other, and nothing else changes their order. `CoreMoves` and `HarmlessRuns` carry that over to whole chains, and
  `HarmlessRows` shows that a row can follow, whatever is delayed, by settling late what comes from the ends and early
  what goes there.

**Envelopes and handlers** (`Envelope`, `Handlers`). Encoding and decoding of the successor and MCP envelopes, their
opening and closing around handlers, and chains of handlers.

**HTTP bridge** (`HttpBridge`, `HttpBridgeRuns`, `HttpBridgeEnds`). The scheduler that spreads a server's messages over the POST and GET
streams of its clients (Streamable HTTP transport, Model Context Protocol 2025-03-26, "Sending Messages to the Server"
and "Multiple Connections"). Streams close whenever they like: time is counted in looks at a stream, and the closing
times are arbitrary, so a stream may go between any two looks, also in the middle of a turn.

**Dispatch loop** (`DispatchLoop`, `DispatchLoopRuns`, `DispatchLoopWire`). Incoming messages, reply subscriptions and
changes to the dynamic handlers in any interleaving; handlers are arbitrary, and what one decides may depend on everything
before. `DispatchLoopWire` puts two ends of a connection together.

**ELIZA** (`ElizaMatcher`, `ElizaTemplate`, `ElizaEngine`, `ElizaPieces`, `ElizaRuns`, `ElizaAnswers`, `ElizaReplies`).
The backtracking pattern matcher against a declarative specification, the template reader, and the engine with links,
rotating rules and memories. `ElizaAnswers` and `ElizaReplies` say what is answered in terms of the script and of the
rules whose turn it is before the input, without following the engine's state along the way.

**Small parts** (`TaskLoop`, `LogFraming`). The concurrent task loop under every schedule, and the log writer under
every way of cutting its input.

Where the source updates state the model is a class or a loop whose `ensures` equates the new state with a
specification function; the properties are lemmas about that function. Time, closing channels, hash map order, random
start positions and the decisions of user code are arbitrary inputs of those functions.

## Model

| member | source | states |
|---|---|---|
| Envelope.ParseRecovers | src/sacp/src/schema/proxy_protocol.rs:30-63 | decoding any nesting of successor and MCP envelopes recovers every layer, up to an explicit null `meta`, which reads back as absent |
| Envelope.RoundTrip | src/sacp/src/schema/proxy_protocol.rs:139-176 | decode after encode is the identity if and only if no layer has an explicit null `meta` |
| Envelope.ParseFailsIff | src/sacp/src/schema/proxy_protocol.rs:38-63 | what does not parse has, behind layers that open, one of another method or one that does not open, and the error says which |
| Envelope.FromUntypedRecovers | src/sacp-conductor/src/trace.rs:516-537 | looking through any number of layers terminates and finds the innermost message, with the right successor and protocol flags |
| Handlers.OutgoingMeetsIncoming | src/sacp/src/role.rs:97-111 | what is sent in a remote style is what the other end's handlers of that style are offered |
| Handlers.PeerIsAsked | src/sacp/src/role.rs:97-260 | for any handler and any message sent in a style: what the handler answers at the other end comes back, a declined message in the form in which it was sent and with its vote |
| Handlers.ResponsesFindTheirPeer | src/sacp/src/role.rs:152-176 | a response is offered to the handlers registered for the peer its request went to, in order and as it is, and to no others |
| Handlers.ReclosedIffCanonical | src/sacp/src/role.rs:226-258 | re-closing an opened envelope gives it back if and only if its parameters hold nothing but a message and a non-null `meta` |
| Handlers.DeclinedComesBack | src/sacp/src/role.rs:138-260 | a successor message with canonical parameters that a handler returns unchanged comes back unchanged |
| Handlers.ChainAppend | src/sacp/src/jsonrpc/handlers.rs:491-519 | chaining is associative: asking one chain and then another is asking their concatenation, with retry votes combined |
| Handlers.ChainReturnsOriginal | src/sacp/src/jsonrpc/handlers.rs:491-519 | a chain of handlers that all return what they got returns the original, and asks for a retry if and only if one of them did |
| Handlers.EncodedComesBack | src/sacp/src/role.rs:208-260 | an encoded successor message declined by any such chain comes back equal to the encoded original |
| CentralLoop.ConductorResponder.Run | src/sacp-conductor/src/conductor.rs:371-385 | the loop handles its mailbox in order and ends with it or with the first message it cannot handle |
| CentralLoop.ConductorResponder.HandleConductorMessage | src/sacp-conductor/src/conductor.rs:419-540 | new state, everything sent, and whether the loop goes on, ends or aborts, for each of the six kinds of message |
| CentralLoop.ConductorResponder.ForwardClientToAgentMessage | src/sacp-conductor/src/conductor.rs:637-668 | initialise first, then to the proxy, to the end of the chain, or abort |
| CentralLoop.ConductorResponder.Initialize | src/sacp-conductor/src/conductor.rs:1326-1394 | the first left-to-right message must be the handshake of the mode; everything else is answered with an error and ends the loop |
| CentralLoop.ConductorResponder.SpawnProxies | src/sacp-conductor/src/conductor.rs:712-752 | every proxy is spawned once, in order, under its index; one pass-through when tracing an empty chain |
| CentralLoopRuns.HandleConserves | src/sacp-conductor/src/conductor.rs:419-540 | a message that is handled is sent on, answered or delivered exactly once, with its responder or its waiter |
| CentralLoopRuns.RunConserves | src/sacp-conductor/src/conductor.rs:371-385 | over a run, responders, waiters and notifications leave in exactly the order in which they came |
| CentralLoopRuns.RunKeepsRoles | src/sacp-conductor/src/conductor.rs:850-904 | no run sends a plain `initialize` request to a proxy or a `_proxy/initialize` request to the agent |
| CentralLoopRuns.HandshakeComesFirst | src/sacp-conductor/src/conductor.rs:679-691 | in every run nothing reaches a component before an accepted handshake, which is the first left-to-right message and alone decides which proxies there are |
| CentralLoopRuns.RunSpawnsOnce | src/sacp-conductor/src/conductor.rs:712-771 | over a run the components spawned are exactly the proxies routed to, each once, at the index its handler reports |
| CentralLoopRuns.RunNeverAborts | src/sacp-conductor/src/conductor.rs:778-847 | with messages that the connection handlers can have sent, however late they are handled, no run aborts |
| CentralLoopEnds.RunEndsIff | src/sacp-conductor/src/conductor.rs:371-540 | a run ends with an error if and only if it comes to a left-to-right message that is refused entry, cannot be read, has servers that cannot be redirected, or is for a bridge that is not there |
| CentralLoopEnds.BridgesSpeakForTheAgent | src/sacp-conductor/src/conductor.rs:452-539 | what a bridge has to say leaves once, as `_mcp/connect`, `_mcp/message` or `_mcp/disconnect`, for where the agent's own messages go: enveloped to the last proxy, or to the client if there is none; and is awaited by the bridge, the caller or nobody |
| CentralLoopEnds.EachBridgeRuns | src/sacp-conductor/src/conductor.rs:493-501 | over a run each bridge is run as often as its connection is established, under that connection, in order |
| CentralLoopEnds.AgentGets | src/sacp-conductor/src/conductor.rs:883-965 | the agent is sent every message as it is, but a new session with its servers redirected, and no proxy's handshake |
| CentralLoopEnds.HandshakeGoesOn | src/sacp-conductor/src/conductor.rs:850-881 | the handshake that opens a conductor is passed on as one that opens its first proxy, if that is a conductor too, or else its agent or successor, and would not open the other kind |
| CentralLoopLinks.BridgesAreLive | src/sacp-conductor/src/conductor.rs:493-540 | the bridge map holds, for each connection, the bridge last established and not disconnected since |
| CentralLoopLinks.BridgedMessageArrives | src/sacp-conductor/src/conductor.rs:926-960 | an MCP message reaches the live bridge of its connection without its envelope and with its responder; for any other connection the loop ends |
| CentralLoopLinks.RoutesAsHandled | src/sacp-conductor/src/conductor.rs:637-668 | the routing move of the model of nested conductors is what the loop of a ready conductor, of either mode, does with that message |
| CentralLoopLinks.HandshakeAsRouted | src/sacp-conductor/src/conductor.rs:1326-1468 | the first message of a conductor of either mode, if it is the handshake, spawns the components and is then passed on with whatever parameters the instantiator returns, as the model's first move of a conductor does |
| McpListeners.McpBridgeListeners.TransformSession | src/sacp-conductor/src/conductor.rs:897-911 | the loop over a session's servers, up to the first that fails |
| McpListeners.SessionsAreRedirected | src/sacp-conductor/src/conductor/mcp_bridge.rs:60-170 | in every run of sessions each `acp:` server is replaced, in its place, by the one listener ever started for its URL, and every other server is as it was |
| McpListeners.AgentSeesNone | src/sacp-conductor/src/conductor/mcp_bridge.rs:60-97 | no session that reaches the agent has an `acp:` server |
| McpListeners.FailsIff | src/sacp-conductor/src/conductor/mcp_bridge.rs:70-80 | as long as ports can be had, a session fails if and only if one of its `acp:` servers has headers |
| ProxyTreeMoves.MoveRespects | src/sacp-conductor/src/conductor.rs:554-847 | every move inside a conductor, nested to any depth, changes what is in flight as one send or receive of one proxy does, or not at all |
| Chain.StepIsLinkStep | src/sacp-conductor/src/conductor.rs:1470-1557 | every step of a whole chain is a step of a row of plain first-in-first-out links, in each direction, up to the parameters of handshakes |
| ChainRuns.Ledger | src/sacp-conductor/src/conductor.rs:371-385 | in every run, what a neighbour sent is what the next one received followed by what is in flight |
| ChainRuns.ChainIsTransparent | src/sacp-conductor/src/conductor.rs:554-668 | if the proxies in between only forward, as far as some view of the messages shows, each place has received a prefix of what the first sent, in order, and no more than the place before it |
| ChainRuns.ChainDelivers | src/sacp-conductor/src/conductor.rs:554-668 | and all of it once nothing is in flight and the proxies have forwarded everything |
| HandshakeRuns.DefaultChainIsTransparent | src/sacp/src/role/acp.rs:183-237 | chains of proxies driven by the default handler are transparent in every run, seen through any view that hides what the handler may change |
| HandshakeRuns.TypedKept | src/sacp/src/role/acp.rs:200-219 | one such view is the message with new-session parameters in typed form, if reading and writing these twice is the same as once |
| DefaultChains.ForwardsIff | src/sacp/src/role/acp.rs:183-237 | whatever a proxy receives its default handler sends on in the same direction, the same but for parameters written anew; it fails if and only if that is a rightward `initialize` or `session/new` request that cannot be read |
| DefaultChains.NoDefaultFails | src/sacp/src/role/acp.rs:183-237 | if the client's new sessions can be read, and reading and writing twice is the same as once, no default handler fails in any run, whatever the instantiators do |
| DefaultChains.DefaultChainDelivers | src/sacp/src/role/acp.rs:183-237 | with nothing in flight and every proxy having answered what it received, each place has received, through such a view, all that the first sent, in both directions |
| HandshakeRuns.HandshakeInOrder | src/sacp-conductor/src/conductor.rs:850-904 | at every moment of such a run each proxy and the agent have received the client's one handshake first, no other, and only after the one before |
| HandshakeRuns.HandshakesReadable | src/sacp-conductor/src/conductor.rs:864-878 | whatever parameters the client, the proxies and the instantiators choose, each handshake that reaches a proxy can be read by it, if reading and writing parameters twice is the same as once |
| HandshakeRuns.HandshakeReachesAll | src/sacp-conductor/src/conductor.rs:850-904 | then, once nothing travels towards the agent and the proxies are at rest, each proxy and the agent have received exactly one handshake, before anything else |
| Flattening.Pass | src/sacp-conductor/src/conductor.rs:637-668 | a message in a mailbox can always move on to the next proxy in its direction, through conductors on the way, also empty ones, or out |
| Flattening.Leave | src/sacp-conductor/src/conductor.rs:778-847 | so can the oldest message a proxy has sent, out of and into conductors |
| RowChains.OpShown | src/sacp-conductor/src/conductor.rs:1421-1557 | whatever a row of places does, proxies in any nesting can do |
| FlatteningRuns.FlatStep | src/sacp-conductor/src/conductor.rs:371-385 | every step of one conductor and its proxies is a step of the row |
| FlatteningRuns.OneConductorIsARow | src/sacp-conductor/src/conductor.rs:371-385 | one conductor shows exactly the events that a row shows |
| FlatteningRuns.RunMimicked | src/sacp-conductor/src/conductor.rs:1421-1557 | a nesting follows any run of the flat chain, with corresponding states |
| FlatteningRuns.FlatRunsAreNestedRuns | src/sacp-conductor/src/conductor.rs:1421-1557 | whatever proxies show in one conductor they can show in any nesting, event for event across both directions |
| DirectionRuns.EachDirectionFlattens | src/sacp-conductor/src/conductor.rs:1421-1557 | what any run of any nesting shows in one direction, every other nesting of the same proxies, and one conductor, can show |
| NestingOrder.FlatNeverDoes | src/sacp-conductor/src/conductor.rs:554-668 | no run of one conductor shows certain five events of four neighbours, wherever these are and in either direction |
| NestingOrder.HarmfulShows | src/sacp-conductor/src/conductor.rs:1421-1557 | every nesting with a group that is not harmless shows them somewhere |
| OneProxyMoves.NodeMoves | src/sacp-conductor/src/conductor.rs:554-668 | every move of conductors around one proxy, with groups without proxies on one side at most, keeps the order of all that passes, except that messages from or to that side may fall behind |
| CoreMoves.EveryCoreMove | src/sacp-conductor/src/conductor.rs:554-668 | every move of the conductor that holds all proxies is one event, one message passing it, or nothing but such delays |
| HarmlessRows.Followed | src/sacp-conductor/src/conductor.rs:371-385 | a row can follow any of these changes, whatever turns out later to have been delayed |
| HarmlessRuns.RunFollowed | src/sacp-conductor/src/conductor.rs:1421-1557 | so it can follow every run of a chain whose groups are harmless |
| NestingExactly.KeepsOrderIff | src/sacp-conductor/src/conductor.rs:1421-1557 | every run of a nesting can be shown by one conductor, event for event across both directions, if and only if every group below the outermost holds one proxy, all proxies, or none and is at one end of the chain |
| ChainSafety.RunsStayInRange | src/sacp-conductor/src/conductor.rs:778-847 | in every reachable state of a chain every mailbox entry names a place that is there |
| ChainSafety.RouteNeverAborts | src/sacp-conductor/src/conductor.rs:637-668 | in such a state a conductor routes its oldest entry unless that is a handshake for a proxy whose parameters cannot be read |
| ChainSafety.BeginNeverAborts | src/sacp-conductor/src/conductor.rs:679-691 | a conductor without components begins if and only if its oldest entry is a handshake that can be read and so can what the instantiator makes of it, if there is a proxy to send it to |
| ChainSafety.NothingBeforeHandshake | src/sacp-conductor/src/conductor.rs:679-691 | in every run the components of a conductor have nothing and do nothing before its handshake, and nobody but the client does anything before that of the outermost |
| ChainSafety.OneHandshakeEach | src/sacp-conductor/src/conductor.rs:850-881 | in every run each conductor inside the chain is given one handshake at most, and before anything else |
| ChainSafety.AgentGetsInForm | src/sacp-conductor/src/conductor.rs:883-965 | in every run of a chain the agent receives only what leaves it in the form in which it came |
| ChainSafety.NothingIsStuck | src/sacp-conductor/src/conductor.rs:371-385 | after the handshake, while anything is in flight inside a conductor something can be delivered |
| HttpBridge.RunningServer.Run | src/sacp-conductor/src/conductor/mcp_bridge/http.rs:204-250 | every turn handles one input and drains the queue; ends with an error only if the server is gone |
| HttpBridge.RunningServer.HandleHttpMessage | src/sacp-conductor/src/conductor/mcp_bridge/http.rs:253-326 | forwards what is posted, registers the stream by id or as a general one, purges |
| HttpBridge.RunningServer.DrainJsonrpcMessages | src/sacp-conductor/src/conductor/mcp_bridge/http.rs:330-361 | sends queued messages until one finds no stream, and puts that one back in front |
| HttpBridge.RunningServer.TryDispatchJsonrpcMessage | src/sacp-conductor/src/conductor/mcp_bridge/http.rs:367-436 | the waiting stream first, then the first open one of the others |
| HttpBridgeRuns.RunKeepsLedger | src/sacp-conductor/src/conductor/mcp_bridge/http.rs:204-250 | in every run messages taken by streams followed by the queue are those the server sent, in order; the server gets what was posted, in order |
| HttpBridgeRuns.TakenIfAnyOpen | src/sacp-conductor/src/conductor/mcp_bridge/http.rs:367-436 | a message finds no taker if and only if every registered stream has closed by the last look of the attempt; otherwise exactly one registered stream takes it, open at that look |
| HttpBridgeRuns.GeneralStreamsFirst | src/sacp-conductor/src/conductor/mcp_bridge/http.rs:414-432 | what is not the reply a POST stream waits for goes to one only if every general stream has closed |
| HttpBridgeEnds.RunInOrder | src/sacp-conductor/src/conductor/mcp_bridge/http.rs:268-316 | in every run the general streams are those opened by GETs and by POSTs without an id, in order, but for some that have closed |
| HttpBridgeEnds.OldestFirst | src/sacp-conductor/src/conductor/mcp_bridge/http.rs:367-436 | a message that is no reply to a waiting stream goes to the oldest general stream that is open |
| HttpBridgeEnds.EndsIff | src/sacp-conductor/src/conductor/mcp_bridge/http.rs:257-304 | the bridge ends with an error if and only if a client posts a request, a notification or a response when the server has gone |
| HttpBridgeEnds.ClosedStreamsGo | src/sacp-conductor/src/conductor/mcp_bridge/http.rs:318-321 | after a client has been heard no stream is registered that had closed before, and none is new but the one it opened |
| HttpBridgeRuns.RunSettles | src/sacp-conductor/src/conductor/mcp_bridge/http.rs:330-361 | after every turn the queue is empty or every registered stream has closed |
| HttpBridgeRuns.ReplyReachesWaiter | src/sacp-conductor/src/conductor/mcp_bridge/http.rs:389-416 | a reply goes to the stream waiting on its id if and only if that stream is registered and still open |
| HttpBridgeRuns.ReplyIsLast | src/sacp-conductor/src/conductor/mcp_bridge/http.rs:367-436 | in every run a POST gets at most one reply to its own id and nothing after it, also with re-used ids, fallback deliveries and closures |
| HttpBridgeRuns.OpenStreamsStay | src/sacp-conductor/src/conductor/mcp_bridge/http.rs:440-445 | a turn drops a registered stream only if it has closed, has been answered, or another POST re-uses its id |
| DispatchLoop.IncomingProtocolActor.Run | src/sacp/src/jsonrpc/incoming_actor.rs:44-177 | the loop over the merged streams; ends with the first error |
| DispatchLoop.IncomingProtocolActor.HandleMessage | src/sacp/src/jsonrpc/incoming_actor.rs:66-175 | new state and outcomes for each kind of input |
| DispatchLoop.IncomingProtocolActor.RetryPending | src/sacp/src/jsonrpc/incoming_actor.rs:89-116 | offers what is pending to a new handler, in order, and keeps what it declines |
| DispatchLoop.IncomingProtocolActor.DispatchDispatch | src/sacp/src/jsonrpc/incoming_actor.rs:240-335 | asks the user's handlers, the dynamic ones and the default in turn; then queues, rejects or delivers |
| DispatchLoop.OutgoingProtocolActor | src/sacp/src/jsonrpc/outgoing_actor.rs:26-98 | what goes to the two channels, in order |
| DispatchLoopRuns.SubscribedBeforeSent | src/sacp/src/jsonrpc/outgoing_actor.rs:35-54 | each request sent is directly preceded by the subscription to its response |
| DispatchLoopWire.MessageArrives | src/sacp/src/jsonrpc/outgoing_actor.rs:35-57 | a request sent by one end is dispatched by the other as a request with its id, a notification as a notification, and only a request subscribes |
| DispatchLoopWire.ResponseArrives | src/sacp/src/jsonrpc/incoming_actor.rs:132-160 | a response sent by one end is dispatched by the other with exactly its result, success or error, on the route of the last subscription to its id, and delivered there if nobody claims or queues it |
| DispatchLoopWire.UnclaimedIsAnswered | src/sacp/src/jsonrpc/incoming_actor.rs:313-335 | there and back: the waiter of a request that nobody at the other end wants is delivered the error that there is no such method |
| DispatchLoopWire.ComplainsOfGarbage | src/sacp/src/jsonrpc/incoming_actor.rs:167-172 | in every run the loop complains of everything that could not be read, in order, and of nothing else |
| DispatchLoopWire.RegisteredAreAsked | src/sacp/src/jsonrpc/incoming_actor.rs:89-128 | after every run a dynamic handler is asked if and only if it has been added and not removed since |
| DispatchLoopWire.RunEndsIff | src/sacp/src/jsonrpc/incoming_actor.rs:66-335 | the loop ends if and only if a handler that is asked fails, or a response that nobody wants finds its waiter gone |
| DispatchLoopRuns.DispatchDecides | src/sacp/src/jsonrpc/incoming_actor.rs:240-335 | a message is queued if and only if nobody claims it and somebody votes to retry; the first to claim has it; otherwise it is rejected, or delivered if it is a response |
| DispatchLoopRuns.UserFirstDefaultLast | src/sacp/src/jsonrpc/incoming_actor.rs:240-335 | the user's handlers are asked before the dynamic ones and the default handler only when all others declined |
| DispatchLoopRuns.RunConserves | src/sacp/src/jsonrpc/incoming_actor.rs:66-335 | in every run each arrival has exactly one outcome or is pending exactly once, and what is pending is in order of arrival |
| DispatchLoopRuns.RunIsTrue | src/sacp/src/jsonrpc/incoming_actor.rs:66-335 | with handlers that return what they decline, each outcome is of the message that arrived |
| DispatchLoopRuns.ResponsesCorrelate | src/sacp/src/jsonrpc/incoming_actor.rs:132-160 | a dispatched response answers an earlier subscription under the same id, and none is answered twice |
| DispatchLoopRuns.AtMostOneResponse | src/sacp/src/jsonrpc/incoming_actor.rs:69-170 | no waiter is delivered two responses, for every interleaving |
| DispatchLoopRuns.ResponseReachesWaiter | src/sacp/src/jsonrpc/incoming_actor.rs:132-160 | a response whose subscription was dequeued before it and that nobody claims or queues is delivered if its waiter still listens and ends the loop otherwise; one that overtakes its subscription is dropped |
| DispatchLoopRuns.SessionInOrder | src/sacp/src/session.rs:725-770 | on a connection to an agent the one handler of a session sees exactly the session's messages in order of arrival, none lost or repeated across the retry queue |
| ElizaMatcher.MatchPatternRecursive | src/elizacp/src/eliza.rs:447-537 | the search returns the components of the first split found |
| ElizaMatcher.FoundIsSplit | src/elizacp/src/eliza.rs:447-537 | what is found splits the words into chunks admitted by their elements |
| ElizaMatcher.FoundIsFirst | src/elizacp/src/eliza.rs:447-537 | if there is any split one is found, and it is that split or comes before it |
| ElizaMatcher.MatchIsFirstSplit | src/elizacp/src/eliza.rs:443-537 | the answer is a split if and only if it is the first in the order wildcards shortest-first, ranges longest-first, leftmost element most significant |
| ElizaMatcher.CapitalsDoNotMatter | src/elizacp/src/eliza.rs:466-534 | words that are the same in lower case are split in the same ways |
| ElizaMatcher.SameSplits | src/elizacp/src/eliza.rs:464-535 | anywhere in a pattern a number may stand for the range of that number, a word or a tag for the choice of its words, a wildcard for an unlimited range |
| ElizaPieces.AnswerCutsBack | src/elizacp/src/eliza.rs:443-537 | there is an answer if and only if there is a split; it has one component for each element, and each component cut at its spaces is the words of that chunk of the first split |
| ElizaPieces.AnswerIsItsParts | src/elizacp/src/eliza.rs:540-561 | what is said is, one behind the other, what each element of the rule stands for |
| ElizaPieces.EchoSaysAllWords | src/elizacp/src/eliza.rs:209-561 | from the text of a rule, through the match, to the answer: `{1} {2} {3}` and so on says all words of the input again, in order |
| ElizaTemplate.Parse | src/elizacp/src/eliza.rs:209-278 | the character loops read a rule as specified, with every fallback to literal text |
| ElizaTemplate.DecimalReadsBack | src/elizacp/src/eliza.rs:259-260 | decimal digits of a number read back as that number |
| ElizaTemplate.TemplateRoundTrip | src/elizacp/src/eliza.rs:208-278 | printing any canonical element list and reading it returns the list |
| ElizaTemplate.ReadIsNormal | src/elizacp/src/eliza.rs:227-277 | whatever is read, no text is empty or next to another, and indices fit the machine |
| ElizaTemplate.BrokenIsText | src/elizacp/src/eliza.rs:240-254 | a brace with digits that is followed by anything else is text; a colon behind the digits is lost |
| ElizaTemplate.ReferenceOrNothing | src/elizacp/src/eliza.rs:233-271 | digits in braces refer to the component of that number; without digits or with too many nothing is left of them |
| ElizaTemplate.RuleIsRead | src/elizacp/src/eliza.rs:209-220 | a text is a goto if and only if it begins with an equals sign, and then to the rest in lower case; and it is the word to go on in any case of letters, or a template |
| ElizaEngine.Eliza.GetResponse | src/elizacp/src/eliza.rs:720-737 | the answer and the whole new state, for every script |
| ElizaEngine.Eliza.Process | src/elizacp/src/eliza.rs:749-799 | repairs, keyword stack, memory and fallbacks |
| ElizaEngine.Eliza.Apply | src/elizacp/src/eliza.rs:802-830 | follows links, never to a keyword visited before or beyond the tenth |
| ElizaEngine.Eliza.Transform | src/elizacp/src/eliza.rs:564-621 | the first transform that matches and leads on; the index of its rule is always in range |
| ElizaEngine.Eliza.TryCreateMemory | src/elizacp/src/eliza.rs:624-661 | makes at most one memory, in the queue's end |
| ElizaRuns.AnswersInTwoPhases | src/elizacp/src/eliza.rs:749-838 | every input is answered, applying no keyword twice within a phase and at most ten in each of the two phases, also with cyclic links and gotos |
| ElizaRuns.FirstTransformFires | src/elizacp/src/eliza.rs:564-621 | a rule fires if and only if the first transform that matches and leads on has rules, and then one of that transform |
| ElizaAnswers.KeywordLeads | src/elizacp/src/eliza.rs:564-621 | applying a keyword leads along links and gotos, each determined by the rules as they stood before, to the response of the last keyword, or to none where that gives none, leads back or is the eleventh |
| ElizaReplies.StackTries | src/elizacp/src/eliza.rs:788-798 | keywords are tried in turn, each leading on as if tried with the rules as they stood before, up to the first that responds |
| ElizaReplies.SaysWhatFollows | src/elizacp/src/eliza.rs:720-838 | what is said to any input: what its keywords lead to; without keywords the oldest memory on every fourth line, or else what the fallback keyword leads to |
| ElizaReplies.EachWordIsHeard | src/elizacp/src/eliza.rs:749-769 | every word of the input is matched in its place, in lower case or as its keyword repairs it |
| ElizaReplies.LeftmostOfHighest | src/elizacp/src/eliza.rs:754-772 | the keyword tried first is the leftmost word of those of the highest precedence that lead anywhere |
| ElizaReplies.MemoryIsMade | src/elizacp/src/eliza.rs:624-661 | a line with keywords leaves the memory that the transform picked by its last word makes of it, if that matches; a line without leaves none |
| ElizaReplies.RecallsIff | src/elizacp/src/eliza.rs:720-786 | the oldest memory is recalled, and said, if and only if the line is the fourth, has words but no keywords, and there is one |
| ElizaRuns.ConversationRotates | src/elizacp/src/eliza.rs:594-600 | over any conversation the j-th firing of a transform uses rule (start + j) mod len, and the stored index is the next |
| ElizaRuns.RoundsAreFair | src/elizacp/src/eliza.rs:594-600 | any len consecutive firings use each rule exactly once, however other keywords interleave |
| ElizaRuns.ConversationKeepsMemories | src/elizacp/src/eliza.rs:774-786 | memories are recalled in the order they were made, each at most once, none lost |
| ElizaRuns.RespondKeepsMemories | src/elizacp/src/eliza.rs:774-781 | one is recalled only as the answer to a fourth input without keywords |
| ElizaRuns.SortIsStable | src/elizacp/src/eliza.rs:771-772 | keywords are tried by falling precedence, equal ones in the order of the text |
| TaskLoop.ProcessStreamConcurrently | src/sacp/src/util.rs:124-185 | the three phases of the loop, for any order of events |
| TaskLoop.EachTaskOnce | src/sacp/src/util.rs:124-185 | under every schedule each task started is running or completed, once |
| TaskLoop.LoopIsRight | src/sacp/src/util.rs:124-185 | `Ok` if and only if the stream has ended and every task succeeded; an error if and only if a task failed, and then the first failure seen; until then a task for every item, in order |
| LogFraming.DebugLogWriter.Write | src/sacp-conductor/src/debug_logger.rs:148-159 | emits the complete lines and keeps the rest |
| LogFraming.CutAnywhere | src/sacp-conductor/src/debug_logger.rs:148-159 | writing in two pieces emits the same lines and leaves the same buffer as writing in one |
| LogFraming.ChunksDoNotMatter | src/sacp-conductor/src/debug_logger.rs:148-159 | any number of writes emits the lines of the concatenated bytes |
| LogFraming.NothingIsLost | src/sacp-conductor/src/debug_logger.rs:147-168 | with any writes and flushes, emitted lines and buffer are all bytes written, and newlines are at the ends of lines only |
| LogFraming.FlushEmits | src/sacp-conductor/src/debug_logger.rs:160-168 | after a flush all bytes written are in the lines, an unfinished line as the last and no empty one |

## Where code and documentation differ

The model follows the code.

- The loop does not wait for callbacks on responses, as src/sacp/src/concepts/ordering.rs:107-109 says: a response is
  delivered through the waiter's channel and the loop goes on (src/sacp/src/jsonrpc.rs:2073-2095).
- A response whose waiter has dropped its end of the channel ends the dispatch loop with an error
  (src/sacp/src/jsonrpc.rs:2080-2092); `ResponseReachesWaiter` states it.
- Subscriptions and transport messages are merged from separate queues, so a response can in principle be dequeued
  before its subscription; it is then dropped. `SubscribedBeforeSent` and `ResponseReachesWaiter` give the two halves.
- An explicit null `meta` of an envelope reads back as absent, so envelopes are lossless exactly when there is none.
- An empty reference `{}` and a reference whose digits overflow vanish from a template, and the colon of a broken
  reference is dropped; `ElizaTemplate.Read` has all three.

## Left out

- Sockets, processes, SSE framing, timers, JSON text and the shapes of typed messages: parameters are JSON trees, and the typed forms of `initialize` and `session/new` are arbitrary functions from trees to trees that may fail.
- Channels never fail to accept a message, except where a failure is part of the model: closed HTTP streams, the bridge's server, and waiters that no longer listen. The bound of the conductor's mailbox (src/sacp-conductor/src/conductor.rs:224) only delays senders.
- `ProxyTree` leaves responses out: in the source they pass through the mailbox as other messages do and are then delivered to whoever forwarded the request; `CentralLoop` has them.
- Chain.StepIsLinkStep: messages that leave the chain in another form, bridged MCP messages and sessions redirected to local bridges, are not sent by the model's last conductor; `CentralLoop` has them.
- Chain.StepIsLinkStep: messages whose own method is `_proxy/successor` or `_proxy/initialize`, a second handshake with a nested conductor, and any use of a nested conductor before its handshake are not possible in `ProxyTree`.
- HandshakeRuns.HandshakeReachesAll: says what has happened when the chain is at rest, not that it comes to rest.
- FlatteningRuns.FlatRunsAreNestedRuns: starts after the handshakes and excludes further ones, as do the other results about nestings.
- NestingExactly.KeepsOrderIff: is about runs whose messages leave the chain, should they leave it, in the form in which they came; others are not sent by the model's last conductor.
- CentralLoopEnds.AgentGets: the redirection of a session's servers is an arbitrary function there; what it does to a list of servers is `McpListeners`.
- CentralLoop.ConductorResponder.Initialize: tracing is the one flag that decides on the pass-through proxy; trace events and component names are not modelled.
- HttpBridge.RunningServer.Run: purging looks at all waiting streams at one instant; a stream that closes during it counts as closing before or after.
- DispatchLoopRuns.SessionInOrder: the handler's queue stays open and nobody removes the handler; handing a session over to another handler is not modelled.
- DispatchLoopRuns.RunIsTrue: handlers that replace a message they decline are covered by `RunConserves` only.
- ElizaEngine.Eliza.GetResponse: inputs are already split into words; `lower`, `reflect` and the byte sum of a word are arbitrary functions; loading scripts is left out.
- ElizaPieces.AnswerCutsBack: for words that are not empty and hold no space, as the input is cut; a script may repair a word to one that does.
- ElizaTemplate.Parse: white space and lower case are arbitrary functions of characters and strings.
- TaskLoop.ProcessStreamConcurrently: tasks are their completions; what they do meanwhile is not modelled.
- LogFraming.DebugLogWriter.Write: each line is written to the file by a task of its own, whose order is not promised.
- The retry flag of `MatchDispatchFrom`, which a later arm overwrites, the typed request and notification handlers, and the automatic session proxying of default proxies.
- Trace de-duplication, tool sets, the command line, the TUI, examples and macros.
