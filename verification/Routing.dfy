// The conductor's routing decisions.

module Routing {
  import opened Outcomes
  import opened Messages
  import opened Envelope

  const METHOD_INITIALIZE := "initialize"
  const METHOD_INITIALIZE_PROXY := "_proxy/initialize"
  const METHOD_NEW_SESSION := "session/new"
  const METHOD_MCP_CONNECT := "_mcp/connect"
  const METHOD_MCP_DISCONNECT := "_mcp/disconnect"

  /** A request or notification on its way through the chain. */
  datatype Msg = Msg(isRequest: bool, body: Untyped)

  /** Typed parameters, as a parse followed by a re-encode; `redirect` points the `acp:` servers of a
      new session at local bridges. `None` means failure. */
  datatype Schema = Schema(
    initialize: Json -> Option<Json>,
    newSession: Json -> Option<Json>,
    redirect: Json -> Option<Json>)
  {
    function NewSessionForAgent(params: Json): Option<Json> {
      match newSession(params) case None => None case Some(p) => redirect(p)
    }
  }

  /** What becomes of a message at one hop. */
  datatype Form =
    | Forward(m: Msg)                      // sent on, possibly changed
    | Refuse                               // a request answered with an error
    | ToMcp(connection: string, m: Msg)    // handed to an MCP bridge
    | Broken                               // the handler fails and with it the conductor

  predicate IsCall(m: Msg, name: string) { m.isRequest && m.body.name == name }

  /** The form in which a left-to-right message is sent to a proxy. */
  function ProxyForm(schema: Schema, m: Msg): Form {
    if IsCall(m, METHOD_INITIALIZE_PROXY) then
      if schema.initialize(m.body.params).None? then Broken else Refuse
    else if IsCall(m, METHOD_INITIALIZE) then
      match schema.initialize(m.body.params)
      case None => Broken
      case Some(params) => Forward(Msg(true, Untyped(METHOD_INITIALIZE_PROXY, params)))
    else
      Forward(m)
  }

  /** The form in which a left-to-right message is sent to the agent at the end of the chain. */
  function AgentForm(schema: Schema, m: Msg): Form {
    if IsCall(m, METHOD_INITIALIZE_PROXY) then
      if schema.initialize(m.body.params).None? then Broken else Refuse
    else if IsCall(m, METHOD_NEW_SESSION) then
      match schema.NewSessionForAgent(m.body.params)
      case None => Broken
      case Some(params) => Forward(Msg(true, Untyped(METHOD_NEW_SESSION, params)))
    else if m.body.name == METHOD_MCP then
      match (OpenConnection(m.body.params), OpenBody(m.body.params))
      case (Some(connection), Some(layer)) => ToMcp(connection, Msg(m.isRequest, layer.message))
      case _ => Broken
    else
      Forward(m)
  }

  function Wrap(m: Msg): Msg { Msg(m.isRequest, EncodeSuccessor(m.body, None)) }

  predicate IsWrapped(m: Msg) { m.body.name == METHOD_SUCCESSOR }

  function Unwrap(m: Msg): (r: Option<Msg>)
    ensures IsWrapped(m) && r.Some? ==> r.value.isRequest == m.isRequest
  {
    match OpenBody(m.body.params) case None => None case Some(layer) => Some(Msg(m.isRequest, layer.message))
  }

  lemma UnwrapWrap(m: Msg)
    ensures IsWrapped(Wrap(m)) && Unwrap(Wrap(m)) == Some(m)
  {
  }

  /** What a proxy without handlers of its own sends when its conductor sends it `w`. */
  function DefaultProxy(schema: Schema, w: Msg): Form {
    if IsWrapped(w) then
      match Unwrap(w) case None => Broken case Some(m) => Forward(m)
    else if IsCall(w, METHOD_INITIALIZE) then
      if schema.initialize(w.body.params).None? then Broken else Refuse
    else if IsCall(w, METHOD_INITIALIZE_PROXY) then
      match schema.initialize(w.body.params)
      case None => Broken
      case Some(params) => Forward(Wrap(Msg(true, Untyped(METHOD_INITIALIZE, params))))
    else if IsCall(w, METHOD_NEW_SESSION) then
      match schema.newSession(w.body.params)
      case None => Broken
      case Some(params) => Forward(Wrap(Msg(true, Untyped(METHOD_NEW_SESSION, params))))
    else
      Forward(Wrap(w))
  }
}
