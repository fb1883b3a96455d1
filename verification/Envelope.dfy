// The `_proxy/successor` and `_mcp/message` envelopes, how a connection opens and closes them
// around its handlers, and how the trace viewer looks through them.

module Envelope {
  import opened Outcomes
  import opened Messages

  const METHOD_SUCCESSOR := "_proxy/successor"
  const METHOD_MCP := "_mcp/message"

  // ---- One layer ----------------------------------------------------------------------------

  datatype Opened = Opened(message: Untyped, meta: Option<Json>)

  function BodyFields(message: Untyped, meta: Option<Json>): map<string, Json> {
    var fields := map["method" := JString(message.name), "params" := message.params];
    if meta.Some? then fields["meta" := meta.value] else fields
  }

  function EncodeSuccessor(message: Untyped, meta: Option<Json>): Untyped {
    Untyped(METHOD_SUCCESSOR, JObject(BodyFields(message, meta)))
  }

  function EncodeMcp(connection: string, message: Untyped, meta: Option<Json>): Untyped {
    Untyped(METHOD_MCP, JObject(BodyFields(message, meta)["connectionId" := JString(connection)]))
  }

  /** Reads the flattened message and the optional `meta` back. A present but null `meta` reads as absent. */
  function OpenBody(params: Json): (r: Option<Opened>)
    ensures r.Some? ==> r.value.message.params < params
    ensures r.Some? ==> r.value.meta != Some(JNull)
  {
    match params
    case JObject(fields) =>
      if "method" in fields && fields["method"].JString? && "params" in fields then
        var meta := if "meta" in fields && fields["meta"] != JNull then Some(fields["meta"]) else None;
        Some(Opened(Untyped(fields["method"].s, fields["params"]), meta))
      else
        None
    case _ => None
  }

  /** The connection id of an MCP envelope; reading one needs both the id and the message. */
  function OpenConnection(params: Json): Option<string> {
    match params
    case JObject(fields) =>
      if "connectionId" in fields && fields["connectionId"].JString? then Some(fields["connectionId"].s) else None
    case _ => None
  }

  lemma OpenSuccessor(message: Untyped, meta: Option<Json>)
    ensures OpenBody(EncodeSuccessor(message, meta).params)
         == Some(Opened(message, if meta == Some(JNull) then None else meta))
  {
  }

  lemma OpenMcp(connection: string, message: Untyped, meta: Option<Json>)
    ensures var params := EncodeMcp(connection, message, meta).params;
      && OpenConnection(params) == Some(connection)
      && OpenBody(params) == Some(Opened(message, if meta == Some(JNull) then None else meta))
  {
  }

  // ---- Any number of layers -----------------------------------------------------------------

  datatype Nested =
    | Core(body: Untyped)
    | Successor(inner: Nested, meta: Option<Json>)
    | Mcp(connection: string, inner: Nested, meta: Option<Json>)

  /** The type a message is parsed as: `SuccessorMessage<McpOverAcpMessage<..>>` and so on. */
  datatype Shape = AnyMessage | SuccessorOf(of: Shape) | McpOf(of: Shape)

  function Encode(e: Nested): Untyped {
    match e
    case Core(body) => body
    case Successor(inner, meta) => EncodeSuccessor(Encode(inner), meta)
    case Mcp(connection, inner, meta) => EncodeMcp(connection, Encode(inner), meta)
  }

  predicate MatchesMethod(shape: Shape, name: string) {
    match shape
    case AnyMessage => true
    case SuccessorOf(_) => name == METHOD_SUCCESSOR
    case McpOf(_) => name == METHOD_MCP
  }

  function Parse(shape: Shape, u: Untyped): Result<Nested, Error> {
    if !MatchesMethod(shape, u.name) then Err(MethodNotFound) else
    match shape
    case AnyMessage => Ok(Core(u))
    case SuccessorOf(of) =>
      (match OpenBody(u.params)
       case None => Err(ParseError)
       case Some(layer) =>
         match Parse(of, layer.message)
         case Err(e) => Err(e)
         case Ok(inner) => Ok(Successor(inner, layer.meta)))
    case McpOf(of) =>
      (match (OpenConnection(u.params), OpenBody(u.params))
       case (Some(connection), Some(layer)) =>
         (match Parse(of, layer.message)
          case Err(e) => Err(e)
          case Ok(inner) => Ok(Mcp(connection, inner, layer.meta)))
       case _ => Err(ParseError))
  }

  function ShapeOf(e: Nested): Shape {
    match e
    case Core(_) => AnyMessage
    case Successor(inner, _) => SuccessorOf(ShapeOf(inner))
    case Mcp(_, inner, _) => McpOf(ShapeOf(inner))
  }

  /** No layer carries an explicit null as its `meta`. */
  predicate NoNullMeta(e: Nested) {
    match e
    case Core(_) => true
    case Successor(inner, meta) => meta != Some(JNull) && NoNullMeta(inner)
    case Mcp(_, inner, meta) => meta != Some(JNull) && NoNullMeta(inner)
  }

  /** The same layers with every explicit null `meta` left out. */
  function DropNullMeta(e: Nested): Nested {
    match e
    case Core(_) => e
    case Successor(inner, meta) => Successor(DropNullMeta(inner), if meta == Some(JNull) then None else meta)
    case Mcp(c, inner, meta) => Mcp(c, DropNullMeta(inner), if meta == Some(JNull) then None else meta)
  }

  /** Decoding recovers every layer, for any nesting depth, up to explicit null metas. */
  lemma {:induction false} ParseRecovers(e: Nested)
    ensures Parse(ShapeOf(e), Encode(e)) == Ok(DropNullMeta(e))
  {
    match e
    case Core(_) =>
    case Successor(inner, meta) =>
      ParseRecovers(inner);
      OpenSuccessor(Encode(inner), meta);
    case Mcp(connection, inner, meta) =>
      ParseRecovers(inner);
      OpenMcp(connection, Encode(inner), meta);
  }

  lemma {:induction false} DropNullMetaFixed(e: Nested)
    ensures DropNullMeta(e) == e <==> NoNullMeta(e)
  {
    match e
    case Core(_) =>
    case Successor(inner, _) => DropNullMetaFixed(inner);
    case Mcp(_, inner, _) => DropNullMetaFixed(inner);
  }

  /** Decoding inverts encoding exactly when no layer carries an explicit null as its `meta`. */
  lemma RoundTrip(e: Nested)
    ensures Parse(ShapeOf(e), Encode(e)) == Ok(e) <==> NoNullMeta(e)
  {
    ParseRecovers(e);
    DropNullMetaFixed(e);
  }

  /** Some message, behind layers that open, is not named as its layer must be. */
  predicate Misnamed(shape: Shape, u: Untyped) {
    match shape
    case AnyMessage => false
    case SuccessorOf(of) => u.name != "_proxy/successor" || (OpenBody(u.params).Some? && Misnamed(of, OpenBody(u.params).value.message))
    case McpOf(of) =>
      u.name != "_mcp/message"
      || (OpenBody(u.params).Some? && OpenConnection(u.params).Some? && Misnamed(of, OpenBody(u.params).value.message))
  }

  /** Some layer, behind others that open, is named as it must be but does not open. */
  predicate Malformed(shape: Shape, u: Untyped) {
    match shape
    case AnyMessage => false
    case SuccessorOf(of) =>
      u.name == "_proxy/successor" && (OpenBody(u.params).None? || Malformed(of, OpenBody(u.params).value.message))
    case McpOf(of) =>
      u.name == "_mcp/message"
      && (OpenBody(u.params).None? || OpenConnection(u.params).None? || Malformed(of, OpenBody(u.params).value.message))
  }

  /** A message that does not parse is one of another method or a malformed one, never both; and if it does parse, the
      layers have the shape asked for. */
  lemma {:induction false} ParseFailsIff(shape: Shape, u: Untyped)
    ensures Parse(shape, u) == Err(MethodNotFound) <==> Misnamed(shape, u)
    ensures Parse(shape, u) == Err(ParseError) <==> Malformed(shape, u)
    ensures Parse(shape, u).Err? || ShapeOf(Parse(shape, u).value) == shape
    decreases shape
  {
    if MatchesMethod(shape, u.name) && !shape.AnyMessage? && OpenBody(u.params).Some? {
      ParseFailsIff(shape.of, OpenBody(u.params).value.message);
    }
  }

  // ---- Looking through envelopes for tracing -------------------------------------------------

  datatype Protocol = AcpTraffic | McpTraffic

  datatype MessageInfo = MessageInfo(successor: bool, protocol: Protocol, message: Untyped)

  predicate OpensAsSuccessor(u: Untyped) {
    u.name == METHOD_SUCCESSOR && OpenBody(u.params).Some?
  }

  predicate OpensAsMcp(u: Untyped) {
    u.name == METHOD_MCP && OpenConnection(u.params).Some? && OpenBody(u.params).Some?
  }

  predicate Bare(u: Untyped) {
    !OpensAsSuccessor(u) && !OpensAsMcp(u)
  }

  /** Peels layers until none opens any more; the message it reports is always bare. */
  function FromUntyped(successor: bool, protocol: Protocol, u: Untyped): (info: MessageInfo)
    ensures Bare(info.message)
    decreases u.params
  {
    if OpensAsSuccessor(u) then
      FromUntyped(true, protocol, OpenBody(u.params).value.message)
    else if OpensAsMcp(u) then
      FromUntyped(successor, McpTraffic, OpenBody(u.params).value.message)
    else
      MessageInfo(successor, protocol, u)
  }

  function Innermost(e: Nested): Untyped {
    match e case Core(body) => body case Successor(inner, _) => Innermost(inner) case Mcp(_, inner, _) => Innermost(inner)
  }

  predicate HasSuccessor(e: Nested) {
    match e case Core(_) => false case Successor(_, _) => true case Mcp(_, inner, _) => HasSuccessor(inner)
  }

  predicate HasMcp(e: Nested) {
    match e case Core(_) => false case Successor(inner, _) => HasMcp(inner) case Mcp(_, _, _) => true
  }

  /** Tracing finds the innermost message and flags exactly the kinds of envelope passed on the way. */
  lemma {:induction false} FromUntypedRecovers(e: Nested, successor: bool, protocol: Protocol)
    requires Bare(Innermost(e))
    ensures FromUntyped(successor, protocol, Encode(e))
         == MessageInfo(successor || HasSuccessor(e), if HasMcp(e) then McpTraffic else protocol, Innermost(e))
  {
    match e
    case Core(_) =>
    case Successor(inner, meta) =>
      OpenSuccessor(Encode(inner), meta);
      FromUntypedRecovers(inner, true, protocol);
    case Mcp(connection, inner, meta) =>
      OpenMcp(connection, Encode(inner), meta);
      assert !OpensAsSuccessor(Encode(e));
      FromUntypedRecovers(inner, successor, McpTraffic);
  }
}
