// Shared vocabulary: JSON values, untyped JSON-RPC messages and dispatches.

module Outcomes {
  datatype Option<+T> = None | Some(value: T)

  datatype Result<+T, +E> = Ok(value: T) | Err(error: E)
}

module Messages {
  import opened Outcomes

  /** A JSON value. Objects are maps: the order of keys does not matter to any code modelled here. */
  datatype Json =
    | JNull
    | JBool(b: bool)
    | JNumber(n: int)
    | JString(s: string)
    | JArray(items: seq<Json>)
    | JObject(fields: map<string, Json>)

  /** A message before it has been given a type: a method name and its parameters. */
  datatype Untyped = Untyped(name: string, params: Json)

  /** The logical endpoint a message is exchanged with. */
  datatype Role = Client | Agent | Proxy | Conductor

  /** What a handler sees: a request with the token of its responder, a notification, or the
      response to an earlier request together with the route back to whoever awaits it. */
  datatype Dispatch =
    | Request(body: Untyped, responder: nat)
    | Notification(body: Untyped)
    | Response(result: Result<Json, Error>, route: ResponseRoute)
  {
    function Name(): string {
      if Response? then route.name else body.name
    }
  }

  /** Where a response goes: the request's method and id, the peer it was sent to, and the waiter. */
  datatype ResponseRoute = ResponseRoute(name: string, id: nat, role: Role, waiter: nat)

  datatype Error = MethodNotFound | ParseError | InvalidRequest | InternalError

  /** `Claimed` is the source's `Handled::Yes`, `Declined` its `Handled::No`. */
  datatype Handled = Claimed | Declined(message: Dispatch, retry: bool)

  type HandleResult = Result<Handled, Error>
}
