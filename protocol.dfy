/** What travels between the client and the daemon: the positional parameter
    values, the JSON-RPC request `{method, params, id}` posted to the endpoint,
    the HTTP reply, and the failures a call can end in. */
module Protocol {
  import opened Results

  /** A parameter value as it is serialised; `Null` is kept in place, never dropped. */
  datatype Value = Null | Str(str: string) | Int(num: int) | Bool(flag: bool) | List(items: seq<Value>)

  /** The JSON-RPC object the client serialises for one call. */
  datatype Payload = Payload(rpcMethod: string, params: seq<Value>, id: Option<string>)

  /** One POST: the endpoint it goes to and its body. */
  datatype Request = Request(uri: string, payload: Payload)

  /** The HTTP reply. `body` is the raw text; `errorMessage` is what decoding that
      text as JSON yields at `error.message`, or `None` when it is not there. */
  datatype Reply = Reply(status: int, body: string, errorMessage: Option<string>)

  /** A method name and its positional parameters, what a wrapper hands to the dispatcher. */
  datatype Call = Call(rpcMethod: string, params: seq<Value>)

  /** Everything a call can end in instead of a body. */
  datatype RpcError =
    | InvalidArgument(message: string)   // a parameter outside its allow-list; raised before any request
    | InvalidCredentials                 // HTTP 401
    | ResourceNotFound                   // HTTP 404
    | ServerError(message: string)       // HTTP 500, carrying the daemon's `error.message`
    | UndecodableServerError             // HTTP 500 whose body has no `error.message`
    | UnmappedStatus(status: int)        // any other status: the translator has no case for it
    | MissingReturnValue                 // a wrapper that returns nothing although it promises a string

  const HTTP_OK := 200
  const HTTP_UNAUTHORIZED := 401
  const HTTP_NOT_FOUND := 404
  const HTTP_SERVER_ERROR := 500

  function OrNull(v: Option<string>): Value {
    match v
    case None => Null
    case Some(s) => Str(s)
  }

  function IntOrNull(v: Option<int>): Value {
    match v
    case None => Null
    case Some(n) => Int(n)
  }

  /** The failure a reply is translated into. 401 and 404 never look at the body;
      500 carries the decoded message; every other status matches no case. */
  function ConvertResponseToException(reply: Reply): (e: RpcError)
    ensures e.InvalidCredentials? <==> reply.status == HTTP_UNAUTHORIZED
    ensures e.ResourceNotFound? <==> reply.status == HTTP_NOT_FOUND
    ensures e.ServerError? <==> reply.status == HTTP_SERVER_ERROR && reply.errorMessage.Some?
    ensures e.ServerError? ==> e.message == reply.errorMessage.value
    ensures e.UndecodableServerError? <==> reply.status == HTTP_SERVER_ERROR && reply.errorMessage.None?
    ensures e.UnmappedStatus? <==> reply.status !in {HTTP_UNAUTHORIZED, HTTP_NOT_FOUND, HTTP_SERVER_ERROR}
    ensures e.UnmappedStatus? ==> e.status == reply.status
    ensures !e.InvalidArgument? && !e.MissingReturnValue?
  {
    match reply.status
    case 500 =>
      (match reply.errorMessage
       case Some(message) => ServerError(message)
       case None => UndecodableServerError)
    case 401 => InvalidCredentials
    case 404 => ResourceNotFound
    case _ => UnmappedStatus(reply.status)
  }

  /** The status a translated failure came from, when the failure tells it. */
  function StatusOf(e: RpcError): Option<int> {
    match e
    case InvalidCredentials => Some(HTTP_UNAUTHORIZED)
    case ResourceNotFound => Some(HTTP_NOT_FOUND)
    case ServerError(_) => Some(HTTP_SERVER_ERROR)
    case UndecodableServerError => Some(HTTP_SERVER_ERROR)
    case UnmappedStatus(status) => Some(status)
    case _ => None
  }

  /** Translation loses no status: the status can always be read back from the failure. */
  lemma TranslationKeepsStatus(reply: Reply)
    ensures StatusOf(ConvertResponseToException(reply)) == Some(reply.status)
  {
  }

  /** Only a 500 reply has its body looked at: two replies with the same other
      status translate to the same failure whatever their bodies. */
  lemma TranslationIgnoresBodyUnless500(a: Reply, b: Reply)
    requires a.status == b.status && a.status != HTTP_SERVER_ERROR
    ensures ConvertResponseToException(a) == ConvertResponseToException(b)
  {
  }

  /** What a caller of the dispatcher sees for a reply: the raw body, unchanged,
      exactly when the status is 200, and otherwise the translated failure. */
  function Outcome(reply: Reply): (r: Result<string, RpcError>)
    ensures r.Success? <==> reply.status == HTTP_OK
    ensures r.Success? ==> r.value == reply.body
    ensures r.Failure? ==> StatusOf(r.error) == Some(reply.status)
  {
    if reply.status != HTTP_OK then Failure(ConvertResponseToException(reply)) else Success(reply.body)
  }

  /** The daemon reply exercised by the test suite: status 500 with
      `{"error":{"code":-5,"message":"Server message"}}` as body. */
  lemma ServerMessageIsCarried(body: string)
    ensures Outcome(Reply(500, body, Some("Server message"))) == Failure(ServerError("Server message"))
  {
  }
}
