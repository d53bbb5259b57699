/** The client's observable state as a value, and what one call does to it.
    The state is the pending request id (the one-shot correlation slot) and the
    requests handed to the transport so far. The transport is a `Server`: the
    reply it gives to the n-th request. `RpcClient` in module Client is proved
    against these functions. */
module Session {
  import opened Results
  import opened Protocol

  datatype State = State(requestId: Option<string>, sent: seq<Request>)

  /** The reply the transport returns for the request sent at a given position. */
  type Server = (nat, Request) -> Reply

  /** The request a call produces: method, parameters and the pending id, posted to the endpoint. */
  function RequestFor(endpoint: string, s: State, call: Call): Request {
    Request(endpoint, Payload(call.rpcMethod, call.params, s.requestId))
  }

  /** The reply the server gives to the call made in state `s`. */
  function ReplyTo(server: Server, endpoint: string, s: State, call: Call): Reply {
    server(|s.sent|, RequestFor(endpoint, s, call))
  }

  /** Setting the request id changes the id and nothing else. */
  function WithRequestId(s: State, id: string): (next: State)
    ensures next.requestId == Some(id) && next.sent == s.sent
  {
    s.(requestId := Some(id))
  }

  /** One call through the dispatcher: send the stamped request, then clear
      the id on status 200 and keep it otherwise. */
  function Dispatch(server: Server, endpoint: string, s: State, call: Call): (out: (State, Result<string, RpcError>))
    ensures |out.0.sent| == |s.sent| + 1 && out.0.sent[..|s.sent|] == s.sent
    ensures out.0.sent[|s.sent|] == RequestFor(endpoint, s, call)
    ensures out.1.Success? <==> ReplyTo(server, endpoint, s, call).status == HTTP_OK
    ensures out.1.Success? ==> out.0.requestId == None
    ensures out.1.Failure? ==> out.0.requestId == s.requestId
  {
    var request := RequestFor(endpoint, s, call);
    var reply := server(|s.sent|, request);
    var next := State(if reply.status == HTTP_OK then None else s.requestId, s.sent + [request]);
    (next, Outcome(reply))
  }

  /** A wrapper whose parameters were checked first: a rejected plan returns
      its failure and leaves the state alone; an accepted one is dispatched. */
  function Perform(server: Server, endpoint: string, s: State, plan: Result<Call, RpcError>): (out: (State, Result<string, RpcError>))
    ensures plan.Failure? ==> out.0 == s && out.1 == Failure(plan.error)
    ensures plan.Success? ==> |out.0.sent| == |s.sent| + 1 && out.0.sent[..|s.sent|] == s.sent
    ensures plan.Success? ==> out.0.sent[|s.sent|] == RequestFor(endpoint, s, plan.value)
  {
    match plan
    case Failure(e) => (s, Failure(e))
    case Success(call) => Dispatch(server, endpoint, s, call)
  }

  /** Every dispatch hands exactly one request to the transport, appended to
      the earlier ones, carrying the method, the parameters as given (nulls
      included) and the id pending before the call. */
  lemma DispatchSendsOneRequest(server: Server, endpoint: string, s: State, call: Call)
    ensures var next := Dispatch(server, endpoint, s, call).0;
      |next.sent| == |s.sent| + 1 && next.sent[..|s.sent|] == s.sent &&
      next.sent[|s.sent|] == Request(endpoint, Payload(call.rpcMethod, call.params, s.requestId))
  {
  }

  /** On status 200 the call returns the body verbatim and clears the id;
      on any other status it fails with the translated error and keeps the id. */
  lemma DispatchOutcome(server: Server, endpoint: string, s: State, call: Call)
    ensures var reply := ReplyTo(server, endpoint, s, call);
      var (next, r) := Dispatch(server, endpoint, s, call);
      (r.Success? <==> reply.status == HTTP_OK) &&
      (reply.status == HTTP_OK ==> r.value == reply.body && next.requestId == None) &&
      (reply.status != HTTP_OK ==> r.error == ConvertResponseToException(reply) && next.requestId == s.requestId)
  {
  }

  /** A rejected plan never reaches the transport and changes nothing. */
  lemma RejectedPlanSendsNothing(server: Server, endpoint: string, s: State, e: RpcError)
    ensures Perform(server, endpoint, s, Failure(e)) == (s, Failure(e))
  {
  }

  /** The id is one-shot: set before a call that succeeds, it is stamped on
      that request, and the call after it carries no id. */
  lemma RequestIdIsOneShot(server: Server, endpoint: string, s: State, id: string, first: Call, second: Call)
    requires ReplyTo(server, endpoint, WithRequestId(s, id), first).status == HTTP_OK
    ensures var s1 := Dispatch(server, endpoint, WithRequestId(s, id), first).0;
      var s2 := Dispatch(server, endpoint, s1, second).0;
      s2.sent[|s.sent|].payload.id == Some(id) && s2.sent[|s.sent| + 1].payload.id == None
  {
  }

  /** A failed call keeps the id, so retrying the call sends the same request again. */
  lemma RetryAfterFailureResendsRequest(server: Server, endpoint: string, s: State, call: Call)
    requires ReplyTo(server, endpoint, s, call).status != HTTP_OK
    ensures var s1 := Dispatch(server, endpoint, s, call).0;
      var s2 := Dispatch(server, endpoint, s1, call).0;
      s2.sent[|s.sent| + 1] == s2.sent[|s.sent|]
  {
  }

  /** Several wrapper calls in a row, each in the state the previous one left. */
  function Run(server: Server, endpoint: string, s: State, plans: seq<Result<Call, RpcError>>): (State, seq<Result<string, RpcError>>)
    decreases |plans|
  {
    if plans == [] then (s, [])
    else
      var (s1, r) := Perform(server, endpoint, s, plans[0]);
      var (last, rs) := Run(server, endpoint, s1, plans[1..]);
      (last, [r] + rs)
  }

  /** The calls of the plans that passed validation, in order. */
  function AcceptedCalls(plans: seq<Result<Call, RpcError>>): seq<Call>
    decreases |plans|
  {
    if plans == [] then [] else (if plans[0].Success? then [plans[0].value] else []) + AcceptedCalls(plans[1..])
  }

  /** Over any sequence of calls the transport receives exactly the calls that
      passed validation, in order, each posted to the endpoint, and nothing for
      the rejected ones; earlier requests stay as they were, and each call gets
      exactly one result. */
  lemma {:induction false} OnlyAcceptedPlansAreSent(server: Server, endpoint: string, s: State, plans: seq<Result<Call, RpcError>>)
    ensures var (last, rs) := Run(server, endpoint, s, plans);
      var calls := AcceptedCalls(plans);
      |last.sent| == |s.sent| + |calls| && last.sent[..|s.sent|] == s.sent && |rs| == |plans| &&
      forall i :: |s.sent| <= i < |last.sent| ==>
        last.sent[i].uri == endpoint &&
        last.sent[i].payload.rpcMethod == calls[i - |s.sent|].rpcMethod &&
        last.sent[i].payload.params == calls[i - |s.sent|].params
    decreases |plans|
  {
    if plans != [] {
      var s1 := Perform(server, endpoint, s, plans[0]).0;
      OnlyAcceptedPlansAreSent(server, endpoint, s1, plans[1..]);
      var last := Run(server, endpoint, s1, plans[1..]).0;
      assert last.sent[..|s.sent|] == last.sent[..|s1.sent|][..|s.sent|];
      var calls, rest := AcceptedCalls(plans), AcceptedCalls(plans[1..]);
      if plans[0].Success? {
        assert s1.sent[|s.sent|] == RequestFor(endpoint, s, plans[0].value);
        assert last.sent[|s.sent|] == last.sent[..|s1.sent|][|s.sent|];
        forall i | |s.sent| <= i < |last.sent|
          ensures last.sent[i].uri == endpoint
          ensures last.sent[i].payload.rpcMethod == calls[i - |s.sent|].rpcMethod
          ensures last.sent[i].payload.params == calls[i - |s.sent|].params
        {
          if i > |s.sent| {
            assert calls[i - |s.sent|] == rest[i - |s1.sent|];
          }
        }
      } else {
        assert calls == rest;
      }
    }
  }

  /** A rejected plan in a run fails with its own validation error, whatever the server does. */
  lemma {:induction false} RejectedPlansFailLocally(server: Server, endpoint: string, s: State, plans: seq<Result<Call, RpcError>>, k: nat)
    requires k < |plans| && plans[k].Failure?
    ensures var rs := Run(server, endpoint, s, plans).1;
      |rs| == |plans| && rs[k] == Failure(plans[k].error)
    decreases |plans|
  {
    OnlyAcceptedPlansAreSent(server, endpoint, s, plans);
    if k > 0 {
      var s1 := Perform(server, endpoint, s, plans[0]).0;
      RejectedPlansFailLocally(server, endpoint, s1, plans[1..], k - 1);
    }
  }

  /** `listAddressGroupings` as written: it dispatches the call but returns
      no value, so a successful reply surfaces as a missing return value. */
  function ListAddressGroupingsAsWritten(server: Server, endpoint: string, s: State): (out: (State, Result<string, RpcError>))
    ensures out.1.Failure?
    ensures out.1 == Failure(MissingReturnValue) <==>
      ReplyTo(server, endpoint, s, Call("listaddressgroupings", [])).status == HTTP_OK
    ensures |out.0.sent| == |s.sent| + 1
  {
    var (next, r) := Dispatch(server, endpoint, s, Call("listaddressgroupings", []));
    (next, if r.Success? then Failure(MissingReturnValue) else r)
  }

  /** The discrepancy: with a status-200 reply the id is consumed and the body
      is lost by the code as written, while returning the dispatch result, as
      every other wrapper does, hands the body to the caller. */
  lemma ListAddressGroupingsLosesBody(server: Server, endpoint: string, s: State)
    requires ReplyTo(server, endpoint, s, Call("listaddressgroupings", [])).status == HTTP_OK
    ensures var written := ListAddressGroupingsAsWritten(server, endpoint, s);
      written.1 == Failure(MissingReturnValue) && written.0.requestId == None
    ensures Dispatch(server, endpoint, s, Call("listaddressgroupings", [])).1
      == Success(ReplyTo(server, endpoint, s, Call("listaddressgroupings", [])).body)
  {
  }
}
