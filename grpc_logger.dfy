/** The two ends of the `LogHelper` service (shared/grpc_logger.go): the plugin calls
    `GRPCLogHelperClient.Log`, which sends a `LogRequest` back to the host, where
    `GRPCLogHelperServer.Log` hands it to the host's `LogHelper`. The outbound RPC and the host's
    implementation are oracles: functions from what they are given to the error they return. */
module GrpcLogger {
  import opened GoTypes
  import opened Proto

  /** What the client sent and what it returned. */
  datatype ClientCall = ClientCall(request: LogRequest, err: Option<Error>)

  /** `GRPCLogHelperClient.Log(level, msg)`: sends the level as an int32 with the message, and
      returns the RPC's error, or nil. */
  function HelperClientLog(level: int64, msg: string, rpc: LogRequest -> Option<Error>): (r: ClientCall)
    ensures r.request.message == msg
    ensures (r.request.level as int - level as int) % TWO_POW_32 == 0
    ensures FitsInt32(level) ==> r.request.level as int == level as int
    ensures r.err == rpc(r.request)
  {
    Int32RoundTrip(level);
    var req := LogRequest(Int32Of(level), msg);
    ClientCall(req, rpc(req))
  }

  /** A call of the host's `LogHelper.Log`. */
  datatype ImplCall = ImplCall(level: int64, message: string)

  /** What the server passed to its implementation and what it answered. */
  datatype ServerReply = ServerReply(call: ImplCall, resp: Option<Empty>, err: Option<Error>)

  /** `GRPCLogHelperServer.Log(req)`: calls the implementation once with the request's level
      (widened back to int) and message; a nil response with its error, or an empty response. */
  function HelperServerLog(req: LogRequest, impl: ImplCall -> Option<Error>): (r: ServerReply)
    ensures r.call.level as int == req.level as int && r.call.message == req.message
    ensures r.err == impl(r.call)
    ensures r.resp.None? <==> r.err.Some?
  {
    var call := ImplCall(req.level as int64, req.message);
    var err := impl(call);
    if err.Some? then ServerReply(call, None, err) else ServerReply(call, Some(Empty), None)
  }

  /** End to end, the host's `LogHelper` sees the plugin's level exactly when it fits in int32,
      and always the plugin's message. */
  lemma {:induction false} LevelDelivered(level: int64, msg: string, rpc: LogRequest -> Option<Error>,
                                         impl: ImplCall -> Option<Error>)
    ensures var call := HelperServerLog(HelperClientLog(level, msg, rpc).request, impl).call;
            call.message == msg && (call.level == level <==> FitsInt32(level))
  {
    Int32RoundTrip(level);
  }

  /** A level just past int32's range reaches the host as the most negative int32. */
  lemma LevelTruncated(msg: string, rpc: LogRequest -> Option<Error>, impl: ImplCall -> Option<Error>)
    ensures HelperServerLog(HelperClientLog(TWO_POW_31 as int64, msg, rpc).request, impl).call.level as int
            == -TWO_POW_31
  {
    Int32Truncates();
  }

  /** When the transport hands the server's error back to the client, the plugin sees exactly the
      error of the host's `LogHelper`, and nil when it succeeded. */
  lemma ErrorPassedThrough(level: int64, msg: string, impl: ImplCall -> Option<Error>)
    ensures var rpc := (req: LogRequest) => HelperServerLog(req, impl).err;
            var sent := HelperClientLog(level, msg, rpc);
            sent.err == impl(HelperServerLog(sent.request, impl).call)
  {
  }
}
