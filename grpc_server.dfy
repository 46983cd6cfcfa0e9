/** `GRPCServer` (shared/grpc_server.go): the plugin's end of the `KV` service, which forwards each
    RPC to the plugin's implementation. `Init` records the broker id, dials the host's log server
    on it, then initialises the implementation and hands it a client of that log server.

    The broker's `Dial` and the implementation's methods are oracles: functions from their
    arguments to their results. `implCalls` records, in order, the calls made into the
    implementation by `Init`. */
module GrpcServer {
  import opened GoTypes
  import opened Proto

  /** A connection the broker dialled. */
  datatype Conn = Conn(id: nat)

  /** A `GRPCLogHelperClient` over a connection. */
  datatype LogHelperClient = LogHelperClient(conn: Conn)

  /** A call `Init` makes into the plugin's implementation. */
  datatype ImplCall = ImplInit(brokerId: uint32) | ImplSetLogger(logger: LogHelperClient)

  const ConnectErrorPrefix: string := "failed to connect to logger server in stresshouse process: "

  class GRPCServer {
    var brokerID: uint32
    var logServerConn: Option<Conn>
    var logClient: Option<LogHelperClient>
    ghost var implCalls: seq<ImplCall>

    constructor ()
      ensures brokerID == 0 && logServerConn == None && logClient == None && implCalls == []
    {
      brokerID := 0;
      logServerConn := None;
      logClient := None;
      implCalls := [];
    }

    /** Dials the stored broker id; only a successful dial replaces the connection and client. */
    method ConnectToLoggerServer(dial: uint32 -> Result<Conn, Error>) returns (err: Option<Error>)
      modifies this
      ensures brokerID == old(brokerID) && implCalls == old(implCalls)
      ensures dial(brokerID).Failure? ==>
                err == Some(dial(brokerID).error)
                && logServerConn == old(logServerConn) && logClient == old(logClient)
      ensures dial(brokerID).Success? ==>
                err == None && logServerConn == Some(dial(brokerID).value)
                && logClient == Some(LogHelperClient(dial(brokerID).value))
    {
      var conn := dial(brokerID);
      if conn.Failure? {
        return Some(conn.error);
      }

      logServerConn := Some(conn.value);
      logClient := Some(LogHelperClient(conn.value));
      return None;
    }

    /** The broker id is stored first, whatever happens next. A failed dial is reported with a
        fixed prefix and nothing is called; otherwise the implementation's `Init` gets the
        stored id, and only if it succeeds does its `SetLogger` get the new log client. */
    method Init(req: InitRequest, dial: uint32 -> Result<Conn, Error>,
                implInit: uint32 -> Option<Error>, implSetLogger: LogHelperClient -> Option<Error>)
      returns (resp: Option<Empty>, err: Option<Error>)
      modifies this
      ensures brokerID == req.brokerId
      ensures resp.None? <==> err.Some?
      ensures dial(req.brokerId).Failure? ==>
                && logServerConn == old(logServerConn) && logClient == old(logClient)
                && implCalls == old(implCalls)
                && err == Some(Error(ConnectErrorPrefix + dial(req.brokerId).error.message))
      ensures dial(req.brokerId).Success? ==>
                var client := LogHelperClient(dial(req.brokerId).value);
                && logServerConn == Some(dial(req.brokerId).value) && logClient == Some(client)
                && (implInit(req.brokerId).Some? ==>
                      implCalls == old(implCalls) + [ImplInit(req.brokerId)] && err == implInit(req.brokerId))
                && (implInit(req.brokerId).None? ==>
                      implCalls == old(implCalls) + [ImplInit(req.brokerId), ImplSetLogger(client)]
                      && err == implSetLogger(client))
    {
      brokerID := req.brokerId;

      var connErr := ConnectToLoggerServer(dial);
      if connErr.Some? {
        return None, Some(Error(ConnectErrorPrefix + connErr.value.message));
      }

      var initErr := implInit(brokerID);
      implCalls := implCalls + [ImplInit(brokerID)];
      if initErr.Some? {
        return None, initErr;
      }

      var client := logClient.value;
      var setErr := implSetLogger(client);
      implCalls := implCalls + [ImplSetLogger(client)];
      if setErr.Some? {
        return None, setErr;
      }

      return Some(Empty), None;
    }

    /** An empty response with exactly the implementation's error. */
    method Ping(implPing: Option<Error>) returns (resp: Empty, err: Option<Error>)
      ensures err == implPing
    {
      return Empty, implPing;
    }

    /** An empty response with exactly the implementation's error. */
    method Put(req: PutRequest, implPut: (string, Bytes) -> Option<Error>) returns (resp: Empty, err: Option<Error>)
      ensures err == implPut(req.key, req.value)
    {
      return Empty, implPut(req.key, req.value);
    }

    /** The implementation's value and its error together: the value is kept even on error. */
    method Get(req: GetRequest, implGet: string -> (Bytes, Option<Error>)) returns (resp: GetResponse, err: Option<Error>)
      ensures resp.value == implGet(req.key).0 && err == implGet(req.key).1
    {
      var (v, e) := implGet(req.key);
      return GetResponse(v), e;
    }
  }
}
