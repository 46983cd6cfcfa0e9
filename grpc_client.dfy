/** `GRPCClient` (shared/grpc_client.go): the host's end of the `KV` service. `Init` is a one-shot
    session set-up: the first call that succeeds allocates a broker id, starts the log server on
    it and tells the plugin the id; every later call does nothing.

    The calls are taken one at a time, as the mutex around `Init` makes them. The RPCs are oracles
    (functions from the request to the reply); the broker is a counter of connection ids, and
    `calls` records, in order, every log server started and every `Init` RPC issued. */
module GrpcClient {
  import opened GoTypes
  import opened Proto

  /** The id after `x`, as an atomic uint32 increment gives it (wrapping to 0). */
  function Successor(x: uint32): (r: uint32)
    ensures r as int == (x as int + 1) % TWO_POW_32
  {
    if x as int == TWO_POW_32 - 1 then 0 else x + 1
  }

  /** go-plugin's connection broker, seen as the last id it handed out. */
  class Broker {
    var lastId: uint32

    constructor ()
      ensures lastId == 0
    {
      lastId := 0;
    }

    /** `NextId`: a new id, one past the previous one. */
    method NextId() returns (id: uint32)
      modifies this
      ensures id == Successor(old(lastId)) && lastId == id
    {
      lastId := Successor(lastId);
      id := lastId;
    }
  }

  /** What the client asks of the broker and the plugin during session set-up. */
  datatype BrokerCall =
    | AcceptAndServe(id: uint32)
    | InitRpc(request: InitRequest, err: Option<Error>)

  /** The state `Init` works on: the flag, the broker's last id, and the calls made so far. */
  datatype Session = Session(initialized: bool, lastId: uint32, calls: seq<BrokerCall>)

  /** What `Init` leaves and returns. */
  datatype InitResult = InitResult(session: Session, err: Option<Error>)

  /** One `Init` call, as a function of the state before it. */
  function InitStep(s: Session, initRpc: InitRequest -> Option<Error>): (r: InitResult)
    ensures s.initialized ==> r == InitResult(s, None)
    ensures !s.initialized ==> (r.session.initialized <==> r.err.None?)
  {
    if s.initialized then InitResult(s, None)
    else
      var id := Successor(s.lastId);
      var req := InitRequest(id);
      var err := initRpc(req);
      InitResult(Session(err.None?, id, s.calls + [AcceptAndServe(id), InitRpc(req, err)]), err)
  }

  /** Calls alternate: a log server started, then an `Init` RPC. */
  ghost predicate Alternating(calls: seq<BrokerCall>) {
    && |calls| % 2 == 0
    && forall k :: 0 <= k < |calls| ==> (calls[k].InitRpc? <==> k % 2 == 1)
  }

  /** Each `Init` RPC carries the id of the log server started just before it. */
  ghost predicate Paired(calls: seq<BrokerCall>) {
    forall k :: 1 <= k < |calls| && calls[k].InitRpc? ==>
      calls[k - 1].AcceptAndServe? && calls[k].request.brokerId == calls[k - 1].id
  }

  /** Every `Init` RPC but the last one failed. */
  ghost predicate OnlyLastMaySucceed(calls: seq<BrokerCall>) {
    forall k :: 0 <= k < |calls| - 1 && calls[k].InitRpc? ==> calls[k].err.Some?
  }

  /** The shape every reachable session has: calls come in pairs, a log server started on a fresh
      id and then an `Init` RPC carrying that id; the flag is set exactly when an RPC succeeded,
      and a successful RPC is the last call ever made. */
  ghost predicate WellFormed(s: Session) {
    && Alternating(s.calls) && Paired(s.calls) && OnlyLastMaySucceed(s.calls)
    && (|s.calls| > 0 ==> s.calls[|s.calls| - 1].InitRpc? && s.calls[|s.calls| - 1].request.brokerId == s.lastId)
    && (s.initialized <==> |s.calls| > 0 && s.calls[|s.calls| - 1].err.None?)
  }

  /** A fresh client over a fresh broker. */
  function Fresh(): (s: Session)
    ensures WellFormed(s) && !s.initialized
  {
    Session(false, 0, [])
  }

  /** `Init` keeps the shape. */
  lemma InitKeepsWellFormed(s: Session, initRpc: InitRequest -> Option<Error>)
    requires WellFormed(s)
    ensures WellFormed(InitStep(s, initRpc).session)
  {
    if !s.initialized {
      var id := Successor(s.lastId);
      var err := initRpc(InitRequest(id));
      var calls := s.calls + [AcceptAndServe(id), InitRpc(InitRequest(id), err)];
      assert InitStep(s, initRpc).session == Session(err.None?, id, calls);
      var n := |s.calls|;
      assert Alternating(calls) by {
        forall k | 0 <= k < |calls| ensures calls[k].InitRpc? <==> k % 2 == 1 {
          if k < n {
            assert calls[k] == s.calls[k];
          }
        }
      }
      assert Paired(calls) by {
        forall k | 1 <= k < |calls| && calls[k].InitRpc?
          ensures calls[k - 1].AcceptAndServe? && calls[k].request.brokerId == calls[k - 1].id
        {
          if k < n {
            assert calls[k] == s.calls[k] && calls[k - 1] == s.calls[k - 1];
          }
        }
      }
      assert OnlyLastMaySucceed(calls) by {
        forall k | 0 <= k < |calls| - 1 && calls[k].InitRpc? ensures calls[k].err.Some? {
          assert k < n && calls[k] == s.calls[k];
        }
      }
    }
  }

  /** A series of `Init` calls, each answered by its own RPC oracle. */
  function RunInits(s: Session, rpcs: seq<InitRequest -> Option<Error>>): (r: Session)
    decreases |rpcs|
  {
    if rpcs == [] then s else RunInits(InitStep(s, rpcs[0]).session, rpcs[1..])
  }

  /** However many times `Init` is called and whatever the RPCs answer, at most one `Init` RPC
      succeeds, nothing is called after it, and each RPC carries the id of the log server
      started just before it. */
  lemma {:induction false} RunInitsWellFormed(s: Session, rpcs: seq<InitRequest -> Option<Error>>)
    requires WellFormed(s)
    ensures WellFormed(RunInits(s, rpcs))
    decreases |rpcs|
  {
    if rpcs != [] {
      InitKeepsWellFormed(s, rpcs[0]);
      RunInitsWellFormed(InitStep(s, rpcs[0]).session, rpcs[1..]);
    }
  }

  /** In a reachable session at most one `Init` RPC has succeeded. */
  lemma AtMostOneSuccess(s: Session, i: nat, j: nat)
    requires WellFormed(s)
    requires i < |s.calls| && s.calls[i].InitRpc? && s.calls[i].err.None?
    requires j < |s.calls| && s.calls[j].InitRpc? && s.calls[j].err.None?
    ensures i == j
  {
    assert i == |s.calls| - 1;
    assert j == |s.calls| - 1;
  }

  /** Once a session is set up, later `Init` calls change nothing. */
  lemma {:induction false} InitializedStays(s: Session, rpcs: seq<InitRequest -> Option<Error>>)
    requires s.initialized
    ensures RunInits(s, rpcs) == s
    decreases |rpcs|
  {
    if rpcs != [] {
      InitializedStays(InitStep(s, rpcs[0]).session, rpcs[1..]);
    }
  }

  /** After a failed RPC the flag stays down, so the next call allocates a new id and starts
      another log server. */
  lemma RetryUsesNewId(s: Session, first: InitRequest -> Option<Error>, second: InitRequest -> Option<Error>)
    requires !s.initialized && InitStep(s, first).err.Some?
    ensures var t := InitStep(s, first).session;
            var u := InitStep(t, second).session;
            !t.initialized && u.lastId == Successor(t.lastId) && u.lastId != t.lastId
            && |u.calls| == |s.calls| + 4 && u.calls[|s.calls| + 2] == AcceptAndServe(u.lastId)
  {
  }

  class GRPCClient {
    var isInitialized: bool
    const broker: Broker
    ghost var calls: seq<BrokerCall>

    /** The session as `Init` sees it. */
    ghost function State(): Session
      reads this, broker
    {
      Session(isInitialized, broker.lastId, calls)
    }

    /** `NewGRPCClient`: not yet initialized. */
    constructor (broker: Broker)
      ensures this.broker == broker && !isInitialized && calls == []
    {
      this.broker := broker;
      isInitialized := false;
      calls := [];
    }

    /** Allocates a broker id and starts serving the log helper on it. */
    method StartLogServer() returns (brokerID: uint32)
      modifies this, broker
      ensures brokerID == Successor(old(broker.lastId)) && broker.lastId == brokerID
      ensures calls == old(calls) + [AcceptAndServe(brokerID)]
      ensures isInitialized == old(isInitialized)
    {
      brokerID := broker.NextId();
      calls := calls + [AcceptAndServe(brokerID)];
    }

    /** `Init(_)`: the argument is not used. */
    method Init(arg: uint32, initRpc: InitRequest -> Option<Error>) returns (err: Option<Error>)
      modifies this, broker
      ensures InitResult(State(), err) == InitStep(old(State()), initRpc)
    {
      if isInitialized {
        return None;
      }

      var brokerID := StartLogServer();

      var req := InitRequest(brokerID);
      err := initRpc(req);
      calls := calls + [InitRpc(req, err)];

      if err.Some? {
        return err;
      }

      isInitialized := true;
      return None;
    }

    /** `Initialize` is `Init(0)`. */
    method Initialize(initRpc: InitRequest -> Option<Error>) returns (err: Option<Error>)
      modifies this, broker
      ensures InitResult(State(), err) == InitStep(old(State()), initRpc)
    {
      err := Init(0, initRpc);
    }

    /** The plugin's error, or nil. */
    method Ping(pingRpc: Empty -> Option<Error>) returns (err: Option<Error>)
      ensures err == pingRpc(Empty)
    {
      err := pingRpc(Empty);
    }

    /** The host never hands a logger to the plugin this way. */
    method SetLogger() returns (err: Option<Error>)
      ensures err == None
    {
      return None;
    }

    /** Sends the key and value; the plugin's error, or nil. */
    method Put(key: string, value: Bytes, putRpc: PutRequest -> Option<Error>) returns (err: Option<Error>)
      ensures err == putRpc(PutRequest(key, value))
    {
      err := putRpc(PutRequest(key, value));
    }

    /** The value the plugin answered with; a nil value with the error when the RPC failed. */
    method Get(key: string, getRpc: GetRequest -> Result<GetResponse, Error>) returns (value: Bytes, err: Option<Error>)
      ensures getRpc(GetRequest(key)).Failure? ==> value == [] && err == Some(getRpc(GetRequest(key)).error)
      ensures getRpc(GetRequest(key)).Success? ==> value == getRpc(GetRequest(key)).value.value && err == None
    {
      var resp := getRpc(GetRequest(key));
      if resp.Failure? {
        return [], Some(resp.error);
      }
      return resp.value.value, None;
    }
  }
}
