/**
 * TemplateHandler: builds one connected flag, one discovered flag, one
 * result slot whose reset value is `Busy`, and one operation guard, and
 * hands the same objects to the requester and the responder.  The scenario
 * methods replay the handler's unit tests on a fresh handler, each wait
 * given as the callbacks the test posts.
 */
module TemplateHandlerModel {
  import opened Results
  import opened HandlerSpec
  import opened HandlerImpl

  class TemplateHandler {
    const connected: BinaryState
    const discovered: BinaryState
    const timeoutHandler: TimeoutHandler
    const operation: Operation
    const requester: RequesterImpl
    const responder: ResponderImpl

    /** Requester and responder share the handler's objects, and the requester's peer is its responder. */
    predicate Valid()
      reads this, requester, responder
    {
      && requester.operation == operation
      && requester.connected == connected && requester.discovered == discovered && requester.slot == timeoutHandler
      && requester.peer == responder
      && responder.connected == connected && responder.discovered == discovered && responder.slot == timeoutHandler
      && connected != discovered
    }

    constructor()
      ensures Valid() && requester.Valid()
      ensures fresh(connected) && fresh(discovered) && fresh(timeoutHandler) && fresh(operation)
      ensures fresh(requester) && fresh(responder)
      ensures timeoutHandler.reset == Busy
      ensures requester.Snapshot() == Shared(false, false, Busy) && operation.current == Idle
    {
      var c := new BinaryState();
      var d := new BinaryState();
      var t := new TimeoutHandler(Busy);
      var o := new Operation();
      var resp := new ResponderImpl(c, d, t);
      connected, discovered, timeoutHandler, operation := c, d, t, o;
      responder := resp;
      requester := new RequesterImpl(o, c, d, t, resp);
    }
  }

  /** A wait woken by the callbacks `es`. */
  function Signalled(es: seq<Event>): Wait {
    Wait([], es, false)
  }

  /** A wait that times out with no callback. */
  const Expired := Wait([], [], true)

  /** Connect, discover, read, disconnect, each answered by its callback. */
  method HappyPath() returns (results: seq<Result>)
    ensures results == [Success, Success, Success, Success]
  {
    var h := new TemplateHandler();
    var r1, _, _ := h.requester.HandleConnectionRequest(Success, Signalled([Connected]));
    var r2, _, _ := h.requester.HandleDiscoveryRequest(Success, Signalled([ServicesDiscovered]));
    var r3, _, _ := h.requester.HandleReadRequest(Success, Signalled([ReadingSuccess]));
    var r4, _, _ := h.requester.HandleDisconnectionRequest(Success, Signalled([Disconnected(Success)]));
    results := [r1, r2, r3, r4];
  }

  /** A connection nobody answers times out. */
  method ConnectionTimeout() returns (r: Result)
    ensures r == TimedOut
  {
    var h := new TemplateHandler();
    var calledBlock, waited;
    r, calledBlock, waited := h.requester.HandleConnectionRequest(Success, Expired);
  }

  /** Connected, then a discovery nobody answers. */
  method ServiceDiscoveryTimeout() returns (results: seq<Result>)
    ensures results == [Success, TimedOut]
  {
    var h := new TemplateHandler();
    var r1, _, _ := h.requester.HandleConnectionRequest(Success, Signalled([Connected]));
    var r2, _, _ := h.requester.HandleDiscoveryRequest(Success, Expired);
    results := [r1, r2];
  }

  /** A discovery error is the discovery's verdict. */
  method ServiceDiscoveryError() returns (results: seq<Result>)
    ensures results == [Success, Error("discovery error")]
  {
    var h := new TemplateHandler();
    var r1, _, _ := h.requester.HandleConnectionRequest(Success, Signalled([Connected]));
    var r2, _, _ := h.requester.HandleDiscoveryRequest(Success, Signalled([ServicesDiscoveryError(Error("discovery error"))]));
    results := [r1, r2];
  }

  /** After a read, a disconnection nobody answers times out. */
  method DisconnectionTimeout() returns (results: seq<Result>)
    ensures results == [Success, Success, Success, TimedOut]
  {
    var h := new TemplateHandler();
    var r1, _, _ := h.requester.HandleConnectionRequest(Success, Signalled([Connected]));
    var r2, _, _ := h.requester.HandleDiscoveryRequest(Success, Signalled([ServicesDiscovered]));
    var r3, _, _ := h.requester.HandleReadRequest(Success, Signalled([ReadingSuccess]));
    var r4, _, _ := h.requester.HandleDisconnectionRequest(Success, Expired);
    results := [r1, r2, r3, r4];
  }

  /** A reading error is the read's verdict. */
  method ReadingError() returns (results: seq<Result>)
    ensures results == [Success, Success, Error("discovery error")]
  {
    var h := new TemplateHandler();
    var r1, _, _ := h.requester.HandleConnectionRequest(Success, Signalled([Connected]));
    var r2, _, _ := h.requester.HandleDiscoveryRequest(Success, Signalled([ServicesDiscovered]));
    var r3, _, _ := h.requester.HandleReadRequest(Success, Signalled([HandlerSpec.ReadingError(Error("discovery error"))]));
    results := [r1, r2, r3];
  }

  /** The connection drops during discovery: its reason is the verdict. */
  method DisconnectedWhileDiscovering() returns (results: seq<Result>)
    ensures results == [Success, Error("connection lost")]
  {
    var h := new TemplateHandler();
    var r1, _, _ := h.requester.HandleConnectionRequest(Success, Signalled([Connected]));
    var r2, _, _ := h.requester.HandleDiscoveryRequest(Success, Signalled([Disconnected(Error("connection lost"))]));
    results := [r1, r2];
  }

  /** Discovery succeeds and the connection drops at once: the first signal wins, although nothing is discovered any more. */
  method DiscoverySuccessFollowedByDisconnection() returns (results: seq<Result>, discoveredAfter: bool)
    ensures results == [Success, Success] && !discoveredAfter
  {
    var h := new TemplateHandler();
    var r1, _, _ := h.requester.HandleConnectionRequest(Success, Signalled([Connected]));
    var r2, _, _ := h.requester.HandleDiscoveryRequest(Success, Signalled([ServicesDiscovered, Disconnected(Error("connection lost"))]));
    results := [r1, r2];
    discoveredAfter := h.discovered.Read();
  }

  /**
   * While a connection request waits, a disconnection request is `Busy`: it
   * neither runs its block nor touches the state.  The connection then
   * completes with `Success`.  The connection request runs here step by
   * step, as `HandleConnectionRequest` does, so that the disconnection
   * request and `handleConnected` land inside its wait.
   */
  method BusyWhileConnecting() returns (r: Result, calledBlock: bool, stateAfter: Shared, connectResult: Result)
    ensures r == Busy && !calledBlock && stateAfter == Shared(false, false, Busy)
    ensures connectResult == Success
  {
    var h := new TemplateHandler();
    // the connection request: admitted, not connected yet, its block succeeds, and it waits
    var admitted := h.operation.TryAcquire(ConnectOp);
    h.timeoutHandler.Reset();
    // during the wait: the disconnection request, then the connection callback
    var waited;
    r, calledBlock, waited := h.requester.HandleDisconnectionRequest(Success, Signalled([]));
    stateAfter := h.requester.Snapshot();
    h.responder.HandleConnected();
    // the wait is woken: the verdict, overridden by the connected flag, and the guard released
    connectResult := h.timeoutHandler.Finish(false);
    if h.connected.Read() {
      connectResult := Success;
    }
    h.operation.Release();
  }
}
