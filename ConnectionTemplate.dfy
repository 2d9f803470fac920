/**
 * ConnectionHandlerTemplate: the earlier all-in-one handler.  It keeps a
 * connection state (four values), a discovery state and a reading state
 * (three values each), the operation in flight, and the last signalled
 * result, which starts out null.  Requests move the states by
 * compare-and-set before they wait; the callbacks set them and signal.
 *
 * Unlike TimeoutHandler, the wait does not reset the result and every
 * signal overwrites it: the LAST signal wins.  A wait is an input (`Wake`):
 * the callbacks that run while the request waits, and whether the wait ended
 * by timeout.  The callbacks are the six of `HandlerSpec.Event`.
 */
module ConnectionTemplate {
  import opened Nullable
  import opened Results
  import HandlerSpec

  datatype ConnectionState = NoConnection | Connecting | Connected | Disconnecting
  datatype DiscoveryState = Undiscovered | Discovering | Discovered
  datatype ReadingState = Unread | Reading | Read
  /** The request in flight; `NoOp` when none is. */
  datatype OperationKind = NoOp | ConnectOp | DiscoverOp | ReadOp | DisconnectOp

  /** The handler's five fields; `result` is `None` until the first signal. */
  datatype Machine = Machine(
    connection: ConnectionState,
    discovery: DiscoveryState,
    reading: ReadingState,
    operation: OperationKind,
    result: Option<Result>)

  const Initial := Machine(NoConnection, Undiscovered, Unread, NoOp, None)

  /** One callback.  Only `handleConnected` is conditional: it acts, and signals, only while connecting. */
  function Step(m: Machine, e: HandlerSpec.Event): Machine {
    match e
    case Connected =>
      if m.connection == Connecting then m.(connection := Connected, result := Some(Success)) else m
    case Disconnected(reason) =>
      m.(connection := NoConnection, discovery := Undiscovered, reading := Unread, result := Some(reason))
    case ServicesDiscovered => m.(discovery := Discovered, result := Some(Success))
    case ServicesDiscoveryError(reason) => m.(discovery := Undiscovered, result := Some(reason))
    case ReadingSuccess => m.(reading := Read, result := Some(Success))
    case ReadingError(reason) => m.(reading := Read, result := Some(reason))
  }

  /** The callbacks `es`, in order. */
  function Run(m: Machine, es: seq<HandlerSpec.Event>): Machine
    decreases |es|
  {
    if es == [] then m else Run(Step(m, es[0]), es[1..])
  }

  /*
   * Properties of the callbacks.
   */

  /** Callbacks never touch the operation in flight. */
  lemma {:induction false} RunKeepsOperation(m: Machine, es: seq<HandlerSpec.Event>)
    ensures Run(m, es).operation == m.operation
    decreases |es|
  {
    if es != [] {
      RunKeepsOperation(Step(m, es[0]), es[1..]);
    }
  }

  /** Only `handleConnected` and `handleDisconnected` move the connection state. */
  lemma {:induction false} OnlyConnectionEventsMoveConnection(m: Machine, es: seq<HandlerSpec.Event>)
    requires forall i :: 0 <= i < |es| ==> !es[i].AffectsConnection()
    ensures Run(m, es).connection == m.connection
    decreases |es|
  {
    if es != [] {
      OnlyConnectionEventsMoveConnection(Step(m, es[0]), es[1..]);
    }
  }

  /** The callbacks that move the discovery state: the two discovery callbacks and `handleDisconnected`. */
  predicate MovesDiscovery(e: HandlerSpec.Event) {
    e.ServicesDiscovered? || e.ServicesDiscoveryError? || e.Disconnected?
  }

  /** The callbacks that move the reading state: the two reading callbacks and `handleDisconnected`. */
  predicate MovesReading(e: HandlerSpec.Event) {
    e.ReadingSuccess? || e.ReadingError? || e.Disconnected?
  }

  /** Only the callbacks of `MovesDiscovery` change the discovery state. */
  lemma {:induction false} OnlyDiscoveryEventsMoveDiscovery(m: Machine, es: seq<HandlerSpec.Event>)
    requires forall i :: 0 <= i < |es| ==> !MovesDiscovery(es[i])
    ensures Run(m, es).discovery == m.discovery
    decreases |es|
  {
    if es != [] {
      OnlyDiscoveryEventsMoveDiscovery(Step(m, es[0]), es[1..]);
    }
  }

  /** Only the callbacks of `MovesReading` change the reading state. */
  lemma {:induction false} OnlyReadingEventsMoveReading(m: Machine, es: seq<HandlerSpec.Event>)
    requires forall i :: 0 <= i < |es| ==> !MovesReading(es[i])
    ensures Run(m, es).reading == m.reading
    decreases |es|
  {
    if es != [] {
      OnlyReadingEventsMoveReading(Step(m, es[0]), es[1..]);
    }
  }

  /**
   * Every signal overwrites the stored result, so after callbacks that all
   * signal (no `handleConnected`, which may stay silent) the result is the
   * last one's.
   */
  lemma {:induction false} LastSignalWins(m: Machine, es: seq<HandlerSpec.Event>)
    requires es != []
    requires forall i :: 0 <= i < |es| ==> !es[i].Connected?
    ensures Run(m, es).result == Some(es[|es| - 1].Signal())
    decreases |es|
  {
    if |es| > 1 {
      LastSignalWins(Step(m, es[0]), es[1..]);
    }
  }

  /** How a wait unfolds: the callbacks during it, and whether it timed out. */
  datatype Wake = Wake(during: seq<HandlerSpec.Event>, timedOut: bool)

  /** `awaitCompletion`: the state when the request looks again, and `TimedOut` or the stored result. */
  datatype Awoken = Awoken(state: Machine, result: Option<Result>)

  function Await(m: Machine, w: Wake): (a: Awoken)
    ensures w.timedOut ==> a.result == Some(TimedOut)
    ensures !w.timedOut ==> a.result == a.state.result
  {
    var s := Run(m, w.during);
    Awoken(s, if w.timedOut then Some(TimedOut) else s.result)
  }

  /** What a request returns (`None` for the initial null result), the state after it, and whether it waited. */
  datatype Reply = Reply(result: Option<Result>, state: Machine, waited: bool)

  /** `handleConnectionRequest`. */
  function ConnectRequest(m: Machine, w: Wake): (reply: Reply)
    ensures m.operation != NoOp ==> reply == Reply(Some(Busy), m, false)
    ensures m.operation == NoOp ==> reply.state.operation == NoOp
    ensures reply.waited <==> m.operation == NoOp && m.connection == NoConnection
    ensures reply.waited && w.timedOut ==> reply.result == Some(TimedOut)
    ensures m.operation == NoOp && reply.result != Some(TimedOut) && reply.state.connection == Connected ==>
      reply.result == Some(Success)
    ensures m.operation == NoOp && !(reply.waited && w.timedOut) && reply.state.connection != Connected ==>
      reply.result == reply.state.result
    ensures m.operation == NoOp && !reply.waited ==> reply.state == m
  {
    if m.operation != NoOp then Reply(Some(Busy), m, false)
    else if m.connection == NoConnection then
      var a := Await(m.(connection := Connecting, operation := ConnectOp), w);
      if a.result == Some(TimedOut) then
        var back := if a.state.connection == Connecting then a.state.(connection := NoConnection) else a.state;
        Reply(Some(TimedOut), back.(operation := NoOp), true)
      else
        Reply(if a.state.connection == Connected then Some(Success) else a.state.result, a.state.(operation := NoOp), true)
    else
      Reply(if m.connection == Connected then Some(Success) else m.result, m, false)
  }

  /** `handleDisconnectionRequest`: the awaited result is returned as it is, and nothing is rolled back. */
  function DisconnectRequest(m: Machine, w: Wake): (reply: Reply)
    ensures m.operation != NoOp ==> reply == Reply(Some(Busy), m, false)
    ensures m.operation == NoOp ==> reply.state.operation == NoOp
    ensures reply.waited <==> m.operation == NoOp && m.connection == Connected
    ensures reply.waited && w.timedOut ==> reply.result == Some(TimedOut)
    ensures m.operation == NoOp && !reply.waited ==>
      reply.state == m && (m.connection == NoConnection ==> reply.result == Some(Success))
  {
    if m.operation != NoOp then Reply(Some(Busy), m, false)
    else if m.connection == Connected then
      var a := Await(m.(connection := Disconnecting, operation := DisconnectOp), w);
      Reply(a.result, a.state.(operation := NoOp), true)
    else
      Reply(if m.connection == NoConnection then Some(Success) else m.result, m, false)
  }

  /** `handleDiscoveryRequest`. */
  function DiscoveryRequest(m: Machine, w: Wake): (reply: Reply)
    ensures m.operation != NoOp ==> reply == Reply(Some(Busy), m, false)
    ensures m.operation == NoOp ==> reply.state.operation == NoOp
    ensures reply.waited <==> m.operation == NoOp && m.connection == Connected && m.discovery == Undiscovered
    ensures reply.waited && w.timedOut ==> reply.result == Some(TimedOut)
    ensures m.operation == NoOp && reply.result != Some(TimedOut) && reply.state.discovery == Discovered ==>
      reply.result == Some(Success)
    ensures m.operation == NoOp && !(reply.waited && w.timedOut) && reply.state.discovery != Discovered ==>
      reply.result == reply.state.result
    ensures m.operation == NoOp && !reply.waited ==> reply.state == m
  {
    if m.operation != NoOp then Reply(Some(Busy), m, false)
    else if m.connection == Connected && m.discovery == Undiscovered then
      var a := Await(m.(discovery := Discovering, operation := DiscoverOp), w);
      if a.result == Some(TimedOut) then
        var back := if a.state.discovery == Discovering then a.state.(discovery := Undiscovered) else a.state;
        Reply(Some(TimedOut), back.(operation := NoOp), true)
      else
        Reply(if a.state.discovery == Discovered then Some(Success) else a.state.result, a.state.(operation := NoOp), true)
    else
      Reply(if m.discovery == Discovered then Some(Success) else m.result, m, false)
  }

  /** `handleReadRequest`. */
  function ReadRequest(m: Machine, w: Wake): (reply: Reply)
    ensures m.operation != NoOp ==> reply == Reply(Some(Busy), m, false)
    ensures m.operation == NoOp ==> reply.state.operation == NoOp
    ensures reply.waited <==>
      m.operation == NoOp && m.connection == Connected && m.discovery == Discovered && m.reading == Unread
    ensures reply.waited && w.timedOut ==> reply.result == Some(TimedOut)
    ensures m.operation == NoOp && reply.result != Some(TimedOut) && reply.state.reading == Read ==>
      reply.result == Some(Success)
    ensures m.operation == NoOp && !(reply.waited && w.timedOut) && reply.state.reading != Read ==>
      reply.result == reply.state.result
    ensures m.operation == NoOp && !reply.waited ==> reply.state == m
  {
    if m.operation != NoOp then Reply(Some(Busy), m, false)
    else if m.connection == Connected && m.discovery == Discovered && m.reading == Unread then
      var a := Await(m.(reading := Reading, operation := ReadOp), w);
      if a.result == Some(TimedOut) then
        var back := if a.state.reading == Reading then a.state.(reading := Unread) else a.state;
        Reply(Some(TimedOut), back.(operation := NoOp), true)
      else
        Reply(if a.state.reading == Read then Some(Success) else a.state.result, a.state.(operation := NoOp), true)
    else
      Reply(if m.reading == Read then Some(Success) else m.result, m, false)
  }

  /*
   * Properties of the requests.
   */

  /**
   * A connection that times out with no connection callback is rolled back:
   * the state returns to not connected and the request reports `TimedOut`.
   */
  lemma ConnectTimeoutRollsBack(m: Machine, w: Wake)
    requires m.operation == NoOp && m.connection == NoConnection && w.timedOut
    requires forall i :: 0 <= i < |w.during| ==> !w.during[i].AffectsConnection()
    ensures ConnectRequest(m, w).result == Some(TimedOut)
    ensures ConnectRequest(m, w).state.connection == NoConnection
    ensures ConnectRequest(m, w).state.operation == NoOp
  {
    OnlyConnectionEventsMoveConnection(m.(connection := Connecting, operation := ConnectOp), w.during);
  }

  /**
   * A discovery that times out with no discovery callback and no
   * disconnection is rolled back: the state returns to not discovered and
   * the request reports `TimedOut`.
   */
  lemma DiscoveryTimeoutRollsBack(m: Machine, w: Wake)
    requires m.operation == NoOp && m.connection == Connected && m.discovery == Undiscovered && w.timedOut
    requires forall i :: 0 <= i < |w.during| ==> !MovesDiscovery(w.during[i])
    ensures DiscoveryRequest(m, w).result == Some(TimedOut)
    ensures DiscoveryRequest(m, w).state.discovery == Undiscovered
    ensures DiscoveryRequest(m, w).state.operation == NoOp
  {
    OnlyDiscoveryEventsMoveDiscovery(m.(discovery := Discovering, operation := DiscoverOp), w.during);
  }

  /**
   * A read that times out with no reading callback and no disconnection is
   * rolled back: the state returns to not read and the request reports
   * `TimedOut`.
   */
  lemma ReadTimeoutRollsBack(m: Machine, w: Wake)
    requires m.operation == NoOp && m.connection == Connected && m.discovery == Discovered && m.reading == Unread
    requires w.timedOut
    requires forall i :: 0 <= i < |w.during| ==> !MovesReading(w.during[i])
    ensures ReadRequest(m, w).result == Some(TimedOut)
    ensures ReadRequest(m, w).state.reading == Unread
    ensures ReadRequest(m, w).state.operation == NoOp
  {
    OnlyReadingEventsMoveReading(m.(reading := Reading, operation := ReadOp), w.during);
  }

  /**
   * A disconnection that times out is not rolled back: the state stays
   * DISCONNECTING, and from there neither a connection nor a disconnection
   * request waits again; both answer with the stale stored result until
   * `handleDisconnected` arrives.
   */
  lemma DisconnectTimeoutSticks(m: Machine, w: Wake, next: Wake)
    requires m.operation == NoOp && m.connection == Connected && w.timedOut
    requires forall i :: 0 <= i < |w.during| ==> !w.during[i].AffectsConnection()
    ensures var after := DisconnectRequest(m, w);
      && after.result == Some(TimedOut)
      && after.state.connection == Disconnecting
      && ConnectRequest(after.state, next) == Reply(after.state.result, after.state, false)
      && DisconnectRequest(after.state, next) == Reply(after.state.result, after.state, false)
  {
    var s := m.(connection := Disconnecting, operation := DisconnectOp);
    OnlyConnectionEventsMoveConnection(s, w.during);
    RunKeepsOperation(s, w.during);
  }

  /**
   * Both reading callbacks set READ, so a read woken by a reading error
   * reports `Success`; a discovery error, which clears the discovery state,
   * is reported as itself.
   */
  lemma ReadingErrorReportsSuccess(m: Machine, reason: Result)
    requires m.operation == NoOp && m.connection == Connected && m.discovery == Discovered && m.reading == Unread
    requires reason != TimedOut
    ensures ReadRequest(m, Wake([HandlerSpec.ReadingError(reason)], false)).result == Some(Success)
    ensures DiscoveryRequest(m.(discovery := Undiscovered), Wake([HandlerSpec.ServicesDiscoveryError(reason)], false)).result
      == Some(reason)
  {
    var r := [HandlerSpec.ReadingError(reason)];
    var s := m.(reading := Reading, operation := ReadOp);
    assert r[1..] == [];
    assert Run(s, r) == Step(s, r[0]);
    var d := [HandlerSpec.ServicesDiscoveryError(reason)];
    var t := m.(discovery := Discovering, operation := DiscoverOp);
    assert d[1..] == [];
    assert Run(t, d) == Step(t, d[0]);
  }

  /**
   * When discovery succeeds and the connection then drops while the request
   * still waits, the last signal wins: the verdict is the disconnection
   * reason, not `Success`.
   */
  lemma DisconnectionAfterDiscoveryWins(m: Machine, reason: Result)
    requires m.operation == NoOp && m.connection == Connected && m.discovery == Undiscovered
    requires reason != TimedOut
    ensures DiscoveryRequest(m, Wake([HandlerSpec.ServicesDiscovered, HandlerSpec.Disconnected(reason)], false)).result
      == Some(reason)
  {
    var es := [HandlerSpec.ServicesDiscovered, HandlerSpec.Disconnected(reason)];
    var s := m.(discovery := Discovering, operation := DiscoverOp);
    var rest := es[1..];
    assert rest == [HandlerSpec.Disconnected(reason)] && rest[1..] == [];
    var s1 := Step(s, es[0]);
    assert Run(s, es) == Run(s1, rest);
    assert Run(s1, rest) == Step(s1, rest[0]);
  }

  /*
   * The handler as an object.
   */

  class ConnectionHandlerTemplate {
    var connectionState: ConnectionState
    var discoveryState: DiscoveryState
    var readingState: ReadingState
    var currentOperation: OperationKind
    var operationResult: Option<Result>

    function Snapshot(): Machine
      reads this
    {
      Machine(connectionState, discoveryState, readingState, currentOperation, operationResult)
    }

    constructor()
      ensures Snapshot() == Initial
    {
      connectionState, discoveryState, readingState := NoConnection, Undiscovered, Unread;
      currentOperation, operationResult := NoOp, None;
    }

    /** `signalCompletion`: store the result; waking the waiter is the caller's `Wake`. */
    method SignalCompletion(r: Result)
      modifies this
      ensures Snapshot() == old(Snapshot()).(result := Some(r))
    {
      operationResult := Some(r);
    }

    method HandleConnected()
      modifies this
      ensures Snapshot() == Step(old(Snapshot()), HandlerSpec.Connected)
    {
      if connectionState == Connecting {
        connectionState := Connected;
        SignalCompletion(Success);
      }
    }

    method HandleDisconnected(reason: Result)
      modifies this
      ensures Snapshot() == Step(old(Snapshot()), HandlerSpec.Disconnected(reason))
    {
      connectionState := NoConnection;
      discoveryState := Undiscovered;
      readingState := Unread;
      SignalCompletion(reason);
    }

    method HandleServicesDiscovered()
      modifies this
      ensures Snapshot() == Step(old(Snapshot()), HandlerSpec.ServicesDiscovered)
    {
      discoveryState := Discovered;
      SignalCompletion(Success);
    }

    method HandleServicesDiscoveryError(reason: Result)
      modifies this
      ensures Snapshot() == Step(old(Snapshot()), HandlerSpec.ServicesDiscoveryError(reason))
    {
      discoveryState := Undiscovered;
      SignalCompletion(reason);
    }

    method HandleReadingSuccess()
      modifies this
      ensures Snapshot() == Step(old(Snapshot()), HandlerSpec.ReadingSuccess)
    {
      readingState := Read;
      SignalCompletion(Success);
    }

    method HandleReadingError(reason: Result)
      modifies this
      ensures Snapshot() == Step(old(Snapshot()), HandlerSpec.ReadingError(reason))
    {
      readingState := Read;
      SignalCompletion(reason);
    }

    /** Dispatch one callback. */
    method Handle(e: HandlerSpec.Event)
      modifies this
      ensures Snapshot() == Step(old(Snapshot()), e)
    {
      match e
      case Connected => HandleConnected();
      case Disconnected(reason) => HandleDisconnected(reason);
      case ServicesDiscovered => HandleServicesDiscovered();
      case ServicesDiscoveryError(reason) => HandleServicesDiscoveryError(reason);
      case ReadingSuccess => HandleReadingSuccess();
      case ReadingError(reason) => HandleReadingError(reason);
    }

    /** `awaitCompletion`: the callbacks of the wait run, then `TimedOut` or the stored result. */
    method AwaitCompletion(w: Wake) returns (r: Option<Result>)
      modifies this
      ensures Awoken(Snapshot(), r) == Await(old(Snapshot()), w)
    {
      var i := 0;
      while i < |w.during|
        invariant 0 <= i <= |w.during|
        invariant Run(Snapshot(), w.during[i..]) == Run(old(Snapshot()), w.during)
      {
        assert w.during[i..][1..] == w.during[i + 1..];
        Handle(w.during[i]);
        i := i + 1;
      }
      r := if w.timedOut then Some(TimedOut) else operationResult;
    }

    method HandleConnectionRequest(w: Wake) returns (r: Option<Result>, waited: bool)
      modifies this
      ensures Reply(r, Snapshot(), waited) == ConnectRequest(old(Snapshot()), w)
    {
      if currentOperation != NoOp {
        return Some(Busy), false;
      }
      currentOperation := ConnectOp;
      waited := false;
      if connectionState == NoConnection {
        connectionState := Connecting;
        waited := true;
        var a := AwaitCompletion(w);
        if a == Some(TimedOut) {
          if connectionState == Connecting {
            connectionState := NoConnection;
          }
          r := Some(TimedOut);
          currentOperation := NoOp;
          return;
        }
      }
      r := if connectionState == Connected then Some(Success) else operationResult;
      currentOperation := NoOp;
    }

    method HandleDisconnectionRequest(w: Wake) returns (r: Option<Result>, waited: bool)
      modifies this
      ensures Reply(r, Snapshot(), waited) == DisconnectRequest(old(Snapshot()), w)
    {
      if currentOperation != NoOp {
        return Some(Busy), false;
      }
      currentOperation := DisconnectOp;
      if connectionState == Connected {
        connectionState := Disconnecting;
        waited := true;
        r := AwaitCompletion(w);
      } else {
        waited := false;
        r := if connectionState == NoConnection then Some(Success) else operationResult;
      }
      currentOperation := NoOp;
    }

    method HandleDiscoveryRequest(w: Wake) returns (r: Option<Result>, waited: bool)
      modifies this
      ensures Reply(r, Snapshot(), waited) == DiscoveryRequest(old(Snapshot()), w)
    {
      if currentOperation != NoOp {
        return Some(Busy), false;
      }
      currentOperation := DiscoverOp;
      waited := false;
      if connectionState == Connected && discoveryState == Undiscovered {
        discoveryState := Discovering;
        waited := true;
        var a := AwaitCompletion(w);
        if a == Some(TimedOut) {
          if discoveryState == Discovering {
            discoveryState := Undiscovered;
          }
          r := Some(TimedOut);
          currentOperation := NoOp;
          return;
        }
      }
      r := if discoveryState == Discovered then Some(Success) else operationResult;
      currentOperation := NoOp;
    }

    method HandleReadRequest(w: Wake) returns (r: Option<Result>, waited: bool)
      modifies this
      ensures Reply(r, Snapshot(), waited) == ReadRequest(old(Snapshot()), w)
    {
      if currentOperation != NoOp {
        return Some(Busy), false;
      }
      currentOperation := ReadOp;
      waited := false;
      if connectionState == Connected && discoveryState == Discovered && readingState == Unread {
        readingState := Reading;
        waited := true;
        var a := AwaitCompletion(w);
        if a == Some(TimedOut) {
          if readingState == Reading {
            readingState := Unread;
          }
          r := Some(TimedOut);
          currentOperation := NoOp;
          return;
        }
      }
      r := if readingState == Read then Some(Success) else operationResult;
      currentOperation := NoOp;
    }
  }

  /*
   * The handler's unit tests, each wait given as the callbacks the test posts.
   */

  function Woken(es: seq<HandlerSpec.Event>): Wake {
    Wake(es, false)
  }

  const Elapsed := Wake([], true)

  /** Connect, discover, read, disconnect, each answered by its callback. */
  method HappyPath() returns (results: seq<Option<Result>>)
    ensures results == [Some(Success), Some(Success), Some(Success), Some(Success)]
  {
    var h := new ConnectionHandlerTemplate();
    var r1, w1 := h.HandleConnectionRequest(Woken([HandlerSpec.Connected]));
    var r2, w2 := h.HandleDiscoveryRequest(Woken([HandlerSpec.ServicesDiscovered]));
    var r3, w3 := h.HandleReadRequest(Woken([HandlerSpec.ReadingSuccess]));
    var r4, w4 := h.HandleDisconnectionRequest(Woken([HandlerSpec.Disconnected(Success)]));
    results := [r1, r2, r3, r4];
  }

  /** A connection nobody answers times out and is rolled back. */
  method ConnectionTimeout() returns (r: Option<Result>, after: ConnectionState)
    ensures r == Some(TimedOut) && after == NoConnection
  {
    var h := new ConnectionHandlerTemplate();
    var waited;
    r, waited := h.HandleConnectionRequest(Elapsed);
    after := h.connectionState;
  }

  /** Connected, then a discovery nobody answers. */
  method ServiceDiscoveryTimeout() returns (results: seq<Option<Result>>)
    ensures results == [Some(Success), Some(TimedOut)]
  {
    var h := new ConnectionHandlerTemplate();
    var r1, w1 := h.HandleConnectionRequest(Woken([HandlerSpec.Connected]));
    var r2, w2 := h.HandleDiscoveryRequest(Elapsed);
    results := [r1, r2];
  }

  /** A discovery error is the discovery's verdict. */
  method ServiceDiscoveryError() returns (results: seq<Option<Result>>)
    ensures results == [Some(Success), Some(Error("discovery error"))]
  {
    var h := new ConnectionHandlerTemplate();
    var r1, w1 := h.HandleConnectionRequest(Woken([HandlerSpec.Connected]));
    var r2, w2 := h.HandleDiscoveryRequest(Woken([HandlerSpec.ServicesDiscoveryError(Error("discovery error"))]));
    results := [r1, r2];
  }

  /** After a read, a disconnection nobody answers times out and leaves the state DISCONNECTING. */
  method ReadingTimeout() returns (results: seq<Option<Result>>, after: ConnectionState)
    ensures results == [Some(Success), Some(Success), Some(Success), Some(TimedOut)]
    ensures after == Disconnecting
  {
    var h := new ConnectionHandlerTemplate();
    var r1, w1 := h.HandleConnectionRequest(Woken([HandlerSpec.Connected]));
    var r2, w2 := h.HandleDiscoveryRequest(Woken([HandlerSpec.ServicesDiscovered]));
    var r3, w3 := h.HandleReadRequest(Woken([HandlerSpec.ReadingSuccess]));
    var r4, w4 := h.HandleDisconnectionRequest(Elapsed);
    results := [r1, r2, r3, r4];
    after := h.connectionState;
  }

  /** The connection drops during discovery: its reason is the verdict. */
  method DisconnectedWhileDiscoveringServices() returns (results: seq<Option<Result>>)
    ensures results == [Some(Success), Some(Error("connection lost"))]
  {
    var h := new ConnectionHandlerTemplate();
    var r1, w1 := h.HandleConnectionRequest(Woken([HandlerSpec.Connected]));
    var r2, w2 := h.HandleDiscoveryRequest(Woken([HandlerSpec.Disconnected(Error("connection lost"))]));
    results := [r1, r2];
  }

  /**
   * Discovery succeeds and the connection drops at once.  The discovery
   * reports `Success` when the drop lands after its verdict, as here; when
   * both land during the wait the verdict is the drop's reason
   * (`DisconnectionAfterDiscoveryWins`).
   */
  method DiscoverySuccessFollowedByDisconnection() returns (results: seq<Option<Result>>, after: DiscoveryState)
    ensures results == [Some(Success), Some(Success)] && after == Undiscovered
  {
    var h := new ConnectionHandlerTemplate();
    var r1, w1 := h.HandleConnectionRequest(Woken([HandlerSpec.Connected]));
    var r2, w2 := h.HandleDiscoveryRequest(Woken([HandlerSpec.ServicesDiscovered]));
    h.HandleDisconnected(Error("connection lost"));
    results := [r1, r2];
    after := h.discoveryState;
  }

  /**
   * While a connection request waits, a disconnection request is `Busy` and
   * changes nothing; the connection then completes with `Success`.  The
   * connection request runs here step by step, as `HandleConnectionRequest`
   * does, so that the disconnection request and `handleConnected` land
   * inside its wait.
   */
  method WontStartNewOperationUntilPreviousOneIsRunning() returns (busy: Option<Result>, untouched: bool, connectResult: Option<Result>)
    ensures busy == Some(Busy) && untouched
    ensures connectResult == Some(Success)
  {
    var h := new ConnectionHandlerTemplate();
    // the connection request: it takes the free guard and moves NOT_CONNECTED to CONNECTING
    h.currentOperation := ConnectOp;
    h.connectionState := Connecting;
    // during the wait: the disconnection request, then the connection callback
    var before := h.Snapshot();
    var waited;
    busy, waited := h.HandleDisconnectionRequest(Elapsed);
    untouched := h.Snapshot() == before;
    h.HandleConnected();
    // the wait is woken, not timed out: the verdict is Success iff CONNECTED, else the stored result
    var state, stored := h.connectionState, h.operationResult;
    connectResult := if state == Connected then Some(Success) else stored;
    h.currentOperation := NoOp;
  }
}
