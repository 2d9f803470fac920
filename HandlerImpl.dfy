/**
 * The objects TemplateHandler wires together: two boolean cells, the
 * single-flight operation guard, the result slot, and the requester and
 * responder that act on them.  Each method is proved against the value
 * functions of `HandlerSpec`.
 */
module HandlerImpl {
  import opened Results
  import opened HandlerSpec

  /** A boolean cell (BinaryState): `writer` overwrites, `reader` reads. */
  class BinaryState {
    var value: bool

    constructor()
      ensures !value
    {
      value := false;
    }

    method Write(newValue: bool)
      modifies this
      ensures value == newValue
    {
      value := newValue;
    }

    function Read(): bool
      reads this
    {
      value
    }
  }

  /** `Operation.Type`; `Idle` is `NONE`. */
  datatype OperationType = Idle | ConnectOp | DiscoverOp | ReadOp | DisconnectOp

  /**
   * The single-flight guard (Operation).  `start` is `TryAcquire`, then the
   * block, then `Release` in a `finally`.
   */
  class Operation {
    var current: OperationType

    constructor()
      ensures current == Idle
    {
      current := Idle;
    }

    /** `compareAndSet(NONE, op)`. */
    method TryAcquire(op: OperationType) returns (admitted: bool)
      modifies this
      ensures admitted <==> old(current) == Idle
      ensures current == (if admitted then op else old(current))
    {
      admitted := current == Idle;
      if admitted {
        current := op;
      }
    }

    /** The `finally` of `start`. */
    method Release()
      modifies this
      ensures current == Idle
    {
      current := Idle;
    }
  }

  /** The result slot (TimeoutHandler); `reset` is its `defaultResult`. */
  class TimeoutHandler {
    const reset: Result
    var result: Result

    constructor(defaultResult: Result)
      ensures reset == defaultResult && result == defaultResult
    {
      reset := defaultResult;
      result := defaultResult;
    }

    /** The first step of `awaitCompletion`, under the lock. */
    method Reset()
      modifies this
      ensures result == reset
    {
      result := reset;
    }

    /** `signalCompletion`: `compareAndSet(defaultResult, newResult)`, then wake the waiter. */
    method Signal(newResult: Result)
      modifies this
      ensures result == Offer(old(result), reset, newResult)
    {
      if result == reset {
        result := newResult;
      }
    }

    /** The last step of `awaitCompletion`: `TimedOut` if the wait timed out, else the slot. */
    function Finish(timedOut: bool): (r: Result)
      reads this
      ensures timedOut ==> r == TimedOut
      ensures !timedOut ==> r == result
    {
      if timedOut then TimedOut else result
    }
  }

  /** The six transport callbacks (ResponderImpl). */
  class ResponderImpl {
    const connected: BinaryState
    const discovered: BinaryState
    const slot: TimeoutHandler

    constructor(connected: BinaryState, discovered: BinaryState, slot: TimeoutHandler)
      ensures this.connected == connected && this.discovered == discovered && this.slot == slot
    {
      this.connected := connected;
      this.discovered := discovered;
      this.slot := slot;
    }

    function Snapshot(): Shared
      reads this, connected, discovered, slot
    {
      Shared(connected.value, discovered.value, slot.result)
    }

    method HandleConnected()
      requires connected != discovered
      modifies connected, slot
      ensures Snapshot() == Deliver(old(Snapshot()), slot.reset, Connected)
    {
      connected.Write(true);
      slot.Signal(Success);
    }

    method HandleDisconnected(reason: Result)
      requires connected != discovered
      modifies connected, discovered, slot
      ensures Snapshot() == Deliver(old(Snapshot()), slot.reset, Disconnected(reason))
    {
      connected.Write(false);
      discovered.Write(false);
      slot.Signal(reason);
    }

    method HandleServicesDiscovered()
      requires connected != discovered
      modifies discovered, slot
      ensures Snapshot() == Deliver(old(Snapshot()), slot.reset, ServicesDiscovered)
    {
      discovered.Write(true);
      slot.Signal(Success);
    }

    method HandleServicesDiscoveryError(reason: Result)
      requires connected != discovered
      modifies discovered, slot
      ensures Snapshot() == Deliver(old(Snapshot()), slot.reset, ServicesDiscoveryError(reason))
    {
      discovered.Write(false);
      slot.Signal(reason);
    }

    method HandleReadingSuccess()
      modifies slot
      ensures Snapshot() == Deliver(old(Snapshot()), slot.reset, ReadingSuccess)
    {
      slot.Signal(Success);
    }

    method HandleReadingError(reason: Result)
      modifies slot
      ensures Snapshot() == Deliver(old(Snapshot()), slot.reset, ReadingError(reason))
    {
      slot.Signal(reason);
    }

    /** Runs the callback `e` stands for. */
    method Handle(e: Event)
      requires connected != discovered
      modifies connected, discovered, slot
      ensures Snapshot() == Deliver(old(Snapshot()), slot.reset, e)
    {
      match e
      case Connected => HandleConnected();
      case Disconnected(reason) => HandleDisconnected(reason);
      case ServicesDiscovered => HandleServicesDiscovered();
      case ServicesDiscoveryError(reason) => HandleServicesDiscoveryError(reason);
      case ReadingSuccess => HandleReadingSuccess();
      case ReadingError(reason) => HandleReadingError(reason);
    }

    /** Runs the callbacks `es` one after the other. */
    method HandleAll(es: seq<Event>)
      requires connected != discovered
      modifies connected, discovered, slot
      ensures Snapshot() == DeliverAll(old(Snapshot()), slot.reset, es)
    {
      var i := 0;
      while i < |es|
        invariant 0 <= i <= |es|
        invariant DeliverAll(Snapshot(), slot.reset, es[i..]) == DeliverAll(old(Snapshot()), slot.reset, es)
      {
        assert es[i..][1..] == es[i + 1..];
        Handle(es[i]);
        i := i + 1;
      }
    }
  }

  /**
   * The four requests (RequesterImpl).  The model's requester also holds the
   * responder, which it runs during a wait to play the callbacks the wait
   * describes.
   */
  class RequesterImpl {
    const operation: Operation
    const connected: BinaryState
    const discovered: BinaryState
    const slot: TimeoutHandler
    const peer: ResponderImpl

    constructor(operation: Operation, connected: BinaryState, discovered: BinaryState, slot: TimeoutHandler, peer: ResponderImpl)
      ensures this.operation == operation && this.connected == connected && this.discovered == discovered
      ensures this.slot == slot && this.peer == peer
    {
      this.operation := operation;
      this.connected := connected;
      this.discovered := discovered;
      this.slot := slot;
      this.peer := peer;
    }

    /** Requester and responder act on the same two distinct flags and the same slot. */
    predicate Valid()
      reads this, peer
    {
      peer.connected == connected && peer.discovered == discovered && peer.slot == slot && connected != discovered
    }

    function Snapshot(): Shared
      reads this, connected, discovered, slot
    {
      Shared(connected.value, discovered.value, slot.result)
    }

    /** `awaitCompletion`: the callbacks before the reset, the reset, the callbacks during the wait, the verdict. */
    method AwaitCompletion(w: Wait) returns (r: Result)
      requires Valid()
      modifies connected, discovered, slot
      ensures Awaited(Snapshot(), r) == Await(old(Snapshot()), slot.reset, w)
    {
      peer.HandleAll(w.before);
      slot.Reset();
      peer.HandleAll(w.during);
      r := slot.Finish(w.timedOut);
    }

    method HandleConnectionRequest(block: Result, w: Wait) returns (r: Result, calledBlock: bool, waited: bool)
      requires Valid()
      modifies operation, connected, discovered, slot
      ensures operation.current == old(operation.current)
      ensures old(operation.current) != Idle ==> r == Busy && !calledBlock && !waited && Snapshot() == old(Snapshot())
      ensures old(operation.current) == Idle ==>
        Outcome(r, Snapshot(), calledBlock, waited) == Connect(old(Snapshot()), slot.reset, block, w)
    {
      var admitted := operation.TryAcquire(ConnectOp);
      if !admitted {
        return Busy, false, false;
      }
      r, calledBlock, waited := Success, false, false;
      if !connected.Read() {
        calledBlock := true;
        r := block;
        if r.Success? {
          waited := true;
          r := AwaitCompletion(w);
        }
      }
      if connected.Read() {
        r := Success;
      }
      operation.Release();
    }

    method HandleDisconnectionRequest(block: Result, w: Wait) returns (r: Result, calledBlock: bool, waited: bool)
      requires Valid()
      modifies operation, connected, discovered, slot
      ensures operation.current == old(operation.current)
      ensures old(operation.current) != Idle ==> r == Busy && !calledBlock && !waited && Snapshot() == old(Snapshot())
      ensures old(operation.current) == Idle ==>
        Outcome(r, Snapshot(), calledBlock, waited) == Disconnect(old(Snapshot()), slot.reset, block, w)
    {
      var admitted := operation.TryAcquire(DisconnectOp);
      if !admitted {
        return Busy, false, false;
      }
      r, calledBlock, waited := Success, false, false;
      if connected.Read() {
        calledBlock := true;
        r := block;
        if r.Success? {
          waited := true;
          r := AwaitCompletion(w);
        }
      }
      if !connected.Read() {
        r := Success;
      }
      operation.Release();
    }

    method HandleDiscoveryRequest(block: Result, w: Wait) returns (r: Result, calledBlock: bool, waited: bool)
      requires Valid()
      modifies operation, connected, discovered, slot
      ensures operation.current == old(operation.current)
      ensures old(operation.current) != Idle ==> r == Busy && !calledBlock && !waited && Snapshot() == old(Snapshot())
      ensures old(operation.current) == Idle ==>
        Outcome(r, Snapshot(), calledBlock, waited) == Discover(old(Snapshot()), slot.reset, block, w)
    {
      var admitted := operation.TryAcquire(DiscoverOp);
      if !admitted {
        return Busy, false, false;
      }
      calledBlock, waited := false, false;
      if !connected.Read() {
        r := NotConnected;
      } else if discovered.Read() {
        r := Success;
      } else {
        calledBlock := true;
        r := block;
        if r.Success? {
          waited := true;
          r := AwaitCompletion(w);
          if discovered.Read() {
            r := Success;
          }
        }
      }
      operation.Release();
    }

    method HandleReadRequest(block: Result, w: Wait) returns (r: Result, calledBlock: bool, waited: bool)
      requires Valid()
      modifies operation, connected, discovered, slot
      ensures operation.current == old(operation.current)
      ensures old(operation.current) != Idle ==> r == Busy && !calledBlock && !waited && Snapshot() == old(Snapshot())
      ensures old(operation.current) == Idle ==>
        Outcome(r, Snapshot(), calledBlock, waited) == Read(old(Snapshot()), slot.reset, block, w)
    {
      var admitted := operation.TryAcquire(ReadOp);
      if !admitted {
        return Busy, false, false;
      }
      calledBlock, waited := false, false;
      if !connected.Read() {
        r := NotConnected;
      } else if !discovered.Read() {
        r := NotDiscovered;
      } else {
        calledBlock := true;
        r := block;
        if r.Success? {
          waited := true;
          r := AwaitCompletion(w);
        }
      }
      operation.Release();
    }
  }
}
