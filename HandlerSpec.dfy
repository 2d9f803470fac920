/**
 * The request/response protocol of TemplateHandler, as values.
 *
 * Requester and responder share a connected flag, a discovered flag and a
 * result slot whose reset value is `Busy`.  The responder's six callbacks
 * set flags and signal a result into the slot; a signal is stored only
 * while the slot still holds the reset value, so the first one wins.
 *
 * A blocking wait is an input (`Wait`): the callbacks that run after the
 * request's block and before the wait resets the slot, the callbacks that
 * run from the reset until the request reads the flags again, and whether
 * the wait ended by timeout.
 */
module HandlerSpec {
  import opened Results

  /** A callback of the responder, with the reason it carries. */
  datatype Event =
    | Connected
    | Disconnected(reason: Result)
    | ServicesDiscovered
    | ServicesDiscoveryError(reason: Result)
    | ReadingSuccess
    | ReadingError(reason: Result)
  {
    /** The result the callback signals. */
    function Signal(): Result {
      match this
      case Connected => Success
      case Disconnected(reason) => reason
      case ServicesDiscovered => Success
      case ServicesDiscoveryError(reason) => reason
      case ReadingSuccess => Success
      case ReadingError(reason) => reason
    }

    predicate AffectsConnection() {
      Connected? || Disconnected?
    }
  }

  /** How a wait unfolds: see the module comment. */
  datatype Wait = Wait(before: seq<Event>, during: seq<Event>, timedOut: bool)

  /** The state requester and responder share. */
  datatype Shared = Shared(connected: bool, discovered: bool, slot: Result)

  /** `signalCompletion`: store `r` only if the slot still holds the reset value. */
  function Offer(slot: Result, reset: Result, r: Result): Result {
    if slot == reset then r else slot
  }

  /** One responder callback: flag writes, then the signal. */
  function Deliver(s: Shared, reset: Result, e: Event): Shared {
    match e
    case Connected => Shared(true, s.discovered, Offer(s.slot, reset, Success))
    case Disconnected(reason) => Shared(false, false, Offer(s.slot, reset, reason))
    case ServicesDiscovered => Shared(s.connected, true, Offer(s.slot, reset, Success))
    case ServicesDiscoveryError(reason) => Shared(s.connected, false, Offer(s.slot, reset, reason))
    case ReadingSuccess => s.(slot := Offer(s.slot, reset, Success))
    case ReadingError(reason) => s.(slot := Offer(s.slot, reset, reason))
  }

  /** The callbacks `es`, in order. */
  function DeliverAll(s: Shared, reset: Result, es: seq<Event>): Shared
    decreases |es|
  {
    if es == [] then s else DeliverAll(Deliver(s, reset, es[0]), reset, es[1..])
  }

  /** `awaitCompletion`: the state when the request looks again, and the result of the wait. */
  datatype Awaited = Awaited(state: Shared, result: Result)

  function Await(s: Shared, reset: Result, w: Wait): Awaited {
    var early := DeliverAll(s, reset, w.before);
    var late := DeliverAll(early.(slot := reset), reset, w.during);
    Awaited(late, if w.timedOut then TimedOut else late.slot)
  }

  /** What a request returns, the shared state after it, and whether it called its block and waited. */
  datatype Outcome = Outcome(result: Result, state: Shared, calledBlock: bool, waited: bool)

  /** `handleConnectionRequest` once admitted by the operation guard. */
  function Connect(s: Shared, reset: Result, block: Result, w: Wait): Outcome {
    if s.connected then Outcome(Success, s, false, false)
    else if !block.Success? then Outcome(block, s, true, false)
    else
      var a := Await(s, reset, w);
      Outcome(if a.state.connected then Success else a.result, a.state, true, true)
  }

  /** `handleDisconnectionRequest` once admitted. */
  function Disconnect(s: Shared, reset: Result, block: Result, w: Wait): Outcome {
    if !s.connected then Outcome(Success, s, false, false)
    else if !block.Success? then Outcome(block, s, true, false)
    else
      var a := Await(s, reset, w);
      Outcome(if !a.state.connected then Success else a.result, a.state, true, true)
  }

  /** `handleDiscoveryRequest` once admitted. */
  function Discover(s: Shared, reset: Result, block: Result, w: Wait): Outcome {
    if !s.connected then Outcome(NotConnected, s, false, false)
    else if s.discovered then Outcome(Success, s, false, false)
    else if !block.Success? then Outcome(block, s, true, false)
    else
      var a := Await(s, reset, w);
      Outcome(if a.state.discovered then Success else a.result, a.state, true, true)
  }

  /** `handleReadRequest` once admitted. */
  function Read(s: Shared, reset: Result, block: Result, w: Wait): Outcome {
    if !s.connected then Outcome(NotConnected, s, false, false)
    else if !s.discovered then Outcome(NotDiscovered, s, false, false)
    else if !block.Success? then Outcome(block, s, true, false)
    else
      var a := Await(s, reset, w);
      Outcome(a.result, a.state, true, true)
  }

  /*
   * The result slot.
   */

  /** Once a signal is stored, later ones are dropped. */
  lemma {:induction false} StoredSignalIsKept(s: Shared, reset: Result, es: seq<Event>)
    requires s.slot != reset
    ensures DeliverAll(s, reset, es).slot == s.slot
    decreases |es|
  {
    if es != [] {
      StoredSignalIsKept(Deliver(s, reset, es[0]), reset, es[1..]);
    }
  }

  /** The first signal after the reset wins, unless it is the reset value itself. */
  lemma FirstSignalWins(s: Shared, reset: Result, es: seq<Event>)
    requires s.slot == reset && es != [] && es[0].Signal() != reset
    ensures DeliverAll(s, reset, es).slot == es[0].Signal()
  {
    StoredSignalIsKept(Deliver(s, reset, es[0]), reset, es[1..]);
  }

  /** The slot the callbacks leave: the first signal that differs from the reset value, if any. */
  function FirstStored(slot: Result, reset: Result, es: seq<Event>): Result
    decreases |es|
  {
    if slot != reset || es == [] then slot
    else FirstStored(es[0].Signal(), reset, es[1..])
  }

  /** The slot depends only on the signals, never on the flags. */
  lemma {:induction false} SlotIsFirstStored(s: Shared, reset: Result, es: seq<Event>)
    ensures DeliverAll(s, reset, es).slot == FirstStored(s.slot, reset, es)
    decreases |es|
  {
    if es != [] {
      if s.slot != reset {
        StoredSignalIsKept(s, reset, es);
      } else {
        SlotIsFirstStored(Deliver(s, reset, es[0]), reset, es[1..]);
      }
    }
  }

  /**
   * The wait resets the slot: what the callbacks before it signalled is
   * discarded, and the result depends only on the callbacks during the wait
   * and on the timeout.
   */
  lemma ResetDiscardsEarlierSignals(s1: Shared, s2: Shared, reset: Result, w1: Wait, w2: Wait)
    requires w1.during == w2.during && w1.timedOut == w2.timedOut
    ensures Await(s1, reset, w1).result == Await(s2, reset, w2).result
  {
    var e1 := DeliverAll(s1, reset, w1.before).(slot := reset);
    var e2 := DeliverAll(s2, reset, w2.before).(slot := reset);
    SlotIsFirstStored(e1, reset, w1.during);
    SlotIsFirstStored(e2, reset, w2.during);
  }

  /** A wait that times out returns `TimedOut`; one that is woken returns what the slot holds. */
  lemma AwaitResult(s: Shared, reset: Result, w: Wait)
    ensures w.timedOut ==> Await(s, reset, w).result == TimedOut
    ensures !w.timedOut ==> Await(s, reset, w).result == FirstStored(reset, reset, w.during)
  {
    SlotIsFirstStored(DeliverAll(s, reset, w.before).(slot := reset), reset, w.during);
  }

  /*
   * The flags.
   */

  /** Only connection callbacks change the connected flag. */
  lemma {:induction false} OnlyConnectionEventsTouchConnected(s: Shared, reset: Result, es: seq<Event>)
    requires forall i :: 0 <= i < |es| ==> !es[i].AffectsConnection()
    ensures DeliverAll(s, reset, es).connected == s.connected
    decreases |es|
  {
    if es != [] {
      OnlyConnectionEventsTouchConnected(Deliver(s, reset, es[0]), reset, es[1..]);
    }
  }

  /** After a disconnection nothing is discovered until a discovery callback says so. */
  lemma {:induction false} DisconnectClearsDiscovered(s: Shared, reset: Result, es: seq<Event>, reason: Result)
    requires forall i :: 0 <= i < |es| ==> !es[i].ServicesDiscovered?
    ensures !DeliverAll(s, reset, [Disconnected(reason)] + es).discovered
  {
    assert ([Disconnected(reason)] + es)[1..] == es;
    NoDiscoveryKeepsUndiscovered(Deliver(s, reset, Disconnected(reason)), reset, es);
  }

  lemma {:induction false} NoDiscoveryKeepsUndiscovered(s: Shared, reset: Result, es: seq<Event>)
    requires !s.discovered
    requires forall i :: 0 <= i < |es| ==> !es[i].ServicesDiscovered?
    ensures !DeliverAll(s, reset, es).discovered
    decreases |es|
  {
    if es != [] {
      NoDiscoveryKeepsUndiscovered(Deliver(s, reset, es[0]), reset, es[1..]);
    }
  }

  /*
   * The verdicts.
   */

  /** Connect: short-circuits when connected, passes a block failure on unchanged, and reports `Success` whenever it ends connected. */
  lemma ConnectVerdict(s: Shared, reset: Result, block: Result, w: Wait)
    ensures var o := Connect(s, reset, block, w);
      && (o.calledBlock <==> !s.connected)
      && (o.waited <==> !s.connected && block.Success?)
      && (!o.waited ==> o.state == s)
      && (s.connected ==> o.result == Success)
      && (o.calledBlock && !o.waited ==> o.result == block)
      && (o.state.connected ==> o.result == Success)
      && (o.waited && !o.state.connected ==> o.result == Await(s, reset, w).result)
  {
  }

  /** Disconnect mirrors connect: `Success` whenever it ends disconnected. */
  lemma DisconnectVerdict(s: Shared, reset: Result, block: Result, w: Wait)
    ensures var o := Disconnect(s, reset, block, w);
      && (o.calledBlock <==> s.connected)
      && (o.waited <==> s.connected && block.Success?)
      && (!o.waited ==> o.state == s)
      && (o.calledBlock && !o.waited ==> o.result == block)
      && (!o.state.connected ==> o.result == Success)
      && (o.waited && o.state.connected ==> o.result == Await(s, reset, w).result)
  {
  }

  /** Discover: `NotConnected` before anything else, `Success` if already discovered, and after a wait `Success` iff discovered or signalled. */
  lemma DiscoverVerdict(s: Shared, reset: Result, block: Result, w: Wait)
    ensures var o := Discover(s, reset, block, w);
      && (!s.connected ==> o.result == NotConnected && !o.calledBlock)
      && (s.connected && s.discovered ==> o.result == Success && !o.calledBlock)
      && (o.calledBlock <==> s.connected && !s.discovered)
      && (o.waited <==> o.calledBlock && block.Success?)
      && (o.calledBlock && !o.waited ==> o.result == block)
      && (o.waited ==> (o.result == Success <==> o.state.discovered || Await(s, reset, w).result == Success))
  {
  }

  /** Read: `NotConnected` before `NotDiscovered`, no "already read" short-circuit, and the awaited result as it is. */
  lemma ReadVerdict(s: Shared, reset: Result, block: Result, w: Wait)
    ensures var o := Read(s, reset, block, w);
      && (!s.connected ==> o.result == NotConnected && !o.calledBlock)
      && (s.connected && !s.discovered ==> o.result == NotDiscovered && !o.calledBlock)
      && (o.calledBlock <==> s.connected && s.discovered)
      && (o.calledBlock && !o.waited ==> o.result == block)
      && (o.waited ==> o.result == Await(s, reset, w).result && o.state == Await(s, reset, w).state)
  {
  }

  /** A read leaves the connected flag as it was unless a connection callback arrives during it. */
  lemma ReadKeepsFlags(s: Shared, reset: Result, block: Result, w: Wait)
    requires forall i :: 0 <= i < |w.before| ==> !w.before[i].AffectsConnection()
    requires forall i :: 0 <= i < |w.during| ==> !w.during[i].AffectsConnection()
    ensures Read(s, reset, block, w).state.connected == s.connected
  {
    var early := DeliverAll(s, reset, w.before);
    OnlyConnectionEventsTouchConnected(s, reset, w.before);
    OnlyConnectionEventsTouchConnected(early.(slot := reset), reset, w.during);
  }
}
